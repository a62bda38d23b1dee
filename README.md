# Developer profile pipeline, modelled in Dafny

The system turns a GitHub user's code into a developer profile in four steps:

1. **The fetcher** (`GithubFetchPythonValt2.py`) takes a profile or repository URL. It works out
   which repositories to clone: up to five listed ones for a profile, or the one named. It walks
   each clone, keeps the files that pass the file and directory filters, and writes them all into
   one text dump. Each repository and each file is framed by rows of 80 `=`.
2. **The filter** (`filtering.py`) splits the dump back into repositories with a regular
   expression. It analyses each repository: languages, libraries, frameworks, commits, size, file
   types and test coverage. From those analyses it builds the *filtered data* and a first
   *translated profile*.
3. **The translator** (`translation.py`, class `DeveloperProfile1`) reads filtered data and
   aggregates it into a profile with languages, libraries, frameworks, depth, composition, skills
   and quality.
4. **The predictive model** (`modelling.py`, class `DivergencePredictiveModel`) reads a translated
   profile. It derives a skill vector, a code-style profile, frictions, capability scores, skill
   gaps, learning recommendations and project predictions.

Each step has its own module, and the `Text`, `Tally` and `Order` modules hold the Python
built-ins the steps rely on:

| module | file | models |
|---|---|---|
| `Text` | `text.dfy` | `lower`, `split`, `replace(pat, "")`, `rstrip`, `strip` |
| `Tally` | `tally.dfy` | `defaultdict(int)` counters kept in insertion order; stable `sorted(..., reverse=True)` and `[:n]` |
| `Order` | `order.dfy` | `sorted` on strings |
| `RepoFetch` | `repo_fetch.dfy` | the fetcher |
| `DumpParser` | `dump_parser.dfy` | `parse_repositories`, including the regular-expression split |
| `Filtering` | `filtering.dfy` | `analyze_single_repo` and `create_filtered_data` |
| `Profile` | `profile.dfy` | `create_translated_data` and `analyze_github_dump` |
| `Translation` | `translation.dfy` | the translator class |
| `Modelling` | `modelling.dfy` | the predictive model class |

How the model represents the Python code:

- Dictionaries are sequences of key/value entries in insertion order, because the output order
  of every `dict` is observable.
- Sets are duplicate-free lists or Dafny sets.
- Scores are exact reals.
- The network, `git clone`, the directory walk, file reading, JSON files, regular-expression
  matching inside a repository, `datetime` parsing, `statistics.stdev` and the clock are
  parameters of the operations that use them.
- The loops of the source are methods with loop invariants, proved equal to a specification
  function. The properties are proved about those functions.
- The two classes are Dafny classes whose `data` field is set by the loading method.

**The KeyError that stops the predictive model.** `compute_skill_vector` reads
`technical_depth['avg_repo_size']` (`modelling.py:187`). The translator writes that key only when
there is at least one repository (`translation.py:77`). Its empty case (`translation.py:62`) and
the filter's own profile (`filtering.py:296`) write `avg_repo_size_kb` instead. On such input the
source raises `KeyError`. The model carries the optional size as `avgRepoSize: Option<real>`:
- `SkillVectorOf`, `PredictionOf` and `PredictiveProfileOf` return `None` exactly where the
  source raises;
- `SkillVectorFacts` and `PredictiveProfileFacts` state that this happens exactly when the size
  is absent.

## Model

| member | source | states |
|---|---|---|
| Text.Lower | backend/translation/GithubFetchPythonValt2.py:46 | lower-casing keeps the length and maps every character through the ASCII letter mapping, leaving no upper-case letter |
| Text.LowerIdempotent | backend/translation/GithubFetchPythonValt2.py:46 | lower-casing twice is lower-casing once |
| Text.TrimEnd | backend/translation/GithubFetchPythonValt2.py:76 | `rstrip(c)` gives a prefix that does not end in `c`, and every dropped character is `c` |
| Text.SplitJoin | backend/translation/GithubFetchPythonValt2.py:78 | joining the parts of `split(c)` with `c` gives the string back, and no part holds `c` |
| Text.SplitAfter | backend/translation/GithubFetchPythonValt2.py:78 | splitting `a + c + b`, with no `c` in `a`, gives `a` followed by the parts of `b` |
| Text.RemoveAll | backend/translation/GithubFetchPythonValt2.py:75 | `replace(pat, "")` never lengthens the string and keeps only characters of it |
| Text.RemoveStep | backend/translation/GithubFetchPythonValt2.py:75 | `replace(pat, "")` drops a leading occurrence of the pattern and keeps a leading character that cannot start it, the rest being removed in the same way |
| Text.RemoveAbsent | backend/translation/GithubFetchPythonValt2.py:75 | removing a pattern that does not occur changes nothing |
| Text.StripOfSpace | backend/translation/filtering.py:32 | a blank string strips to the empty string |
| Tally.TallyCounts | backend/translation/filtering.py:122-124 | the counting loop counts every element exactly as often as it occurs, lists each distinct element once and lists nothing else |
| Tally.Bump | backend/translation/filtering.py:124 | `c[k] += n` appends a new key at the end and leaves every existing key in its place |
| Tally.BumpKeepsDistinct | backend/translation/filtering.py:124 | incrementing keeps keys distinct and adds the key only if it was new |
| Tally.AddAllGet | backend/translation/filtering.py:216-219 | adding entries to a counter adds to each key the counts listed for it |
| Tally.AddAllKeys | backend/translation/filtering.py:216-219 | adding entries lists exactly the keys already present and the keys added |
| Tally.AddAllDistinct | backend/translation/filtering.py:216-219 | adding entries keeps the keys of a counter distinct |
| Tally.SortDesc | backend/translation/filtering.py:136 | `sorted(..., key, reverse=True)` is a permutation ordered by non-increasing key |
| Tally.SortStable | backend/translation/filtering.py:136 | the sort is stable: the elements sharing a key keep their relative order |
| Tally.TakeTop | backend/translation/filtering.py:136 | the first `n` of a sorted list are sorted and none of the rest outranks them |
| Tally.Take | backend/translation/filtering.py:165 | `s[:n]` is the prefix of length `min(n, len(s))` |
| Tally.SortedEntry | backend/translation/filtering.py:231 | every entry of a sorted counter is one of its keys with that key's count |
| Tally.SortedFound | backend/translation/filtering.py:231 | every key of a counter appears in its sorted form with its count |
| Order.SortStringsAscending | backend/translation/filtering.py:55 | `sorted` on strings yields an ascending permutation |
| Order.AscendingUnique | backend/translation/filtering.py:55 | two ascending arrangements of the same strings are equal, so `sorted` has one possible result |
| RepoFetch.Extension | backend/translation/GithubFetchPythonValt2.py:70 | `os.path.splitext` returns a suffix of the path that is empty or starts with its only dot and has no `/` |
| RepoFetch.DotfileHasNoExtension | backend/translation/GithubFetchPythonValt2.py:70 | a name made of leading dots and a dot-free stem has no extension |
| RepoFetch.CodeFileCases | backend/translation/GithubFetchPythonValt2.py:44-71 | a file is kept iff its lower-cased name is not excluded and it is important, mentions dockerfile or makefile, or has a valid extension |
| RepoFetch.CodeFileIgnoresCase | backend/translation/GithubFetchPythonValt2.py:46 | the decision is the same for a name and its lower-cased form |
| RepoFetch.ExcludedRejected | backend/translation/GithubFetchPythonValt2.py:49-50 | a name whose lower-cased form is in the exclusion set is rejected |
| RepoFetch.LockFileRejected | backend/translation/GithubFetchPythonValt2.py:13-17 | `package-lock.json` is rejected although `.json` is a valid extension |
| RepoFetch.MixedCaseExclusionsNeverMatch | backend/translation/GithubFetchPythonValt2.py:13-17 | the mixed-case exclusion entries (`Cargo.lock`, `.DS_Store`, ...) never equal a lower-cased name |
| RepoFetch.BuildFilesAccepted | backend/translation/GithubFetchPythonValt2.py:57-58 | any non-excluded name containing `Dockerfile` in any case is kept, whatever its extension |
| RepoFetch.DotfileRejected | backend/translation/GithubFetchPythonValt2.py:61-71 | a dotfile such as `.env` or `.gitignore` is rejected unless an earlier rule keeps it, although those names are listed as extensions |
| RepoFetch.SkipIffExcludedPiece | backend/translation/GithubFetchPythonValt2.py:39-42 | a directory is skipped iff one of its `/`-separated pieces is an excluded directory name |
| RepoFetch.WorkflowsNeverPart | backend/translation/GithubFetchPythonValt2.py:36 | the `.github/workflows` entry can never be a path component, so it never excludes anything |
| RepoFetch.ExtractUsernameAndRepo | backend/translation/GithubFetchPythonValt2.py:73-89 | fewer than two segments is the `ValueError`; two segments give the user and "ALL"; three or more give segments 1 and 2 |
| RepoFetch.SegmentsOfUrl | backend/translation/GithubFetchPythonValt2.py:75-78 | whatever the scheme and however many trailing slashes, the segments of a URL are the names joined after the scheme |
| RepoFetch.RepositoryUrl | backend/translation/GithubFetchPythonValt2.py:83-87 | a repository URL yields its owner and name, whatever the scheme, extra path or trailing slashes |
| RepoFetch.ProfileUrl | backend/translation/GithubFetchPythonValt2.py:80-82 | a profile URL, with or without trailing slashes, yields the user and "ALL" |
| RepoFetch.ShortUrlRefused | backend/translation/GithubFetchPythonValt2.py:88-89 | a URL with fewer than two segments, including the empty string, is refused |
| RepoFetch.Selected | backend/translation/GithubFetchPythonValt2.py:159-185 | the dumped files are at most the walked ones |
| RepoFetch.DumpedFiles | backend/translation/GithubFetchPythonValt2.py:159-185 | a file block is dumped iff it comes from a walked file in a directory that is not skipped, that passes `is_code_file` and could be read |
| RepoFetch.SelectedAppend | backend/translation/GithubFetchPythonValt2.py:159-185 | filtering two walks in sequence is filtering the first, then the second |
| RepoFetch.SkippedFileIrrelevant | backend/translation/GithubFetchPythonValt2.py:173-189 | removing a file that is not dumped from the walk leaves the dump unchanged |
| RepoFetch.ProcessLocalRepo | backend/translation/GithubFetchPythonValt2.py:149-191 | the appended text is the repository header followed by one block per dumped file in walk order, and the result lists exactly their relative paths |
| RepoFetch.ReposToProcess | backend/translation/GithubFetchPythonValt2.py:214-222 | for "ALL": the first at most five listed repositories, all of them when fewer; otherwise exactly the named repository with its clone URL |
| RepoFetch.AllRepositoryTakenForProfile | backend/translation/GithubFetchPythonValt2.py:80-87 | a repository named "ALL" yields the same target as the profile URL, and the listed repositories are processed instead of it |
| RepoFetch.ExtractTarget | backend/translation/GithubFetchPythonValt2.py:73-89 | the corrected extraction fails exactly when the original does, and keeps a profile apart from every repository |
| RepoFetch.PlanFor | backend/translation/GithubFetchPythonValt2.py:214-222 | the corrected plan: the listing cut to five for a profile, the named repository otherwise |
| RepoFetch.RepositoryPlannedAsNamed | backend/translation/GithubFetchPythonValt2.py:214-222 | with the correction, every repository URL, "ALL" included, plans exactly that repository |
| RepoFetch.ClonedDumps | backend/translation/GithubFetchPythonValt2.py:233-243 | only repositories that could be cloned are dumped, in plan order |
| RepoFetch.FetchGithubRepo | backend/translation/GithubFetchPythonValt2.py:193-253 | as written: the URL is refused exactly when `extract_username_and_repo` fails; otherwise the plan is `ReposToProcess` of its answer (the listing when the repository is "ALL"), the run returns "RESULTS.txt", whose text is the header plus the sections of the cloned repositories, and the reported count is their files |
| RepoFetch.FetchGithubRepoCorrected | backend/translation/GithubFetchPythonValt2.py:193-253 | the corrected run plans through `ExtractTarget`, so a repository named "ALL" is cloned as named |
| RepoFetch.FetchCorrectedAgrees | backend/translation/GithubFetchPythonValt2.py:214-222 | the corrected run refuses the same URLs and, on every URL whose repository is not "ALL", gives the same outcome as the source |
| RepoFetch.DumpPlan | backend/translation/GithubFetchPythonValt2.py:230-250 | the loop appends each cloned repository's section and adds its file count |
| DumpParser.LeadingSpace | backend/translation/filtering.py:27 | `\s*` greedily takes the longest whitespace prefix |
| DumpParser.ParseRepositories | backend/translation/filtering.py:22-40 | the loop over the split pairs each captured name, stripped, with the piece that follows it, dropping the leading text |
| DumpParser.NoHeaderNoRepos | backend/translation/filtering.py:27-40 | a text without a repository header splits into itself alone and yields no repository |
| DumpParser.SectionMatch | backend/translation/filtering.py:27 | at a header written by the fetcher the pattern matches, captures the name and ends after the second row of `=` |
| DumpParser.CapturedStrip | backend/translation/filtering.py:32 | stripping the captured name gives the written name stripped |
| DumpParser.FetchedDumpParses | backend/translation/GithubFetchPythonValt2.py:193-253 | the file a run returns parses back into the repositories it could clone, in plan order and under their stripped names: at most five for a profile URL and at most the one named otherwise |
| DumpParser.ParsedName | backend/translation/filtering.py:36-38 | parsed repository `i` carries the stripped name of dumped repository `i` |
| DumpParser.RoundTrip | backend/translation/filtering.py:22-40 | parsing the fetcher's dump gives one record per repository, in order, named by the stripped name and holding its file blocks, provided neither the user nor a repository name holds a newline and no file block holds a header |
| Filtering.TopCountsFacts | backend/translation/filtering.py:136 | the cut table holds at most `n` entries of the counter, largest first, with distinct keys |
| Filtering.TopCountsDrop | backend/translation/filtering.py:136 | an entry is cut only when `n` entries with at least its count were kept |
| Filtering.Bases | backend/translation/filtering.py:121-124 | each base is the first `.`-separated piece of its import |
| Filtering.BaseIsPrefix | backend/translation/filtering.py:123 | a base has no `.` and is a prefix of its import |
| Filtering.KeepLibraries | backend/translation/filtering.py:133-134 | an entry survives iff its name is longer than two characters and not `sys`, `os`, `io` or `re` |
| Filtering.LibrariesFacts | backend/translation/filtering.py:116-136 | at most 30 libraries, most frequent first, each name passing the filter and counted exactly as often as it was matched |
| Filtering.LibrariesComplete | backend/translation/filtering.py:133-136 | a matched name that passes the filter is missing only when 30 names at least as frequent were kept |
| Filtering.DetectLibraries | backend/translation/filtering.py:116-136 | the counting loops, filter, sort and cut compute the library table |
| Filtering.Lowered | backend/translation/filtering.py:184 | every extension lower-cased, in order |
| Filtering.FileTypesFacts | backend/translation/filtering.py:177-186 | at most 20 lower-case extensions, most frequent first, each counted as often as it occurs in any case |
| Filtering.FileTypesComplete | backend/translation/filtering.py:186 | an extension is missing only when 20 at least as frequent were kept |
| Filtering.AnalyzeFileTypes | backend/translation/filtering.py:177-186 | the counting loop, sort and cut compute the file-type table |
| Filtering.Commits | backend/translation/filtering.py:165-173 | a commit is kept iff its date was found and parses, with the parsed timestamp; no more commits than dates |
| Filtering.ParseCommits | backend/translation/filtering.py:158-175 | the loop keeps the parsable dates among the first 100, so at most 100 commits |
| Filtering.TestCoverage | backend/translation/filtering.py:206-210 | coverage lies in [0, 100]; before `round(coverage, 2)`, it is 0 iff there are no code files or no test matches, and 100 iff test matches reach the code files |
| Filtering.AnalysisBounds | backend/translation/filtering.py:58-91 | a repository record keeps its name, at most 30 libraries, 20 file types and 100 commits, a size of length/1024 and a coverage in [0, 100] |
| Filtering.AnalyzeSingleRepo | backend/translation/filtering.py:58-91 | the method builds the record from the scan of the content |
| Filtering.AnalyzedAt | backend/translation/filtering.py:47-49 | the record at each position analyses the repository at that position |
| Filtering.AllCommitsCount | backend/translation/filtering.py:50-54 | `total_commits` is the sum of the repositories' commit counts |
| Filtering.Dates | backend/translation/filtering.py:55 | a date is listed iff it is non-empty and some commit has it |
| Filtering.FilteredFacts | backend/translation/filtering.py:42-56 | one record per repository, `total_commits` is the sum of their commits, and `commit_dates` is the one ascending arrangement of the dated commits' dates |
| Filtering.CreateFilteredData | backend/translation/filtering.py:42-56 | the loop analyses the repositories in order and collects their commits |
| Profile.SummedAt | backend/translation/filtering.py:216-219 | the summed table lists exactly the keys of the repositories' tables, each with its values added up |
| Profile.SumCounts | backend/translation/filtering.py:216-219 | the nested counting loop computes the summed table |
| Profile.PercentagesSum | backend/translation/filtering.py:222-223 | the percentages add up to the total over the divisor times 100 |
| Profile.LanguagesEmpty | backend/translation/filtering.py:221-223 | the language map is empty iff the total count is not positive |
| Profile.LanguagesShares | backend/translation/filtering.py:221-223 | otherwise it lists every counted language in order, and the unrounded shares add up to 100 |
| Profile.LibraryTotalsOrder | backend/translation/filtering.py:231 | library totals are listed largest first, each library once |
| Profile.LibraryTotalEntry | backend/translation/filtering.py:226-231 | every listed library occurs in some repository with the sum of its counts |
| Profile.LibraryTotalFound | backend/translation/filtering.py:226-231 | every library of every repository is listed with the sum of its counts |
| Profile.ConcatListing | backend/translation/filtering.py:235-237 | a framework occurs in the concatenated lists once per repository that lists it |
| Profile.ListingTotalsOrder | backend/translation/filtering.py:239 | framework counts are listed largest first, each name once |
| Profile.ListingTotalEntry | backend/translation/filtering.py:234-239 | every counted framework is listed by some repository and counted once per repository listing it |
| Profile.ListingTotalFound | backend/translation/filtering.py:234-239 | every framework some repository lists is counted |
| Profile.CountListings | backend/translation/filtering.py:234-237 | the counting loop tallies the concatenated framework lists |
| Profile.CommitSizesCount | backend/translation/filtering.py:242-248 | there is one commit size per commit |
| Profile.CommitSizesSum | backend/translation/filtering.py:244-248 | the commit sizes add up to the size of the repositories that have commits |
| Profile.AverageCommitSize | backend/translation/filtering.py:263 | the average commit size is that size per commit, or 0 without commits |
| Profile.CollectCommits | backend/translation/filtering.py:242-248 | the habits loop collects every commit and every per-commit size |
| Profile.Timestamps | backend/translation/filtering.py:250 | timestamps are at most one per commit, and a timestamp of 0 is dropped as falsy |
| Profile.Frequency | backend/translation/filtering.py:251-255 | the frequency lies between 0 and the number of timestamps |
| Profile.CommitPatternBands | backend/translation/filtering.py:265-272 | a higher frequency never gives a sparser pattern, and each pattern covers exactly its band |
| Profile.MeanBounds | backend/translation/filtering.py:283 | the mean lies between any bounds of the values |
| Profile.TechnicalDepthFacts | backend/translation/filtering.py:281-299 | with no repositories everything is 0 and "beginner"; otherwise the score lies in [0, 1], the average does not exceed the maximum, and the level follows the score's band |
| Profile.JsonCountsTwice | backend/translation/filtering.py:302-317 | a `json` count goes to backend and to data, not to frontend |
| Profile.SharesFacts | backend/translation/filtering.py:319-324 | all shares are 0 when nothing is counted; otherwise each lies in [0, 1] and the unrounded shares add up to 1 |
| Profile.CompositionOfFacts | backend/translation/filtering.py:301-324 | the composition shares lie in [0, 1] and, unrounded, add up to 1 unless all are 0 |
| Profile.CategoryCounts | backend/translation/filtering.py:306-317 | the loop adds each file type's count to every category listing it |
| Profile.LibraryNamesMembers | backend/translation/filtering.py:329-332 | a name is in `all_libs` iff some repository lists a library with that lower-case form |
| Profile.FrameworkNamesMembers | backend/translation/filtering.py:329-333 | a name is in `all_frameworks` iff some repository lists a framework with that lower-case form |
| Profile.CollectNames | backend/translation/filtering.py:329-335 | the loop collects the union of both name sets |
| Profile.Present | backend/translation/filtering.py:339 | the intersection size is at most the number of indicators, positive iff one is present, and full iff all are |
| Profile.RatioExact | backend/translation/filtering.py:339-347 | a skill ratio lies in [0, 1], is positive iff an indicator is present and 1 iff all are |
| Profile.RatioFacts | backend/translation/filtering.py:350 | a ratio survives the `> 0.05` filter iff one of its indicators is present |
| Profile.SkillsFacts | backend/translation/filtering.py:326-350 | every listed skill scores in (0.05, 1], and each skill is listed iff one of its indicators is present |
| Profile.QualityFacts | backend/translation/filtering.py:352-370 | for coverages in [0, 100] the average is in [0, 100] and the score in [0, 1]; no repositories give 0 and "needs_improvement"; the rating follows the average's band; the unrounded score is the unrounded average over 100 |
| Profile.CreateTranslatedData | backend/translation/filtering.py:212-386 | the counting loops and derived entries compute the translated data |
| Profile.AnalyzeGithubDump | backend/translation/filtering.py:8-20 | parse, then filter, then translate |
| Profile.FetchedDumpAnalysed | backend/translation/filtering.py:8-20 | the fetcher's dump analyses to one record per repository, in order, named by the stripped written name and analysing that repository's file blocks; the profile counts those repositories |
| Translation.LanguageCountsFacts | backend/translation/translation.py:15-26 | dictionary-shaped languages add their counts and list-shaped ones 1 per entry, other shapes nothing; every language any repository names is a key |
| Translation.LanguageSharesFacts | backend/translation/translation.py:28-34 | the result is `{}` iff the total is 0; otherwise every counted language is listed in order and the unrounded percentages add up to 100 |
| Translation.AddCounts | backend/translation/translation.py:22-23 | the inner loop adds each language's count |
| Translation.AddNames | backend/translation/translation.py:24-26 | the inner loop adds 1 per listed language |
| Translation.LibraryCountsFacts | backend/translation/translation.py:36-46 | each library maps to the number of repositories listing it, largest first, and every library of every repository is listed |
| Translation.FrameworkCountsFacts | backend/translation/translation.py:48-55 | the corrected framework aggregation maps each framework to the number of repositories listing it, largest first, and lists every framework |
| Translation.FrameworkCountsDropped | backend/translation/translation.py:48-55 | for one repository listing `flask`, the counts the source computes and drops are non-empty |
| Translation.DepthFacts | backend/translation/translation.py:57-80 | no repositories give 0 and "beginner"; otherwise the score lies in [0, 1], the average does not exceed the maximum, and the level follows the score's band |
| Translation.SplitAgrees | backend/translation/translation.py:100-112 | this composition rule agrees with the filter's exactly when the sum is not negative |
| Translation.CompositionFacts | backend/translation/translation.py:82-112 | the shares are all 0 when no file type matches; otherwise each lies in [0, 1] and the unrounded shares add up to 1 |
| Translation.SkillScores | backend/translation/translation.py:154-159 | one score per skill area, six in all |
| Translation.SkillScoresFacts | backend/translation/translation.py:114-161 | every score lies in [0, 1], is positive iff one of its indicators is present and 1 iff all are |
| Translation.QualityFacts | backend/translation/translation.py:163-185 | no repositories give "unknown" and 0; otherwise the unrounded score is the unrounded average over 100, in [0, 1], and the rating follows the average's band |
| Translation.DeveloperProfile.constructor | backend/translation/translation.py:8-10 | stores the file name, with no data yet |
| Translation.DeveloperProfile.LoadFilteredData | backend/translation/translation.py:11-13 | sets the data to the loaded document, keeping the file name |
| Translation.DeveloperProfile.LanguageAggregation | backend/translation/translation.py:15-34 | the counting loop computes the language shares |
| Translation.DeveloperProfile.LibraryAggregation | backend/translation/translation.py:36-46 | the counting loop and the sort compute the library counts |
| Translation.DeveloperProfile.FrameworkAggregationAsWritten | backend/translation/translation.py:48-55 | as written, the method returns nothing |
| Translation.DeveloperProfile.FrameworkAggregation | backend/translation/translation.py:48-55 | the corrected method returns the sorted framework counts |
| Translation.DeveloperProfile.Composition | backend/translation/translation.py:82-112 | the loop computes the composition |
| Translation.DeveloperProfile.Skills | backend/translation/translation.py:114-161 | the loop collects the lower-cased names and scores every area |
| Translation.DeveloperProfile.Translate | backend/translation/translation.py:187-205 | loads the document and assembles the profile from it, with `None` as its `frameworks` entry |
| Translation.DeveloperProfile.TranslateCorrected | backend/translation/translation.py:187-205 | the corrected assembly, whose `frameworks` entry is the sorted framework counts |
| Translation.SummaryFrameworks | backend/translation/translation.py:48-55 | as written the profile's `frameworks` entry is `None`; the corrected profile differs only there, counting, largest first, the repositories that list each framework, with no listed framework left out |
| Modelling.LookupFirst | backend/translation/modelling.py:152 | `.get(k, d)` finds the value of the first entry with the key |
| Modelling.LookupAbsent | backend/translation/modelling.py:152 | `.get(k, d)` on a missing key gives the default |
| Modelling.FirstCategoryFacts | backend/translation/modelling.py:59-97 | the category is "other" when no list holds the name; otherwise it is the first list that does |
| Modelling.CategoryOfFacts | backend/translation/modelling.py:59-97 | categorising ignores case, and the first matching category in source order wins |
| Modelling.CountMatching | backend/translation/modelling.py:112 | the number of matching library keys is at most the number of keys |
| Modelling.CountMatchingFacts | backend/translation/modelling.py:112-123 | a count is 0 iff no key matches, and equals the number of keys iff every key matches |
| Modelling.CappedFacts | backend/translation/modelling.py:113-124 | `min(n / d, 1)` lies in [0, 1] and is 1 iff `n` reaches `d` |
| Modelling.DevtoolsSkillFacts | backend/translation/modelling.py:99-137 | each indicator count is at most the number of libraries, and with a quality score in [0, 1] the skill lies in [0, 1] |
| Modelling.SkillVectorFacts | backend/translation/modelling.py:139-197 | the vector exists iff the average size is present; every component but cloud is at most 1; cloud is the `cloud_devops` skill unclamped; AI libraries add 0.2 to `ai_ml` before the cap; normalised inputs give components in [0, 1] |
| Modelling.CountAbove | backend/translation/modelling.py:220 | at most as many languages as listed are above 1% |
| Modelling.CodeStyleFacts | backend/translation/modelling.py:199-231 | type safety is at most 1; the functional score is 0.3 iff more than two functional libraries, else 0.7; diversity lies in [0, 1] and is 1 iff six languages exceed 1%; complexity is the depth score |
| Modelling.FrictionFacts | backend/translation/modelling.py:233-315 | every friction is at least 0, and with skills, style and quality in [0, 1] every friction is at most 1 |
| Modelling.CapabilityFacts | backend/translation/modelling.py:317-390 | every capability is at most 1, and with skills and quality in [0, 1] every capability lies in [0, 1] |
| Modelling.SkillGapsFacts | backend/translation/modelling.py:392-396 | the gaps are exactly the skills below 0.5, each with gap one minus the score (so above 0.5), ordered by non-increasing gap |
| Modelling.LearningPathFacts | backend/translation/modelling.py:398-437 | one recommendation per rule that fires, in rule order; each is present iff its condition holds; the frontend one suggests React below 0.6 React friction, else Vue |
| Modelling.GapOrigins | backend/translation/modelling.py:496-498 | each gap comes from one rule of the project type |
| Modelling.ProjectGapsOrigins | backend/translation/modelling.py:485-500 | the gaps come from strictly increasing rule positions, each from a rule whose skill is below its threshold |
| Modelling.ProjectGapsComplete | backend/translation/modelling.py:496-498 | every rule whose skill is below its threshold gives a gap |
| Modelling.UnknownProjectGaps | backend/translation/modelling.py:496 | a project type without rules has no gaps |
| Modelling.RiskFacts | backend/translation/modelling.py:460-465 | the risk is the band the success score falls in |
| Modelling.TensionsFacts | backend/translation/modelling.py:468-474 | each tension point is present iff its condition holds |
| Modelling.SuccessLookup | backend/translation/modelling.py:443-446 | a project type that names no capability gets 0.5; one that does gets that capability's score |
| Modelling.FrictionLookup | backend/translation/modelling.py:449-457 | a project type outside the friction map gets 0.5; a front-end app gets the React friction |
| Modelling.PredictionFacts | backend/translation/modelling.py:439-483 | a prediction quotes its score's risk band and its own tension points; unknown types get the 0.5 defaults and no gaps |
| Modelling.PredictiveProfileFacts | backend/translation/modelling.py:502-528 | the profile exists iff the average size is present; it carries version "2.0.0", the repository count and time; its gaps are sorted; it makes at most three recommendations; for normalised input every score lies in [0, 1] |
| Modelling.DivergencePredictiveModel.constructor | backend/translation/modelling.py:50-52 | stores the file name, with no data yet |
| Modelling.DivergencePredictiveModel.LoadData | backend/translation/modelling.py:54-57 | sets the data to the loaded profile, keeping the file name |
| Modelling.DivergencePredictiveModel.RecommendLearningPath | backend/translation/modelling.py:398-437 | the appending rules compute the learning path |
| Modelling.DivergencePredictiveModel.IdentifyProjectGaps | backend/translation/modelling.py:485-500 | the loop over the project type's rules computes its gaps |
| Modelling.DivergencePredictiveModel.PredictProjectSuccess | backend/translation/modelling.py:439-483 | the tension checks, appended in order, compute the prediction, or `None` where the skill vector fails |
| Modelling.DivergencePredictiveModel.GeneratePredictiveProfile | backend/translation/modelling.py:502-528 | loads the profile and derives the predictive profile from it |

## Left out

- Network, processes and the file system:
  - the GitHub listing request and its headers and token (`GithubFetchPythonValt2.py:91-132`) are the `listing` parameter; a failed request is the empty listing;
  - `git clone` (`GithubFetchPythonValt2.py:134-147`) is the `clone` parameter, which gives the walk of a cloned repository or `None`;
  - the temporary-directory clean-up (`GithubFetchPythonValt2.py:200-211`, `245-250`, `255-288`) changes nothing in the dump and is left out;
  - the dump is modelled as the text written, not as a file opened in append mode.
- The directory walk (`os.walk`) is a parameter: each walked file with its directory and its text, or `None` when reading failed.
  - Pruning `dirs[:]` removes exactly the directories whose names the skip check would reject, so the model applies only the skip check.
  - Path components follow `pathlib` on POSIX.
- Regular-expression matching inside a repository's text (`detect_languages`, the two `findall`s of `detect_libraries`, `detect_frameworks`, the date, extension and test-indicator patterns) is the `Scan` parameter.
  - What the code does with the matches is modelled.
  - The splitting expression of `parse_repositories` is modelled in full.
- `datetime.fromisoformat` is the `parse` parameter.
  - `statistics.stdev` in the consistency score is the `consistency` parameter.
  - `datetime.now()` is the `now` parameter.
- `round(x, n)` is not applied: scores are exact reals.
  - Where `modelling.py` feeds a rounded value into a later step, the model feeds the exact one.
  - Floating-point rounding and overflow are not modelled.
- Filtering.TestCoverage: the "0 iff" and "100 iff" clauses hold of the unrounded coverage; `round(coverage, 2)` (`filtering.py:210`) turns a small positive ratio into 0.0 and one just below 100 into 100.0.
- Profile.LanguagesShares: the shares add up to exactly 100 before rounding; the rounded shares of `filtering.py:222` need not (three languages counted once give 99.99).
- Translation.LanguageSharesFacts: the percentages add up to exactly 100 before rounding; the rounded ones of `translation.py:34` need not.
- Profile.SharesFacts: the shares add up to exactly 1 before rounding; the rounded shares of `filtering.py:321-323` need not (three equal counts give 0.999).
- Profile.CompositionOfFacts: the composition adds up to exactly 1 before rounding, for the same reason as `SharesFacts`.
- Translation.CompositionFacts: the shares add up to exactly 1 before rounding; the rounded shares of `translation.py:109-111` need not.
- Profile.QualityFacts: the score times 100 equals the average before rounding; `filtering.py:367-368` rounds the two to different precisions.
- Translation.QualityFacts: the score times 100 equals the average before rounding; `translation.py:183-184` rounds the two to different precisions.
- RepoFetch.FetchGithubRepo: the text written to "RESULTS.txt" is returned as a value, and the count the source only prints is returned beside it.
- Lower-casing covers ASCII letters only.
- JSON reading and writing, `save_to_json`, `save_predictions`, every `print` and the `__main__` blocks are left out.
  - The loading methods take the decoded document as a parameter.
- Missing dictionary keys other than `avg_repo_size` are assumed present.
  - The model reads them as fields, where the source would raise `KeyError`.
  - A `languages` value that is neither a dict nor a list contributes nothing, as in the source.
- Tension and gap messages (`modelling.py:470-474`, `498`) are datatypes holding the quoted values, not formatted strings.
- `Translation.DeveloperProfile` has no methods for `analytical_depth` and `quality`: `Translate` uses the functions `Depth` and `Quality`, whose properties are `DepthFacts` and `QualityFacts`.
- Modelling.FrictionFacts: bounds only; the nine weighted formulas are stated by `FrictionOf` itself.
- Modelling.CapabilityFacts: bounds only; the eight weighted formulas are stated by `CapabilitiesOf` itself.

## Findings

| source | as written | input that shows it | evidently intended | confidence | as-written member | corrected member |
|---|---|---|---|---|---|---|
| backend/translation/translation.py:48-55 | `framework_aggregation` counts and sorts the frameworks, then returns nothing, so `translate` stores `None` under `frameworks` | one repository with `frameworks: ["flask"]`: the counts are `{"flask": 1}`, the result is `None` | return the sorted counts, as `library_aggregation` does | high (not executed) | Translation.DeveloperProfile.FrameworkAggregationAsWritten | Translation.DeveloperProfile.FrameworkAggregation |
| backend/translation/GithubFetchPythonValt2.py:80-87, 217-222 | the profile case is signalled by the repository name "ALL", so a repository named `ALL` is taken for its owner's profile | `https://github.com/someuser/ALL` processes up to five of someuser's listed repositories instead of the repository `ALL` | keep the profile case apart from every repository name | medium (not executed) | RepoFetch.AllRepositoryTakenForProfile | RepoFetch.RepositoryPlannedAsNamed |

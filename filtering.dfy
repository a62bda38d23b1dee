/** The per-repository analysis of the dump (`analyze_single_repo` and the helpers whose
    results it collects) and the filtered data built from all repositories
    (`create_filtered_data`). What the regular expressions find in a repository's text
    arrives as a `Scan`; this module models what the code does with those matches. */
module Filtering {
  import opened Text
  import opened Tally
  import opened Order
  import opened RepoFetch
  import DumpParser

  /** What the regular expressions of the analysis find in one repository's text. */
  datatype Scan = Scan(
    languages: Counter,       // the language match counts `detect_languages` returns
    imports: seq<string>,     // module names after `import` / `from`, in text order
    packages: seq<string>,    // package names followed by a "x.y.z" version string
    frameworks: seq<string>,  // the sorted framework names `detect_frameworks` returns
    dates: seq<string>,       // ISO date-times, in text order
    extensions: seq<string>,  // the word after each '.', in text order
    testMatches: nat,         // matches of the eight test indicators, all together
    codeFiles: nat)           // matches of `.py`, `.js`, `.ts` or `.sh`

  datatype Commit = Commit(date: string, timestamp: real)

  /** One entry of `repositories` in the filtered data. */
  datatype RepoInfo = RepoInfo(
    name: string,
    languages: Counter,
    libraries: Counter,
    frameworks: seq<string>,
    commits: seq<Commit>,
    sizeKb: real,
    fileTypes: Counter,
    testCoverage: real)

  datatype FilteredData = FilteredData(
    repositories: seq<RepoInfo>,
    totalCommits: nat,
    commitDates: seq<string>)

  function Min(a: real, b: real): real {
    if a <= b then a else b
  }

  // ---------------------------------------------------------------------------
  // Count tables cut to their largest entries

  /** `dict(sorted(c.items(), key=count, reverse=True)[:n])`. */
  function TopCounts(c: Counter, n: nat): Counter {
    Take(SortDesc(c, CountKey), n)
  }

  /** The cut table holds at most `n` of the counter's entries, largest count first. */
  lemma TopCountsFacts(c: Counter, n: nat)
    requires DistinctKeys(c)
    ensures |TopCounts(c, n)| <= n
    ensures SortedDesc(TopCounts(c, n), CountKey) && DistinctKeys(TopCounts(c, n))
    ensures forall e :: e in TopCounts(c, n) ==> e in c
  {
    var s := SortDesc(c, CountKey);
    SortKeepsDistinct(c);
    TakeTop(s, CountKey, n);
    forall e | e in TopCounts(c, n) ensures e in c {
      assert e in multiset(s);
    }
  }

  /** An entry is cut only when `n` entries with counts at least as large were kept. */
  lemma TopCountsDrop(c: Counter, n: nat, e: Entry)
    requires e in c && e !in TopCounts(c, n)
    ensures |TopCounts(c, n)| == n
    ensures forall i :: 0 <= i < n ==> TopCounts(c, n)[i].count >= e.count
  {
    var s := SortDesc(c, CountKey);
    var r := TopCounts(c, n);
    assert e in multiset(s);
    var m :| 0 <= m < |s| && s[m] == e;
    assert m >= |r|;
    TakeTop(s, CountKey, n);
    assert forall i :: 0 <= i < |r| ==> CountKey(s[i]) >= CountKey(s[m]);
  }

  // ---------------------------------------------------------------------------
  // detect_libraries

  const Stdlib: seq<string> := ["sys", "os", "io", "re"]

  /** A library name survives the filter when it is longer than two characters and
      is not `sys`, `os`, `io` or `re`. */
  predicate KeepLibrary(k: string) {
    |k| > 2 && !OneOf(k, Stdlib)
  }

  /** `lib.split('.')[0]` for every imported module name. */
  function Bases(imports: seq<string>): (r: seq<string>)
    ensures |r| == |imports|
    ensures forall i :: 0 <= i < |imports| ==> r[i] == SplitOn(imports[i], '.')[0]
    decreases |imports|
  {
    if imports == [] then []
    else Bases(imports[..|imports| - 1]) + [SplitOn(imports[|imports| - 1], '.')[0]]
  }

  /** Each base name has no '.' and starts the imported name it comes from. */
  lemma BaseIsPrefix(imports: seq<string>, i: nat)
    requires i < |imports|
    ensures '.' !in Bases(imports)[i]
    ensures Bases(imports)[i] <= imports[i]
  {
    var s := imports[i];
    SplitJoin(s, '.');
    var k := IndexOf(s, '.');
    if k < |s| {
      assert SplitOn(s, '.')[0] == s[..k];
    }
  }

  /** Every name the counting loops count: the base of each import, then each package. */
  function LibraryNames(imports: seq<string>, packages: seq<string>): seq<string> {
    Bases(imports) + packages
  }

  /** The `{lib: count ... if ...}` filter, in the counter's order. */
  function KeepLibraries(c: Counter): (r: Counter)
    ensures forall e :: e in r <==> e in c && KeepLibrary(e.key)
    decreases |c|
  {
    if c == [] then []
    else
      var init, last := c[..|c| - 1], c[|c| - 1];
      assert c == init + [last];
      KeepLibraries(init) + (if KeepLibrary(last.key) then [last] else [])
  }

  lemma {:induction false} KeepDistinct(c: Counter)
    requires DistinctKeys(c)
    ensures DistinctKeys(KeepLibraries(c))
    decreases |c|
  {
    if c != [] {
      var init, last := c[..|c| - 1], c[|c| - 1];
      KeepDistinct(init);
      var r := KeepLibraries(c);
      var front := KeepLibraries(init);
      forall i, j | 0 <= i < j < |r| ensures r[i].key != r[j].key {
        if j >= |front| {
          assert r[i] in init;
          var m :| 0 <= m < |init| && init[m] == r[i];
          assert c[m] == r[i];
        }
      }
    }
  }

  /** What `detect_libraries` returns for the matched names. */
  function Libraries(imports: seq<string>, packages: seq<string>): Counter {
    TopCounts(KeepLibraries(TallyOf(LibraryNames(imports, packages))), 30)
  }

  /** At most 30 libraries, most frequent first, each name passing the filter and
      counted exactly as often as it was matched. */
  lemma LibrariesFacts(imports: seq<string>, packages: seq<string>)
    ensures |Libraries(imports, packages)| <= 30
    ensures SortedDesc(Libraries(imports, packages), CountKey)
    ensures DistinctKeys(Libraries(imports, packages))
    ensures forall i :: 0 <= i < |Libraries(imports, packages)| ==>
      var e := Libraries(imports, packages)[i];
      KeepLibrary(e.key) && e.count == multiset(LibraryNames(imports, packages))[e.key] > 0
  {
    var names := LibraryNames(imports, packages);
    var t := TallyOf(names);
    TallyCounts(names);
    KeepDistinct(t);
    var r := Libraries(imports, packages);
    TopCountsFacts(KeepLibraries(t), 30);
    forall i | 0 <= i < |r|
      ensures KeepLibrary(r[i].key) && r[i].count == multiset(names)[r[i].key] > 0
    {
      TallyEntry(names, r[i]);
    }
  }

  /** A name that passes the filter is missing only when 30 names at least as
      frequent were kept. */
  lemma LibrariesComplete(imports: seq<string>, packages: seq<string>, k: string)
    requires KeepLibrary(k) && k in LibraryNames(imports, packages)
    requires k !in Keys(Libraries(imports, packages))
    ensures |Libraries(imports, packages)| == 30
    ensures forall i :: 0 <= i < 30 ==>
      Libraries(imports, packages)[i].count >= multiset(LibraryNames(imports, packages))[k]
  {
    var names := LibraryNames(imports, packages);
    var t := TallyOf(names);
    TallyDistinct(names);
    var j :| 0 <= j < |t| && Keys(t)[j] == k;
    var e := t[j];
    TallyEntry(names, e);
    assert e in KeepLibraries(t);
    AbsentKey(Libraries(imports, packages), e);
    TopCountsDrop(KeepLibraries(t), 30, e);
  }

  /** Growing the prefix of `b` by one element. */
  lemma AppendPrefix<T>(a: seq<T>, b: seq<T>, j: nat)
    requires j <= |b|
    ensures a + b[..0] == a
    ensures j < |b| ==> a + b[..j + 1] == (a + b[..j]) + [b[j]]
  {
    if j < |b| {
      assert b[..j + 1] == b[..j] + [b[j]];
    }
  }

  /** An entry whose key a counter lacks is not among its entries. */
  lemma AbsentKey(r: Counter, e: Entry)
    requires e.key !in Keys(r)
    ensures e !in r
  {
    forall i | 0 <= i < |r| ensures r[i] != e {
      assert Keys(r)[i] == r[i].key;
    }
  }

  /** An entry of a tally holds its key's number of occurrences. */
  lemma TallyEntry(names: seq<string>, e: Entry)
    requires e in TallyOf(names)
    ensures e.count == multiset(names)[e.key] && e.key in names
  {
    TallyCounts(names);
    var j :| 0 <= j < |TallyOf(names)| && TallyOf(names)[j] == e;
    GetAt(TallyOf(names), j);
    assert Keys(TallyOf(names))[j] == e.key;
  }

  /** `detect_libraries` after matching: the two counting loops, then the filter,
      the sort and the cut to 30. */
  method DetectLibraries(imports: seq<string>, packages: seq<string>) returns (libraries: Counter)
    ensures libraries == Libraries(imports, packages)
  {
    var counts: Counter := [];
    for i := 0 to |imports|
      invariant counts == TallyOf(Bases(imports[..i]))
    {
      assert imports[..i + 1][..i] == imports[..i];
      counts := Bump(counts, SplitOn(imports[i], '.')[0], 1);
    }
    assert imports[..|imports|] == imports;
    AppendPrefix(Bases(imports), packages, 0);
    for j := 0 to |packages|
      invariant counts == TallyOf(Bases(imports) + packages[..j])
    {
      AppendPrefix(Bases(imports), packages, j);
      counts := Bump(counts, packages[j], 1);
    }
    assert packages[..|packages|] == packages;
    libraries := TopCounts(KeepLibraries(counts), 30);
  }

  // ---------------------------------------------------------------------------
  // analyze_file_types

  /** Every extension, lower-cased. */
  function Lowered(extensions: seq<string>): (r: seq<string>)
    ensures |r| == |extensions|
    ensures forall i :: 0 <= i < |extensions| ==> r[i] == Lower(extensions[i])
    decreases |extensions|
  {
    if extensions == [] then []
    else Lowered(extensions[..|extensions| - 1]) + [Lower(extensions[|extensions| - 1])]
  }

  /** What `analyze_file_types` returns for the matched extensions. */
  function FileTypes(extensions: seq<string>): Counter {
    TopCounts(TallyOf(Lowered(extensions)), 20)
  }

  /** At most 20 lower-case extensions, most frequent first, each counted as often as
      it occurs in any letter case. */
  lemma FileTypesFacts(extensions: seq<string>)
    ensures |FileTypes(extensions)| <= 20
    ensures SortedDesc(FileTypes(extensions), CountKey) && DistinctKeys(FileTypes(extensions))
    ensures forall i :: 0 <= i < |FileTypes(extensions)| ==>
      var e := FileTypes(extensions)[i];
      Lower(e.key) == e.key && e.count == multiset(Lowered(extensions))[e.key] > 0
  {
    var names := Lowered(extensions);
    TallyCounts(names);
    var r := FileTypes(extensions);
    TopCountsFacts(TallyOf(names), 20);
    forall i | 0 <= i < |r|
      ensures Lower(r[i].key) == r[i].key && r[i].count == multiset(names)[r[i].key] > 0
    {
      TallyEntry(names, r[i]);
      var m :| 0 <= m < |names| && names[m] == r[i].key;
      LowerIdempotent(extensions[m]);
    }
  }

  /** An extension is missing from the table only when 20 extensions at least as
      frequent were kept. */
  lemma FileTypesComplete(extensions: seq<string>, k: string)
    requires k in Lowered(extensions) && k !in Keys(FileTypes(extensions))
    ensures |FileTypes(extensions)| == 20
    ensures forall i :: 0 <= i < 20 ==> FileTypes(extensions)[i].count >= multiset(Lowered(extensions))[k]
  {
    var names := Lowered(extensions);
    var t := TallyOf(names);
    TallyCounts(names);
    var j :| 0 <= j < |t| && Keys(t)[j] == k;
    TallyEntry(names, t[j]);
    AbsentKey(FileTypes(extensions), t[j]);
    TopCountsDrop(t, 20, t[j]);
  }

  /** `analyze_file_types` after matching: the counting loop, the sort and the cut. */
  method AnalyzeFileTypes(extensions: seq<string>) returns (fileTypes: Counter)
    ensures fileTypes == FileTypes(extensions)
  {
    var counts: Counter := [];
    for i := 0 to |extensions|
      invariant counts == TallyOf(Lowered(extensions[..i]))
    {
      assert extensions[..i + 1][..i] == extensions[..i];
      counts := Bump(counts, Lower(extensions[i]), 1);
    }
    assert extensions[..|extensions|] == extensions;
    fileTypes := TopCounts(counts, 20);
  }

  // ---------------------------------------------------------------------------
  // parse_commits

  /** The commits made of the dates that parse, in order; a date that does not parse
      is skipped. */
  function Commits(dates: seq<string>, parse: string -> Option<real>): (r: seq<Commit>)
    ensures |r| <= |dates|
    ensures forall c :: c in r <==> c.date in dates && parse(c.date) == Some(c.timestamp)
    decreases |dates|
  {
    if dates == [] then []
    else
      var init, last := dates[..|dates| - 1], dates[|dates| - 1];
      assert dates == init + [last];
      Commits(init, parse) + (if parse(last).Some? then [Commit(last, parse(last).value)] else [])
  }

  /** `parse_commits`: the first 100 dates found, each kept with its timestamp when
      `datetime.fromisoformat` accepts it (`parse` stands for that call). */
  method ParseCommits(dates: seq<string>, parse: string -> Option<real>) returns (commits: seq<Commit>)
    ensures commits == Commits(Take(dates, 100), parse)
    ensures |commits| <= 100
  {
    var window := Take(dates, 100);
    commits := [];
    for i := 0 to |window|
      invariant commits == Commits(window[..i], parse)
    {
      assert window[..i + 1][..i] == window[..i];
      match parse(window[i]) {
        case Some(t) => commits := commits + [Commit(window[i], t)];
        case None =>
      }
    }
    assert window[..|window|] == window;
  }

  // ---------------------------------------------------------------------------
  // estimate_test_coverage

  /** The coverage estimate: 0 without code files, otherwise test matches per code
      file as a percentage, capped at 100. */
  function TestCoverage(testMatches: nat, codeFiles: nat): (r: real)
    ensures 0.0 <= r <= 100.0
    ensures r == 0.0 <==> codeFiles == 0 || testMatches == 0
    ensures codeFiles > 0 ==> (r == 100.0 <==> testMatches >= codeFiles)
  {
    if codeFiles == 0 then 0.0
    else
      var ratio := testMatches as real / codeFiles as real;
      assert testMatches >= codeFiles <==> ratio >= 1.0;
      Min(ratio * 100.0, 100.0)
  }

  // ---------------------------------------------------------------------------
  // analyze_single_repo and create_filtered_data

  /** The record `analyze_single_repo` returns for a repository with scan `s`. */
  function Analysis(name: string, content: string, s: Scan, parse: string -> Option<real>): RepoInfo {
    RepoInfo(
      name,
      s.languages,
      Libraries(s.imports, s.packages),
      s.frameworks,
      Commits(Take(s.dates, 100), parse),
      |content| as real / 1024.0,
      FileTypes(s.extensions),
      TestCoverage(s.testMatches, s.codeFiles))
  }

  /** The limits every analysed repository respects. */
  lemma AnalysisBounds(name: string, content: string, s: Scan, parse: string -> Option<real>)
    ensures var info := Analysis(name, content, s, parse);
      && info.name == name
      && |info.libraries| <= 30 && |info.fileTypes| <= 20 && |info.commits| <= 100
      && info.sizeKb * 1024.0 == |content| as real
      && 0.0 <= info.testCoverage <= 100.0
  {
    LibrariesFacts(s.imports, s.packages);
    FileTypesFacts(s.extensions);
  }

  /** `analyze_single_repo`; `scan` stands for the regular-expression matching. */
  method AnalyzeSingleRepo(name: string, content: string, scan: string -> Scan, parse: string -> Option<real>)
    returns (info: RepoInfo)
    ensures info == Analysis(name, content, scan(content), parse)
  {
    var s := scan(content);
    var libraries := DetectLibraries(s.imports, s.packages);
    var commits := ParseCommits(s.dates, parse);
    var fileTypes := AnalyzeFileTypes(s.extensions);
    var coverage := TestCoverage(s.testMatches, s.codeFiles);
    info := RepoInfo(name, s.languages, libraries, s.frameworks, commits, |content| as real / 1024.0, fileTypes, coverage);
  }

  /** The analysis of every parsed repository, in order. */
  function AnalyzedAll(repos: seq<DumpParser.Repo>, scan: string -> Scan, parse: string -> Option<real>): (r: seq<RepoInfo>)
    ensures |r| == |repos|
    decreases |repos|
  {
    if repos == [] then []
    else
      var last := repos[|repos| - 1];
      AnalyzedAll(repos[..|repos| - 1], scan, parse) + [Analysis(last.name, last.content, scan(last.content), parse)]
  }

  /** Each parsed repository is analysed on its own, in its place. */
  lemma {:induction false} AnalyzedAt(repos: seq<DumpParser.Repo>, scan: string -> Scan, parse: string -> Option<real>, i: nat)
    requires i < |repos|
    ensures AnalyzedAll(repos, scan, parse)[i] == Analysis(repos[i].name, repos[i].content, scan(repos[i].content), parse)
    decreases |repos|
  {
    if i < |repos| - 1 {
      AnalyzedAt(repos[..|repos| - 1], scan, parse, i);
    }
  }

  /** `all_commits`: every repository's commits, one repository after another. */
  function AllCommits(rs: seq<RepoInfo>): seq<Commit>
    decreases |rs|
  {
    if rs == [] then [] else AllCommits(rs[..|rs| - 1]) + rs[|rs| - 1].commits
  }

  lemma AnalyzedNext(repos: seq<DumpParser.Repo>, i: nat, scan: string -> Scan, parse: string -> Option<real>)
    requires i < |repos|
    ensures AnalyzedAll(repos[..i + 1], scan, parse)
      == AnalyzedAll(repos[..i], scan, parse) + [Analysis(repos[i].name, repos[i].content, scan(repos[i].content), parse)]
  {
    assert repos[..i + 1][..i] == repos[..i];
  }

  lemma AllCommitsSnoc(rs: seq<RepoInfo>, r: RepoInfo)
    ensures AllCommits(rs + [r]) == AllCommits(rs) + r.commits
  {
    assert (rs + [r])[..|rs|] == rs;
  }

  /** The sum of the per-repository commit counts. */
  function CommitCount(rs: seq<RepoInfo>): nat
    decreases |rs|
  {
    if rs == [] then 0 else |rs[0].commits| + CommitCount(rs[1..])
  }

  /** Collecting the commits loses none and adds none. */
  lemma {:induction false} AllCommitsCount(rs: seq<RepoInfo>)
    ensures |AllCommits(rs)| == CommitCount(rs)
    decreases |rs|
  {
    if rs != [] {
      AllCommitsCount(rs[..|rs| - 1]);
      CommitCountSnoc(rs[..|rs| - 1], rs[|rs| - 1]);
      assert rs[..|rs| - 1] + [rs[|rs| - 1]] == rs;
    }
  }

  lemma {:induction false} CommitCountSnoc(rs: seq<RepoInfo>, r: RepoInfo)
    ensures CommitCount(rs + [r]) == CommitCount(rs) + |r.commits|
    decreases |rs|
  {
    if rs != [] {
      assert (rs + [r])[1..] == rs[1..] + [r];
      CommitCountSnoc(rs[1..], r);
    }
  }

  /** `[c['date'] for c in all_commits if c.get('date')]`. */
  function Dates(cs: seq<Commit>): (r: seq<string>)
    ensures forall d :: d in r <==> d != [] && exists c :: c in cs && c.date == d
    decreases |cs|
  {
    if cs == [] then []
    else
      var init, last := cs[..|cs| - 1], cs[|cs| - 1];
      assert cs == init + [last];
      Dates(init) + (if last.date != [] then [last.date] else [])
  }

  /** The filtered data of the parsed repositories. */
  function Filtered(repos: seq<DumpParser.Repo>, scan: string -> Scan, parse: string -> Option<real>): FilteredData {
    var rs := AnalyzedAll(repos, scan, parse);
    FilteredData(rs, |AllCommits(rs)|, SortStrings(Dates(AllCommits(rs))))
  }

  /** `total_commits` is the sum of the repositories' commit counts, and
      `commit_dates` is the one ascending arrangement of the dated commits' dates. */
  lemma FilteredFacts(repos: seq<DumpParser.Repo>, scan: string -> Scan, parse: string -> Option<real>)
    ensures var f := Filtered(repos, scan, parse);
      && |f.repositories| == |repos|
      && f.totalCommits == CommitCount(f.repositories)
      && Ascending(f.commitDates)
      && multiset(f.commitDates) == multiset(Dates(AllCommits(f.repositories)))
    ensures forall ds :: Ascending(ds) && multiset(ds) == multiset(Dates(AllCommits(AnalyzedAll(repos, scan, parse)))) ==>
      ds == Filtered(repos, scan, parse).commitDates
  {
    var rs := AnalyzedAll(repos, scan, parse);
    AllCommitsCount(rs);
    SortStringsAscending(Dates(AllCommits(rs)));
    forall ds | Ascending(ds) && multiset(ds) == multiset(Dates(AllCommits(rs)))
      ensures ds == SortStrings(Dates(AllCommits(rs)))
    {
      AscendingUnique(ds, SortStrings(Dates(AllCommits(rs))));
    }
  }

  /** `create_filtered_data`: analyses the repositories in order, collecting their
      commits, then counts the commits and sorts their dates. */
  method CreateFilteredData(repos: seq<DumpParser.Repo>, scan: string -> Scan, parse: string -> Option<real>)
    returns (data: FilteredData)
    ensures data == Filtered(repos, scan, parse)
  {
    var repositories: seq<RepoInfo> := [];
    var allCommits: seq<Commit> := [];
    for i := 0 to |repos|
      invariant repositories == AnalyzedAll(repos[..i], scan, parse)
      invariant allCommits == AllCommits(repositories)
    {
      var info := AnalyzeSingleRepo(repos[i].name, repos[i].content, scan, parse);
      AnalyzedNext(repos, i, scan, parse);
      AllCommitsSnoc(repositories, info);
      repositories := repositories + [info];
      allCommits := allCommits + info.commits;
    }
    assert repos[..|repos|] == repos;
    data := FilteredData(repositories, |allCommits|, SortStrings(Dates(allCommits)));
  }
}

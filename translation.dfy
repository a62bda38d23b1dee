/** The second translator of the filtered data, `DeveloperProfile1`: it aggregates
    a loaded document's repositories into languages, libraries, frameworks,
    technical depth, composition, six skill scores and quality. Scores are exact
    reals; `round` is not applied. */
module Translation {
  import opened Text
  import opened Tally
  import opened RepoFetch
  import Filtering
  import Profile

  /** The shapes a repository's `languages` entry can take: a dictionary of counts,
      a list of names, or anything else. */
  datatype LanguageField = Counts(counts: Counter) | Names(names: seq<string>) | Unrecognised

  /** One entry of `repositories` as the translator reads it. */
  datatype RepoRecord = RepoRecord(
    languages: LanguageField,
    libraries: Counter,
    frameworks: seq<string>,
    sizeKb: real,
    fileTypes: Counter,
    testCoverage: real)

  /** The loaded filtered data. */
  datatype Document = Document(repositories: seq<RepoRecord>, totalCommits: nat)

  /** `analytical_depth`'s two shapes: with no repositories the dictionary has the
      key `avg_repo_size_kb` and no maximum; otherwise `avg_repo_size` and
      `max_repo_size`. */
  datatype DepthReport =
    | NoRepositories(depthScore: real, avgRepoSizeKb: real, level: string)
    | Measured(depthScore: real, avgRepoSize: real, maxRepoSize: real, level: string)

  datatype QualityReport = QualityReport(avgTestCoverage: real, qualityScore: real, rating: string)

  /** The profile `translate` returns; `frameworks` is `None` when nothing was
      returned for it. */
  datatype Summary = Summary(
    languages: seq<Profile.Share>,
    libraries: Counter,
    frameworks: Option<Counter>,
    technicalDepth: DepthReport,
    composition: Profile.Composition,
    skills: seq<Profile.Share>,
    quality: QualityReport,
    metadata: Profile.Metadata)

  // ---------------------------------------------------------------------------
  // language_aggregation

  /** A list of names as counts of 1, one per entry. */
  function Ones(names: seq<string>): (r: seq<Entry>)
    ensures |r| == |names| && forall i :: 0 <= i < |names| ==> r[i] == Entry(names[i], 1)
    decreases |names|
  {
    if names == [] then [] else Ones(names[..|names| - 1]) + [Entry(names[|names| - 1], 1)]
  }

  /** What one repository's `languages` entry adds, entry by entry. */
  function Contribution(f: LanguageField): seq<Entry> {
    match f
    case Counts(c) => c
    case Names(ns) => Ones(ns)
    case Unrecognised => []
  }

  function Contributions(rs: seq<RepoRecord>): seq<Entry>
    decreases |rs|
  {
    if rs == [] then [] else Contributions(rs[..|rs| - 1]) + Contribution(rs[|rs| - 1].languages)
  }

  /** `count_lang` after the loop. */
  function LanguageCounts(rs: seq<RepoRecord>): Counter {
    AddAll([], Contributions(rs))
  }

  /** The result of `language_aggregation`. */
  function LanguageShares(rs: seq<RepoRecord>): seq<Profile.Share> {
    var counts := LanguageCounts(rs);
    var total := Total(counts);
    if total == 0 then [] else Profile.Percentages(counts, total)
  }

  /** How much one `languages` entry adds to a language: its count in a dictionary,
      its number of occurrences in a list, nothing otherwise. */
  function Weight(f: LanguageField, k: string): int {
    match f
    case Counts(c) => Get(c, k)
    case Names(ns) => multiset(ns)[k]
    case Unrecognised => 0
  }

  /** A `languages` entry names the language. */
  predicate Mentions(f: LanguageField, k: string) {
    match f
    case Counts(c) => k in Keys(c)
    case Names(ns) => k in ns
    case Unrecognised => false
  }

  function TotalWeight(rs: seq<RepoRecord>, k: string): int
    decreases |rs|
  {
    if rs == [] then 0 else TotalWeight(rs[..|rs| - 1], k) + Weight(rs[|rs| - 1].languages, k)
  }

  /** Dictionaries have no repeated key. */
  predicate WellFormed(rs: seq<RepoRecord>) {
    forall i :: 0 <= i < |rs| ==> rs[i].languages.Counts? ==> DistinctKeys(rs[i].languages.counts)
  }

  lemma {:induction false} OnesSum(names: seq<string>, k: string)
    ensures SumFor(Ones(names), k) == multiset(names)[k]
    decreases |names|
  {
    if names != [] {
      var init, last := names[..|names| - 1], names[|names| - 1];
      OnesSum(init, k);
      assert Ones(names)[..|names| - 1] == Ones(init);
      assert names == init + [last];
    }
  }

  lemma ContributionWeight(f: LanguageField, k: string)
    requires f.Counts? ==> DistinctKeys(f.counts)
    ensures SumFor(Contribution(f), k) == Weight(f, k)
    ensures k in Keys(Contribution(f)) <==> Mentions(f, k)
  {
    match f
    case Counts(c) =>
      SumForDistinct(c, k);
    case Names(ns) =>
      OnesSum(ns, k);
      assert Keys(Ones(ns)) == ns;
    case Unrecognised =>
  }

  lemma {:induction false} ContributionsWeight(rs: seq<RepoRecord>, k: string)
    requires WellFormed(rs)
    ensures SumFor(Contributions(rs), k) == TotalWeight(rs, k)
    decreases |rs|
  {
    if rs != [] {
      var init, last := rs[..|rs| - 1], rs[|rs| - 1];
      ContributionsWeight(init, k);
      SumForAppend(Contributions(init), Contribution(last.languages), k);
      ContributionWeight(last.languages, k);
    }
  }

  /** Some repository's `languages` entry names the language. */
  predicate MentionedIn(rs: seq<RepoRecord>, k: string) {
    exists i :: 0 <= i < |rs| && Mentions(rs[i].languages, k)
  }

  lemma {:induction false} ContributionsKeys(rs: seq<RepoRecord>, k: string)
    ensures k in Keys(Contributions(rs)) <==> MentionedIn(rs, k)
    decreases |rs|
  {
    if rs != [] {
      var init, last := rs[..|rs| - 1], rs[|rs| - 1];
      ContributionsKeys(init, k);
      KeysAppend(Contributions(init), Contribution(last.languages));
      MentionKeys(last.languages, k);
      if MentionedIn(init, k) {
        var i :| 0 <= i < |init| && Mentions(init[i].languages, k);
        assert rs[i] == init[i];
      }
      if MentionedIn(rs, k) {
        var i :| 0 <= i < |rs| && Mentions(rs[i].languages, k);
        if i < |init| {
          assert init[i] == rs[i];
          assert MentionedIn(init, k);
        }
      }
    }
  }

  lemma MentionKeys(f: LanguageField, k: string)
    ensures k in Keys(Contribution(f)) <==> Mentions(f, k)
  {
    if f.Names? {
      assert Keys(Ones(f.names)) == f.names;
    }
  }

  /** Dictionary-shaped `languages` add their counts and list-shaped ones 1 per
      entry, other shapes nothing; every language any repository names is a key. */
  lemma LanguageCountsFacts(rs: seq<RepoRecord>, k: string)
    requires WellFormed(rs)
    ensures DistinctKeys(LanguageCounts(rs))
    ensures Get(LanguageCounts(rs), k) == TotalWeight(rs, k)
    ensures k in Keys(LanguageCounts(rs)) <==> MentionedIn(rs, k)
  {
    AddAllDistinct([], Contributions(rs));
    AddAllKeys([], Contributions(rs), k);
    AddAllGet([], Contributions(rs), k);
    ContributionsWeight(rs, k);
    ContributionsKeys(rs, k);
  }

  /** The result is `{}` exactly when the total count is 0; otherwise it lists every
      counted language in order and the percentages add up to 100. */
  lemma LanguageSharesFacts(rs: seq<RepoRecord>)
    ensures LanguageShares(rs) == [] <==> Total(LanguageCounts(rs)) == 0
    ensures Total(LanguageCounts(rs)) != 0 ==>
      && |LanguageShares(rs)| == |LanguageCounts(rs)|
      && (forall i :: 0 <= i < |LanguageShares(rs)| ==> LanguageShares(rs)[i].key == LanguageCounts(rs)[i].key)
      && Profile.SumShares(LanguageShares(rs)) == 100.0
  {
    var counts := LanguageCounts(rs);
    var total := Total(counts);
    if total != 0 {
      assert counts != [];
      Profile.PercentagesSum(counts, total);
      Profile.PercentOfWhole(total as real);
    }
  }

  // ---------------------------------------------------------------------------
  // library_aggregation and framework_aggregation

  /** Every repository's library names (the keys of its `libraries`). */
  function KeyLists(rs: seq<RepoRecord>): (r: seq<seq<string>>)
    ensures |r| == |rs| && forall i :: 0 <= i < |rs| ==> r[i] == Keys(rs[i].libraries)
  {
    seq(|rs|, i requires 0 <= i < |rs| => Keys(rs[i].libraries))
  }

  function LibraryTables(rs: seq<RepoRecord>): (r: seq<Counter>)
    ensures |r| == |rs| && forall i :: 0 <= i < |rs| ==> r[i] == rs[i].libraries
  {
    seq(|rs|, i requires 0 <= i < |rs| => rs[i].libraries)
  }

  function FrameworkLists(rs: seq<RepoRecord>): (r: seq<seq<string>>)
    ensures |r| == |rs| && forall i :: 0 <= i < |rs| ==> r[i] == rs[i].frameworks
  {
    seq(|rs|, i requires 0 <= i < |rs| => rs[i].frameworks)
  }

  /** `library_aggregation` maps each library to the number of repositories that
      list it, largest first, and lists every library of every repository. */
  lemma LibraryCountsFacts(rs: seq<RepoRecord>)
    requires forall i :: 0 <= i < |rs| ==> DistinctKeys(rs[i].libraries)
    ensures var r := Profile.ListingTotals(KeyLists(rs));
      && SortedDesc(r, CountKey) && DistinctKeys(r)
      && (forall e :: e in r ==> e.count == Profile.Listing(KeyLists(rs), e.key) > 0)
      && (forall k :: k in Profile.Concat(KeyLists(rs)) ==> Entry(k, Profile.Listing(KeyLists(rs), k)) in r)
  {
    var lists := KeyLists(rs);
    Profile.ListingTotalsOrder(lists);
    forall e | e in Profile.ListingTotals(lists) ensures e.count == Profile.Listing(lists, e.key) > 0 {
      Profile.ListingTotalEntry(lists, e);
    }
    forall k | k in Profile.Concat(lists) ensures Entry(k, Profile.Listing(lists, k)) in Profile.ListingTotals(lists) {
      Profile.ListingTotalFound(lists, k);
    }
  }

  /** The corrected `framework_aggregation` maps each framework to the number of
      repositories that list it, largest first, and lists every framework. */
  lemma FrameworkCountsFacts(rs: seq<RepoRecord>)
    requires forall i :: 0 <= i < |rs| ==> Profile.NoDuplicates(rs[i].frameworks)
    ensures var r := Profile.ListingTotals(FrameworkLists(rs));
      && SortedDesc(r, CountKey) && DistinctKeys(r)
      && (forall e :: e in r ==> e.count == Profile.Listing(FrameworkLists(rs), e.key) > 0)
      && (forall k :: k in Profile.Concat(FrameworkLists(rs)) ==> Entry(k, Profile.Listing(FrameworkLists(rs), k)) in r)
  {
    var lists := FrameworkLists(rs);
    Profile.ListingTotalsOrder(lists);
    forall e | e in Profile.ListingTotals(lists) ensures e.count == Profile.Listing(lists, e.key) > 0 {
      Profile.ListingTotalEntry(lists, e);
    }
    forall k | k in Profile.Concat(lists) ensures Entry(k, Profile.Listing(lists, k)) in Profile.ListingTotals(lists) {
      Profile.ListingTotalFound(lists, k);
    }
  }

  /** What `framework_aggregation` computes and then drops, for one repository that
      lists `flask`: a non-empty count table. */
  lemma FrameworkCountsDropped()
    ensures Profile.ListingTotals(FrameworkLists([RepoRecord(Unrecognised, [], ["flask"], 0.0, [], 0.0)])) == [Entry("flask", 1)]
  {
    var rs := [RepoRecord(Unrecognised, [], ["flask"], 0.0, [], 0.0)];
    assert FrameworkLists(rs) == [["flask"]];
    assert Profile.Concat([["flask"]]) == Profile.Concat([]) + ["flask"];
  }

  // ---------------------------------------------------------------------------
  // analytical_depth

  function Sizes(rs: seq<RepoRecord>): (r: seq<real>)
    ensures |r| == |rs| && forall i :: 0 <= i < |rs| ==> r[i] == rs[i].sizeKb
  {
    seq(|rs|, i requires 0 <= i < |rs| => rs[i].sizeKb)
  }

  /** The result of `analytical_depth`. */
  function Depth(rs: seq<RepoRecord>): DepthReport {
    if rs == [] then NoRepositories(0.0, 0.0, "beginner")
    else
      var sizes := Sizes(rs);
      var avg := Profile.Mean(sizes);
      var score := Filtering.Min(avg / 500.0, 1.0);
      Measured(score, avg, Profile.MaxOf(sizes), Profile.DepthLevel(score))
  }

  /** No repositories give depth 0 and level beginner; otherwise, for sizes that are
      not negative, the score lies in [0, 1], the average does not exceed the
      maximum, and the level follows the score's band. */
  lemma DepthFacts(rs: seq<RepoRecord>)
    requires forall i :: 0 <= i < |rs| ==> rs[i].sizeKb >= 0.0
    ensures rs == [] ==> Depth(rs) == NoRepositories(0.0, 0.0, "beginner")
    ensures rs != [] ==> var d := Depth(rs);
      && d.Measured?
      && 0.0 <= d.depthScore <= 1.0
      && 0.0 <= d.avgRepoSize <= d.maxRepoSize
      && (d.level == "advanced" <==> d.depthScore > 0.7)
      && (d.level == "intermediate" <==> 0.4 < d.depthScore <= 0.7)
      && (d.level == "beginner" <==> d.depthScore <= 0.4)
  {
    if rs != [] {
      Profile.MeanBounds(Sizes(rs), 0.0, Profile.MaxOf(Sizes(rs)));
    }
  }

  // ---------------------------------------------------------------------------
  // composition

  const FrontendTypes: seq<string> := ["html", "css", "scss", "sass", "jsx", "tsx", "vue"]
  const BackendTypes: seq<string> := ["py", "java", "go", "rs", "rb", "php", "js", "ts"]
  const DataTypes: seq<string> := ["sql", "csv", "json", "xml", "parquet", "db"]

  /** Each count divided by their sum, or all 0 when the sum is exactly 0. */
  function Split(front: int, back: int, data: int): Profile.Composition {
    var total := front + back + data;
    if total == 0 then Profile.Composition(0.0, 0.0, 0.0)
    else Profile.Composition(front as real / total as real, back as real / total as real, data as real / total as real)
  }

  /** This rule agrees with `create_translated_data`'s (which divides only when the
      sum is positive) exactly when the sum is not negative. */
  lemma SplitAgrees(front: int, back: int, data: int)
    ensures Split(front, back, data) == Profile.Shares(front, back, data) <==> front + back + data >= 0
  {
    var t := front + back + data;
    if t < 0 {
      if front != 0 {
        assert front as real / t as real != 0.0;
      } else if back != 0 {
        assert back as real / t as real != 0.0;
      } else {
        assert data as real / t as real != 0.0;
      }
    }
  }

  function FileTypeTables(rs: seq<RepoRecord>): (r: seq<Counter>)
    ensures |r| == |rs| && forall i :: 0 <= i < |rs| ==> r[i] == rs[i].fileTypes
  {
    seq(|rs|, i requires 0 <= i < |rs| => rs[i].fileTypes)
  }

  /** The result of `composition`. */
  function CompositionOf(rs: seq<RepoRecord>): Profile.Composition {
    var es := Profile.Flatten(FileTypeTables(rs));
    Split(Profile.CategoryTotal(es, FrontendTypes), Profile.CategoryTotal(es, BackendTypes), Profile.CategoryTotal(es, DataTypes))
  }

  /** With counts that are not negative, the shares are all 0 when no file type
      matches, and otherwise each lies in [0, 1] and they add up to 1. */
  lemma CompositionFacts(rs: seq<RepoRecord>)
    requires forall i :: 0 <= i < |rs| ==> Profile.NonNegative(rs[i].fileTypes)
    ensures var c := CompositionOf(rs);
      && 0.0 <= c.frontend <= 1.0 && 0.0 <= c.backend <= 1.0 && 0.0 <= c.data <= 1.0
      && (c.frontend + c.backend + c.data == 1.0 || c == Profile.Composition(0.0, 0.0, 0.0))
  {
    var es := Profile.Flatten(FileTypeTables(rs));
    var f, b, d := Profile.CategoryTotal(es, FrontendTypes), Profile.CategoryTotal(es, BackendTypes), Profile.CategoryTotal(es, DataTypes);
    Profile.FlattenNonNegative(FileTypeTables(rs));
    Profile.CategoryNonNegative(es, FrontendTypes);
    Profile.CategoryNonNegative(es, BackendTypes);
    Profile.CategoryNonNegative(es, DataTypes);
    SplitAgrees(f, b, d);
    Profile.SharesFacts(f, b, d);
  }

  // ---------------------------------------------------------------------------
  // skills

  /** The six skill areas with their indicator names, in the order they are scored. */
  const SkillAreas: seq<(string, seq<string>)> := [
    ("ai_ml", ["tensorflow", "pytorch", "keras", "sklearn", "scikit-learn", "pandas", "numpy", "scipy", "transformers", "langchain"]),
    ("web_development", ["react", "vue", "angular", "express", "django", "flask", "fastapi", "nextjs", "nestjs", "rails"]),
    ("mobile_development", ["react-native", "flutter", "swift", "kotlin", "ionic"]),
    ("cloud_devops", ["docker", "kubernetes", "terraform", "aws", "azure", "gcp", "ansible", "jenkins", "github-actions"]),
    ("data_engineering", ["spark", "hadoop", "airflow", "kafka", "dask", "beam"]),
    ("cybersecurity", ["cryptography", "pycrypto", "requests", "scapy", "nmap"])
  ]

  /** The result of `skills`: every area's share of indicators among `combined`. */
  function SkillScores(combined: set<string>): (r: seq<Profile.Share>)
    ensures |r| == |SkillAreas|
  {
    seq(|SkillAreas|, j requires 0 <= j < |SkillAreas| => Profile.Share(SkillAreas[j].0, Profile.Ratio(SkillAreas[j].1, combined)))
  }

  /** Every score lies in [0, 1]; it is above 0 exactly when one of its indicators
      is present, and 1 exactly when all are. */
  lemma SkillScoresFacts(combined: set<string>, j: nat)
    requires j < |SkillAreas|
    ensures var s := SkillScores(combined)[j];
      var indicators := SkillAreas[j].1;
      && s.key == SkillAreas[j].0
      && 0.0 <= s.value <= 1.0
      && (s.value > 0.0 <==> exists i :: 0 <= i < |indicators| && indicators[i] in combined)
      && (s.value == 1.0 <==> forall i :: 0 <= i < |indicators| ==> indicators[i] in combined)
  {
    assert |SkillAreas[j].1| > 0;
    Profile.RatioExact(SkillAreas[j].1, combined);
  }

  // ---------------------------------------------------------------------------
  // quality

  function Coverages(rs: seq<RepoRecord>): (r: seq<real>)
    ensures |r| == |rs| && forall i :: 0 <= i < |rs| ==> r[i] == rs[i].testCoverage
  {
    seq(|rs|, i requires 0 <= i < |rs| => rs[i].testCoverage)
  }

  /** Excellent above 70, good above 40, fair above 20, otherwise "needs improvement". */
  function Rating(avgCoverage: real): string {
    if avgCoverage > 70.0 then "excellent"
    else if avgCoverage > 40.0 then "good"
    else if avgCoverage > 20.0 then "fair"
    else "needs improvement"
  }

  /** The result of `quality`. */
  function Quality(rs: seq<RepoRecord>): QualityReport {
    if rs == [] then QualityReport(0.0, 0.0, "unknown")
    else
      var avg := Profile.Mean(Coverages(rs));
      QualityReport(avg, Filtering.Min(avg / 100.0, 1.0), Rating(avg))
  }

  /** No repositories give rating "unknown" and score 0; otherwise, for coverages in
      [0, 100], the score is the average over 100, lies in [0, 1], and the rating
      follows the average's band. */
  lemma QualityFacts(rs: seq<RepoRecord>)
    requires forall i :: 0 <= i < |rs| ==> 0.0 <= rs[i].testCoverage <= 100.0
    ensures rs == [] ==> Quality(rs) == QualityReport(0.0, 0.0, "unknown")
    ensures rs != [] ==> var q := Quality(rs);
      && 0.0 <= q.avgTestCoverage <= 100.0
      && 0.0 <= q.qualityScore <= 1.0
      && q.qualityScore * 100.0 == q.avgTestCoverage
      && (q.rating == "excellent" <==> q.avgTestCoverage > 70.0)
      && (q.rating == "good" <==> 40.0 < q.avgTestCoverage <= 70.0)
      && (q.rating == "fair" <==> 20.0 < q.avgTestCoverage <= 40.0)
      && (q.rating == "needs improvement" <==> q.avgTestCoverage <= 20.0)
  {
    if rs != [] {
      Profile.MeanBounds(Coverages(rs), 0.0, 100.0);
    }
  }

  // ---------------------------------------------------------------------------
  // translate

  /** The profile `translate` builds for a document, with the given `frameworks`
      entry; `now` is the analysis timestamp. */
  function Assembled(document: Document, frameworks: Option<Counter>, now: string): Summary {
    var rs := document.repositories;
    Summary(
      LanguageShares(rs),
      Profile.ListingTotals(KeyLists(rs)),
      frameworks,
      Depth(rs),
      CompositionOf(rs),
      SkillScores(Profile.LibraryNamesOf(LibraryTables(rs)) + Profile.FrameworkNamesOf(FrameworkLists(rs))),
      Quality(rs),
      Profile.Metadata(|rs|, document.totalCommits, now))
  }

  /** The profile of a document as `translate` is written: `framework_aggregation`
      returns nothing, so `frameworks` is `None`. */
  function SummaryOf(document: Document, now: string): Summary {
    Assembled(document, None, now)
  }

  /** The profile of a document when `framework_aggregation` returns its counts. */
  function CorrectedSummaryOf(document: Document, now: string): Summary {
    Assembled(document, Some(Profile.ListingTotals(FrameworkLists(document.repositories))), now)
  }

  /** As written, the profile carries no framework counts. The corrected profile
      differs from it in that entry alone, which counts, largest first, the
      repositories listing each framework, and leaves out no listed framework. */
  lemma SummaryFrameworks(document: Document, now: string)
    requires forall i :: 0 <= i < |document.repositories| ==> Profile.NoDuplicates(document.repositories[i].frameworks)
    ensures SummaryOf(document, now).frameworks == None
    ensures CorrectedSummaryOf(document, now).(frameworks := None) == SummaryOf(document, now)
    ensures var lists := FrameworkLists(document.repositories);
      var f := CorrectedSummaryOf(document, now).frameworks;
      && f.Some? && SortedDesc(f.value, CountKey) && DistinctKeys(f.value)
      && (forall e :: e in f.value ==> e.count == Profile.Listing(lists, e.key) > 0)
      && (forall k :: k in Profile.Concat(lists) ==> Entry(k, Profile.Listing(lists, k)) in f.value)
  {
    FrameworkCountsFacts(document.repositories);
  }

  lemma ContributionsNext(rs: seq<RepoRecord>, i: nat)
    requires i < |rs|
    ensures Contributions(rs[..i + 1]) == Contributions(rs[..i]) + Contribution(rs[i].languages)
  {
    assert rs[..i + 1][..i] == rs[..i];
  }

  /** `for lang, count in repo['languages'].items(): count_lang[lang] += int(count)`. */
  method AddCounts(counts: Counter, ghost done: seq<Entry>, c: Counter) returns (r: Counter)
    requires counts == AddAll([], done)
    ensures r == AddAll([], done + c)
  {
    r := counts;
    Filtering.AppendPrefix(done, c, 0);
    for j := 0 to |c|
      invariant r == AddAll([], done + c[..j])
    {
      Filtering.AppendPrefix(done, c, j);
      Profile.AddAllSnoc([], done + c[..j], c[j]);
      r := Bump(r, c[j].key, c[j].count);
    }
    assert c[..|c|] == c;
  }

  /** `for lang in repo['languages']: count_lang[lang] += 1`. */
  method AddNames(counts: Counter, ghost done: seq<Entry>, ns: seq<string>) returns (r: Counter)
    requires counts == AddAll([], done)
    ensures r == AddAll([], done + Ones(ns))
  {
    r := counts;
    var ones := Ones(ns);
    Filtering.AppendPrefix(done, ones, 0);
    for j := 0 to |ns|
      invariant r == AddAll([], done + ones[..j])
    {
      Filtering.AppendPrefix(done, ones, j);
      Profile.AddAllSnoc([], done + ones[..j], ones[j]);
      r := Bump(r, ns[j], 1);
    }
    assert ones[..|ns|] == ones;
  }

  /** `DeveloperProfile1`: the file to read and, once read, its data. */
  class DeveloperProfile {
    var filteredFile: string
    var data: Option<Document>

    constructor (filteredFile: string)
      ensures this.filteredFile == filteredFile && data == None
    {
      this.filteredFile := filteredFile;
      data := None;
    }

    /** `load_filtereddata`, with the decoded contents of the file given. */
    method LoadFilteredData(document: Document)
      modifies this
      ensures data == Some(document) && filteredFile == old(filteredFile)
    {
      data := Some(document);
    }

    /** `language_aggregation`. */
    method LanguageAggregation() returns (shares: seq<Profile.Share>)
      requires data.Some?
      ensures shares == LanguageShares(data.value.repositories)
    {
      var rs := data.value.repositories;
      var counts: Counter := [];
      for i := 0 to |rs|
        invariant counts == AddAll([], Contributions(rs[..i]))
      {
        ContributionsNext(rs, i);
        match rs[i].languages {
          case Counts(c) =>
            counts := AddCounts(counts, Contributions(rs[..i]), c);
          case Names(ns) =>
            counts := AddNames(counts, Contributions(rs[..i]), ns);
          case Unrecognised =>
            assert Contributions(rs[..i]) + [] == Contributions(rs[..i]);
        }
      }
      assert rs[..|rs|] == rs;
      var total := Total(counts);
      if total == 0 {
        shares := [];
      } else {
        shares := Profile.Percentages(counts, total);
      }
    }

    /** `library_aggregation`. */
    method LibraryAggregation() returns (libraries: Counter)
      requires data.Some?
      ensures libraries == Profile.ListingTotals(KeyLists(data.value.repositories))
    {
      var counts := Profile.CountListings(KeyLists(data.value.repositories));
      libraries := SortDesc(counts, CountKey);
    }

    /** `framework_aggregation` as written: the counts are computed and sorted, and
        then nothing is returned. */
    method FrameworkAggregationAsWritten() returns (frameworks: Option<Counter>)
      requires data.Some?
      ensures frameworks == None
    {
      var counts := Profile.CountListings(FrameworkLists(data.value.repositories));
      var sorted := SortDesc(counts, CountKey);
      frameworks := None;
    }

    /** `framework_aggregation` returning the sorted counts it computes. */
    method FrameworkAggregation() returns (frameworks: Counter)
      requires data.Some?
      ensures frameworks == Profile.ListingTotals(FrameworkLists(data.value.repositories))
    {
      var counts := Profile.CountListings(FrameworkLists(data.value.repositories));
      frameworks := SortDesc(counts, CountKey);
    }

    /** `composition`. */
    method Composition() returns (composition: Profile.Composition)
      requires data.Some?
      ensures composition == CompositionOf(data.value.repositories)
    {
      var front, back, dataFiles := Profile.CategoryCounts(FileTypeTables(data.value.repositories), FrontendTypes, BackendTypes, DataTypes);
      composition := Split(front, back, dataFiles);
    }

    /** `skills`. */
    method Skills() returns (skills: seq<Profile.Share>)
      requires data.Some?
      ensures skills == SkillScores(Profile.LibraryNamesOf(LibraryTables(data.value.repositories))
        + Profile.FrameworkNamesOf(FrameworkLists(data.value.repositories)))
    {
      var rs := data.value.repositories;
      var combined := Profile.CollectNames(LibraryTables(rs), FrameworkLists(rs));
      skills := SkillScores(combined);
    }

    /** `translate`: loads the document, then assembles the profile; the
        `frameworks` entry is what `framework_aggregation` returns, `None`. */
    method Translate(document: Document, now: string) returns (summary: Summary)
      modifies this
      ensures data == Some(document) && filteredFile == old(filteredFile)
      ensures summary == SummaryOf(document, now) && summary.frameworks == None
    {
      LoadFilteredData(document);
      var languages := LanguageAggregation();
      var libraries := LibraryAggregation();
      var frameworks := FrameworkAggregationAsWritten();
      var composition := Composition();
      var skills := Skills();
      var rs := document.repositories;
      summary := Summary(
        languages, libraries, frameworks, Depth(rs), composition, skills, Quality(rs),
        Profile.Metadata(|rs|, document.totalCommits, now));
    }

    /** `translate` with the corrected `framework_aggregation`. */
    method TranslateCorrected(document: Document, now: string) returns (summary: Summary)
      modifies this
      ensures data == Some(document) && filteredFile == old(filteredFile)
      ensures summary == CorrectedSummaryOf(document, now)
    {
      LoadFilteredData(document);
      var languages := LanguageAggregation();
      var libraries := LibraryAggregation();
      var frameworks := FrameworkAggregation();
      var composition := Composition();
      var skills := Skills();
      var rs := document.repositories;
      summary := Summary(
        languages, libraries, Some(frameworks), Depth(rs), composition, skills, Quality(rs),
        Profile.Metadata(|rs|, document.totalCommits, now));
    }
  }
}

/** The developer profile `create_translated_data` derives from the filtered data:
    language shares, library and framework counts, commit habits, technical depth,
    file-type composition, skill ratios and test quality. Scores are exact reals;
    `round` is not applied. */
module Profile {
  import opened Text
  import opened Tally
  import opened RepoFetch
  import opened Filtering
  import DumpParser

  /** A name with a score: one entry of the `languages` or `skills` map. */
  datatype Share = Share(key: string, value: real)

  datatype Habits = Habits(frequency: real, consistency: real, avgCommitSizeKb: real, commitPattern: string)

  datatype Depth = Depth(depthScore: real, avgRepoSizeKb: real, maxRepoSizeKb: real, level: string)

  datatype Composition = Composition(frontend: real, backend: real, data: real)

  datatype Quality = Quality(avgTestCoverage: real, qualityScore: real, rating: string)

  datatype Metadata = Metadata(totalRepositories: nat, totalCommits: nat, analysisTimestamp: string)

  /** The translated data. */
  datatype Translated = Translated(
    languages: seq<Share>,
    libraries: Counter,
    frameworks: Counter,
    habits: Habits,
    technicalDepth: Depth,
    composition: Composition,
    skills: seq<Share>,
    quality: Quality,
    metadata: Metadata)

  // ---------------------------------------------------------------------------
  // Sums of per-repository count tables

  /** All the tables' entries, one table after another. */
  function Flatten(tables: seq<Counter>): seq<Entry>
    decreases |tables|
  {
    if tables == [] then [] else Flatten(tables[..|tables| - 1]) + tables[|tables| - 1]
  }

  /** The value of one key, added up over all tables. */
  function SumOfGets(tables: seq<Counter>, k: string): int
    decreases |tables|
  {
    if tables == [] then 0 else SumOfGets(tables[..|tables| - 1], k) + Get(tables[|tables| - 1], k)
  }

  /** A key occurs in some table. */
  predicate InSomeTable(tables: seq<Counter>, k: string) {
    exists i :: 0 <= i < |tables| && k in Keys(tables[i])
  }

  lemma FlattenNext(tables: seq<Counter>, i: nat)
    requires i < |tables|
    ensures Flatten(tables[..i + 1]) == Flatten(tables[..i]) + tables[i]
  {
    assert tables[..i + 1][..i] == tables[..i];
  }

  lemma AddAllSnoc(c: Counter, entries: seq<Entry>, e: Entry)
    ensures AddAll(c, entries + [e]) == Bump(AddAll(c, entries), e.key, e.count)
  {
    assert (entries + [e])[..|entries|] == entries;
  }

  /** The flattened entries list for each key exactly its values in the tables. */
  lemma {:induction false} FlattenSum(tables: seq<Counter>, k: string)
    requires forall i :: 0 <= i < |tables| ==> DistinctKeys(tables[i])
    ensures SumFor(Flatten(tables), k) == SumOfGets(tables, k)
    decreases |tables|
  {
    if tables != [] {
      var init, last := tables[..|tables| - 1], tables[|tables| - 1];
      FlattenSum(init, k);
      SumForAppend(Flatten(init), last, k);
      SumForDistinct(last, k);
    }
  }

  lemma {:induction false} FlattenKeys(tables: seq<Counter>, k: string)
    ensures k in Keys(Flatten(tables)) <==> InSomeTable(tables, k)
    decreases |tables|
  {
    if tables != [] {
      var init, last := tables[..|tables| - 1], tables[|tables| - 1];
      FlattenKeys(init, k);
      KeysAppend(Flatten(init), last);
      if InSomeTable(tables, k) && !InSomeTable(init, k) {
        var i :| 0 <= i < |tables| && k in Keys(tables[i]);
        assert i == |tables| - 1;
      }
    }
  }

  /** The counts summed over all tables. */
  function Summed(tables: seq<Counter>): Counter {
    AddAll([], Flatten(tables))
  }

  lemma SummedDistinct(tables: seq<Counter>)
    ensures DistinctKeys(Summed(tables))
  {
    AddAllDistinct([], Flatten(tables));
  }

  /** Summing lists exactly the keys of the tables, each with its values added up. */
  lemma SummedAt(tables: seq<Counter>, k: string)
    requires forall i :: 0 <= i < |tables| ==> DistinctKeys(tables[i])
    ensures Get(Summed(tables), k) == SumOfGets(tables, k)
    ensures k in Keys(Summed(tables)) <==> InSomeTable(tables, k)
  {
    AddAllGet([], Flatten(tables), k);
    FlattenSum(tables, k);
    AddAllKeys([], Flatten(tables), k);
    FlattenKeys(tables, k);
  }

  /** The nested counting loop: for each table, for each entry, add its count. */
  method SumCounts(tables: seq<Counter>) returns (counts: Counter)
    ensures counts == Summed(tables)
  {
    counts := [];
    for i := 0 to |tables|
      invariant counts == AddAll([], Flatten(tables[..i]))
    {
      var table := tables[i];
      AppendPrefix(Flatten(tables[..i]), table, 0);
      for j := 0 to |table|
        invariant counts == AddAll([], Flatten(tables[..i]) + table[..j])
      {
        AppendPrefix(Flatten(tables[..i]), table, j);
        AddAllSnoc([], Flatten(tables[..i]) + table[..j], table[j]);
        counts := Bump(counts, table[j].key, table[j].count);
      }
      assert table[..|table|] == table;
      FlattenNext(tables, i);
    }
    assert tables[..|tables|] == tables;
  }

  // ---------------------------------------------------------------------------
  // languages

  function LanguageTables(rs: seq<RepoInfo>): (r: seq<Counter>)
    ensures |r| == |rs| && forall i :: 0 <= i < |rs| ==> r[i] == rs[i].languages
  {
    seq(|rs|, i requires 0 <= i < |rs| => rs[i].languages)
  }

  /** `{k: count / total * 100}` over a counter. */
  function Percentages(c: Counter, total: int): (r: seq<Share>)
    requires total != 0
    ensures |r| == |c|
    ensures forall i :: 0 <= i < |c| ==> r[i].key == c[i].key
    decreases |c|
  {
    if c == [] then []
    else
      var last := c[|c| - 1];
      Percentages(c[..|c| - 1], total) + [Share(last.key, last.count as real / total as real * 100.0)]
  }

  function SumShares(r: seq<Share>): real
    decreases |r|
  {
    if r == [] then 0.0 else SumShares(r[..|r| - 1]) + r[|r| - 1].value
  }

  lemma {:induction false} PercentagesSum(c: Counter, total: int)
    requires total != 0
    ensures SumShares(Percentages(c, total)) == Total(c) as real / total as real * 100.0
    decreases |c|
  {
    if c != [] {
      var init, last := c[..|c| - 1], c[|c| - 1];
      var share := last.count as real / total as real * 100.0;
      var p := Percentages(c, total);
      assert p == Percentages(init, total) + [Share(last.key, share)];
      assert p[..|p| - 1] == Percentages(init, total);
      assert SumShares(p) == SumShares(Percentages(init, total)) + share;
      PercentagesSum(init, total);
      PercentAdd(Total(init) as real, last.count as real, total as real);
    }
  }

  lemma PercentAdd(a: real, b: real, t: real)
    requires t != 0.0
    ensures a / t * 100.0 + b / t * 100.0 == (a + b) / t * 100.0
  {
  }

  function LanguageCounts(rs: seq<RepoInfo>): Counter {
    Summed(LanguageTables(rs))
  }

  /** The `languages` map: each language's share of all matches, or `{}` when
      nothing matched. */
  function Languages(rs: seq<RepoInfo>): seq<Share> {
    var counts := LanguageCounts(rs);
    if Total(counts) > 0 then Percentages(counts, Total(counts)) else []
  }

  /** The map is empty exactly when the total count is not positive. */
  lemma LanguagesEmpty(rs: seq<RepoInfo>)
    ensures Languages(rs) == [] <==> Total(LanguageCounts(rs)) <= 0
  {
    if Total(LanguageCounts(rs)) > 0 {
      assert LanguageCounts(rs) != [];
    }
  }

  /** Otherwise it lists every counted language, in order, and the shares add up
      to 100. */
  lemma LanguagesShares(rs: seq<RepoInfo>)
    requires Total(LanguageCounts(rs)) > 0
    ensures |Languages(rs)| == |LanguageCounts(rs)|
    ensures forall i :: 0 <= i < |Languages(rs)| ==> Languages(rs)[i].key == LanguageCounts(rs)[i].key
    ensures SumShares(Languages(rs)) == 100.0
  {
    var counts := LanguageCounts(rs);
    PercentagesSum(counts, Total(counts));
    PercentOfWhole(Total(counts) as real);
  }

  lemma PercentOfWhole(t: real)
    requires t != 0.0
    ensures t / t * 100.0 == 100.0
  {
  }

  // ---------------------------------------------------------------------------
  // libraries and frameworks

  function LibraryTables(rs: seq<RepoInfo>): (r: seq<Counter>)
    ensures |r| == |rs| && forall i :: 0 <= i < |rs| ==> r[i] == rs[i].libraries
  {
    seq(|rs|, i requires 0 <= i < |rs| => rs[i].libraries)
  }

  /** The `libraries` map: the summed library counts, largest first. */
  function LibraryTotals(rs: seq<RepoInfo>): Counter {
    SortDesc(Summed(LibraryTables(rs)), CountKey)
  }

  /** The totals are listed largest first, each library once. */
  lemma LibraryTotalsOrder(rs: seq<RepoInfo>)
    ensures SortedDesc(LibraryTotals(rs), CountKey) && DistinctKeys(LibraryTotals(rs))
  {
    SummedDistinct(LibraryTables(rs));
    SortKeepsDistinct(Summed(LibraryTables(rs)));
  }

  /** Every listed library occurs in some repository, with the sum of its counts. */
  lemma LibraryTotalEntry(rs: seq<RepoInfo>, e: Entry)
    requires forall i :: 0 <= i < |rs| ==> DistinctKeys(rs[i].libraries)
    requires e in LibraryTotals(rs)
    ensures InSomeTable(LibraryTables(rs), e.key) && e.count == SumOfGets(LibraryTables(rs), e.key)
  {
    SummedDistinct(LibraryTables(rs));
    SortedEntry(Summed(LibraryTables(rs)), e);
    SummedAt(LibraryTables(rs), e.key);
  }

  /** Every library of every repository is listed with the sum of its counts. */
  lemma LibraryTotalFound(rs: seq<RepoInfo>, k: string)
    requires forall i :: 0 <= i < |rs| ==> DistinctKeys(rs[i].libraries)
    requires InSomeTable(LibraryTables(rs), k)
    ensures Entry(k, SumOfGets(LibraryTables(rs), k)) in LibraryTotals(rs)
  {
    SummedDistinct(LibraryTables(rs));
    SummedAt(LibraryTables(rs), k);
    SortedFound(Summed(LibraryTables(rs)), k);
  }

  /** Every repository's framework list, one after another. */
  function Concat(lists: seq<seq<string>>): seq<string>
    decreases |lists|
  {
    if lists == [] then [] else Concat(lists[..|lists| - 1]) + lists[|lists| - 1]
  }

  /** The number of lists that hold `k`. */
  function Listing(lists: seq<seq<string>>, k: string): nat
    decreases |lists|
  {
    if lists == [] then 0 else Listing(lists[..|lists| - 1], k) + (if k in lists[|lists| - 1] then 1 else 0)
  }

  predicate NoDuplicates(s: seq<string>) {
    forall i, j :: 0 <= i < j < |s| ==> s[i] != s[j]
  }

  lemma {:induction false} OccursOnce(s: seq<string>, k: string)
    requires NoDuplicates(s)
    ensures multiset(s)[k] == if k in s then 1 else 0
    decreases |s|
  {
    if s != [] {
      OccursOnce(s[1..], k);
      assert s == [s[0]] + s[1..];
      if s[0] == k {
        assert k !in s[1..] by {
          forall j | 0 <= j < |s[1..]| ensures s[1..][j] != k {
            assert s[1..][j] == s[j + 1];
          }
        }
      }
    }
  }

  /** When no list repeats a name, a name occurs in the concatenation once per list
      that holds it. */
  lemma {:induction false} ConcatListing(lists: seq<seq<string>>, k: string)
    requires forall i :: 0 <= i < |lists| ==> NoDuplicates(lists[i])
    ensures multiset(Concat(lists))[k] == Listing(lists, k)
    decreases |lists|
  {
    if lists != [] {
      var init, last := lists[..|lists| - 1], lists[|lists| - 1];
      ConcatListing(init, k);
      OccursOnce(last, k);
      assert multiset(Concat(lists)) == multiset(Concat(init)) + multiset(last);
    }
  }

  function FrameworkLists(rs: seq<RepoInfo>): (r: seq<seq<string>>)
    ensures |r| == |rs| && forall i :: 0 <= i < |rs| ==> r[i] == rs[i].frameworks
  {
    seq(|rs|, i requires 0 <= i < |rs| => rs[i].frameworks)
  }

  /** Counts, for each name, the lists that hold it, largest count first. */
  function ListingTotals(lists: seq<seq<string>>): Counter {
    SortDesc(TallyOf(Concat(lists)), CountKey)
  }

  /** The counts are listed largest first, each name once. */
  lemma ListingTotalsOrder(lists: seq<seq<string>>)
    ensures SortedDesc(ListingTotals(lists), CountKey) && DistinctKeys(ListingTotals(lists))
  {
    TallyCounts(Concat(lists));
    SortKeepsDistinct(TallyOf(Concat(lists)));
  }

  /** Every counted name occurs in some list, and is counted once per list that
      holds it. */
  lemma ListingTotalEntry(lists: seq<seq<string>>, e: Entry)
    requires forall i :: 0 <= i < |lists| ==> NoDuplicates(lists[i])
    requires e in ListingTotals(lists)
    ensures e.key in Concat(lists) && e.count == Listing(lists, e.key) > 0
  {
    TallyCounts(Concat(lists));
    SortedEntry(TallyOf(Concat(lists)), e);
    ConcatListing(lists, e.key);
  }

  /** Every name some list holds is counted. */
  lemma ListingTotalFound(lists: seq<seq<string>>, k: string)
    requires forall i :: 0 <= i < |lists| ==> NoDuplicates(lists[i])
    requires k in Concat(lists)
    ensures Entry(k, Listing(lists, k)) in ListingTotals(lists)
  {
    TallyCounts(Concat(lists));
    ConcatListing(lists, k);
    SortedFound(TallyOf(Concat(lists)), k);
  }

  /** The counting loop `for repo in ...: for name in repo[...]: count[name] += 1`. */
  method CountListings(lists: seq<seq<string>>) returns (counts: Counter)
    ensures counts == TallyOf(Concat(lists))
  {
    counts := [];
    for i := 0 to |lists|
      invariant counts == TallyOf(Concat(lists[..i]))
    {
      var list, done := lists[i], Concat(lists[..i]);
      AppendPrefix(done, list, 0);
      for j := 0 to |list|
        invariant counts == TallyOf(done + list[..j])
      {
        AppendPrefix(done, list, j);
        TallySnoc(done + list[..j], list[j]);
        counts := Bump(counts, list[j], 1);
      }
      ConcatNext(lists, i);
    }
    assert lists[..|lists|] == lists;
  }

  lemma ConcatNext(lists: seq<seq<string>>, i: nat)
    requires i < |lists|
    ensures Concat(lists[..i + 1]) == Concat(lists[..i]) + lists[i][..|lists[i]|]
  {
    assert lists[..i + 1][..i] == lists[..i];
    assert lists[i][..|lists[i]|] == lists[i];
  }

  lemma TallySnoc(xs: seq<string>, x: string)
    ensures TallyOf(xs + [x]) == Bump(TallyOf(xs), x, 1)
  {
    assert (xs + [x])[..|xs|] == xs;
  }

  // ---------------------------------------------------------------------------
  // habits

  /** `n` copies of `v`. */
  function Copies(v: real, n: nat): (r: seq<real>)
    ensures |r| == n
  {
    seq(n, _ => v)
  }

  function Sum(xs: seq<real>): real
    decreases |xs|
  {
    if xs == [] then 0.0 else Sum(xs[..|xs| - 1]) + xs[|xs| - 1]
  }

  lemma {:induction false} SumCopies(v: real, n: nat)
    ensures Sum(Copies(v, n)) == n as real * v
    decreases n
  {
    if n > 0 {
      assert Copies(v, n)[..n - 1] == Copies(v, n - 1);
      SumCopies(v, n - 1);
    }
  }

  lemma {:induction false} SumAppend(a: seq<real>, b: seq<real>)
    ensures Sum(a + b) == Sum(a) + Sum(b)
    decreases |b|
  {
    if b == [] {
      assert a + b == a;
    } else {
      var ab := a + b;
      assert ab[..|ab| - 1] == a + b[..|b| - 1];
      SumAppend(a, b[..|b| - 1]);
    }
  }

  /** `commit_sizes`: for each repository with commits, its size per commit, once
      per commit. */
  function CommitSizes(rs: seq<RepoInfo>): seq<real>
    decreases |rs|
  {
    if rs == [] then []
    else
      var last := rs[|rs| - 1];
      var n := |last.commits|;
      CommitSizes(rs[..|rs| - 1]) + (if n > 0 then Copies(last.sizeKb / n as real, n) else [])
  }

  /** The total size of the repositories that have commits. */
  function CommittedSize(rs: seq<RepoInfo>): real
    decreases |rs|
  {
    if rs == [] then 0.0
    else CommittedSize(rs[..|rs| - 1]) + (if |rs[|rs| - 1].commits| > 0 then rs[|rs| - 1].sizeKb else 0.0)
  }

  /** There is one size per commit. */
  lemma {:induction false} CommitSizesCount(rs: seq<RepoInfo>)
    ensures |CommitSizes(rs)| == |AllCommits(rs)|
    decreases |rs|
  {
    if rs != [] {
      CommitSizesCount(rs[..|rs| - 1]);
    }
  }

  /** Spreading a size over `n` commits adds the whole size. */
  lemma SpreadSum(a: seq<real>, size: real, n: nat)
    requires n > 0
    ensures Sum(a + Copies(size / n as real, n)) == Sum(a) + size
  {
    var v := size / n as real;
    SumAppend(a, Copies(v, n));
    SumCopies(v, n);
    assert n as real * v == size;
  }

  /** The sizes add up to the size of the repositories that have commits. */
  lemma {:induction false} CommitSizesSum(rs: seq<RepoInfo>)
    ensures Sum(CommitSizes(rs)) == CommittedSize(rs)
    decreases |rs|
  {
    if rs != [] {
      var init, last := rs[..|rs| - 1], rs[|rs| - 1];
      CommitSizesSum(init);
      if |last.commits| > 0 {
        SpreadSum(CommitSizes(init), last.sizeKb, |last.commits|);
      } else {
        assert CommitSizes(init) + [] == CommitSizes(init);
        assert CommitSizes(rs) == CommitSizes(init);
      }
    }
  }

  function Mean(xs: seq<real>): real {
    if xs == [] then 0.0 else Sum(xs) / |xs| as real
  }

  /** The average commit size is the size of the repositories with commits per
      commit. */
  lemma AverageCommitSize(rs: seq<RepoInfo>)
    ensures Mean(CommitSizes(rs)) == if |AllCommits(rs)| == 0 then 0.0 else CommittedSize(rs) / |AllCommits(rs)| as real
  {
    CommitSizesCount(rs);
    CommitSizesSum(rs);
  }

  /** `[c['timestamp'] for c in all_commits if c.get('timestamp')]`: a timestamp of
      exactly 0 is falsy and dropped. */
  function Timestamps(cs: seq<Commit>): (r: seq<real>)
    ensures |r| <= |cs|
    ensures forall t :: t in r ==> t != 0.0
    decreases |cs|
  {
    if cs == [] then []
    else
      var t := cs[|cs| - 1].timestamp;
      Timestamps(cs[..|cs| - 1]) + (if t != 0.0 then [t] else [])
  }

  function MaxOf(xs: seq<real>): (m: real)
    requires xs != []
    ensures m in xs && forall i :: 0 <= i < |xs| ==> xs[i] <= m
    decreases |xs|
  {
    if |xs| == 1 then xs[0]
    else
      var m := MaxOf(xs[..|xs| - 1]);
      if xs[|xs| - 1] > m then xs[|xs| - 1] else m
  }

  function MinOf(xs: seq<real>): (m: real)
    requires xs != []
    ensures m in xs && forall i :: 0 <= i < |xs| ==> m <= xs[i]
    decreases |xs|
  {
    if |xs| == 1 then xs[0]
    else
      var m := MinOf(xs[..|xs| - 1]);
      if xs[|xs| - 1] < m then xs[|xs| - 1] else m
  }

  function MaxReal(a: real, b: real): real {
    if a >= b then a else b
  }

  /** Commits per week over the span of the timestamps, the span counted as at
      least one week; 0 for fewer than two timestamps or an empty span. */
  function Frequency(ts: seq<real>): (f: real)
    ensures 0.0 <= f <= |ts| as real
  {
    if |ts| > 1 then
      var span := (MaxOf(ts) - MinOf(ts)) / 86400.0;
      if span > 0.0 then
        var weeks := MaxReal(span / 7.0, 1.0);
        PerWeek(|ts| as real, weeks);
        |ts| as real / weeks
      else 0.0
    else 0.0
  }

  lemma PerWeek(n: real, weeks: real)
    requires n >= 0.0 && weeks >= 1.0
    ensures 0.0 <= n / weeks <= n
  {
    assert n / weeks * weeks == n;
  }

  /** The commit pattern: daily above 5 commits a week, regular above 2, weekly
      above 0.5, sporadic otherwise. */
  function CommitPattern(frequency: real): string {
    if frequency > 5.0 then "daily"
    else if frequency > 2.0 then "regular"
    else if frequency > 0.5 then "weekly"
    else "sporadic"
  }

  function PatternRank(pattern: string): nat {
    if pattern == "daily" then 3 else if pattern == "regular" then 2 else if pattern == "weekly" then 1 else 0
  }

  /** A higher frequency never gives a sparser pattern, and each pattern covers
      exactly its band of frequencies. */
  lemma CommitPatternBands(f: real, g: real)
    ensures f <= g ==> PatternRank(CommitPattern(f)) <= PatternRank(CommitPattern(g))
    ensures CommitPattern(f) == "daily" <==> f > 5.0
    ensures CommitPattern(f) == "regular" <==> 2.0 < f <= 5.0
    ensures CommitPattern(f) == "weekly" <==> 0.5 < f <= 2.0
    ensures CommitPattern(f) == "sporadic" <==> f <= 0.5
  {
  }

  /** The `habits` entry; `consistency` stands for `1 / (1 + stdev(intervals) / 86400)`. */
  function HabitsOf(rs: seq<RepoInfo>, consistency: seq<real> -> real): Habits {
    var ts := Timestamps(AllCommits(rs));
    var f := Frequency(ts);
    Habits(f, if |ts| > 2 then consistency(ts) else 0.0, Mean(CommitSizes(rs)), CommitPattern(f))
  }

  /** The habits loop: collects every commit and every repository's per-commit size. */
  method CollectCommits(rs: seq<RepoInfo>) returns (allCommits: seq<Commit>, sizes: seq<real>)
    ensures allCommits == AllCommits(rs) && sizes == CommitSizes(rs)
  {
    allCommits, sizes := [], [];
    for i := 0 to |rs|
      invariant allCommits == AllCommits(rs[..i]) && sizes == CommitSizes(rs[..i])
    {
      assert rs[..i + 1][..i] == rs[..i];
      var n := |rs[i].commits|;
      allCommits := allCommits + rs[i].commits;
      if n > 0 {
        sizes := sizes + Copies(rs[i].sizeKb / n as real, n);
      }
    }
    assert rs[..|rs|] == rs;
  }

  // ---------------------------------------------------------------------------
  // technical depth

  function Sizes(rs: seq<RepoInfo>): (r: seq<real>)
    ensures |r| == |rs| && forall i :: 0 <= i < |rs| ==> r[i] == rs[i].sizeKb
  {
    seq(|rs|, i requires 0 <= i < |rs| => rs[i].sizeKb)
  }

  /** Advanced above 0.7, intermediate above 0.4, beginner otherwise. */
  function DepthLevel(score: real): string {
    if score > 0.7 then "advanced" else if score > 0.4 then "intermediate" else "beginner"
  }

  /** The `technical_depth` entry. */
  function TechnicalDepth(rs: seq<RepoInfo>): Depth {
    var sizes := Sizes(rs);
    var avg := Mean(sizes);
    var score := Min(avg / 500.0, 1.0);
    Depth(score, avg, if sizes == [] then 0.0 else MaxOf(sizes), DepthLevel(score))
  }

  lemma {:induction false} SumBounds(xs: seq<real>, lo: real, hi: real)
    requires forall i :: 0 <= i < |xs| ==> lo <= xs[i] <= hi
    ensures |xs| as real * lo <= Sum(xs) <= |xs| as real * hi
    decreases |xs|
  {
    if xs != [] {
      SumBounds(xs[..|xs| - 1], lo, hi);
    }
  }

  /** The mean lies between any bounds of the values. */
  lemma MeanBounds(xs: seq<real>, lo: real, hi: real)
    requires xs != [] && forall i :: 0 <= i < |xs| ==> lo <= xs[i] <= hi
    ensures lo <= Mean(xs) <= hi
  {
    SumBounds(xs, lo, hi);
    var n := |xs| as real;
    assert Sum(xs) / n * n == Sum(xs);
  }

  /** With no repositories everything is 0 and the level is beginner; otherwise, for
      sizes that are not negative, the score lies in [0, 1], the average does not
      exceed the maximum, and the level follows the score's band. */
  lemma TechnicalDepthFacts(rs: seq<RepoInfo>)
    requires forall i :: 0 <= i < |rs| ==> rs[i].sizeKb >= 0.0
    ensures var d := TechnicalDepth(rs);
      && (rs == [] ==> d == Depth(0.0, 0.0, 0.0, "beginner"))
      && 0.0 <= d.depthScore <= 1.0
      && 0.0 <= d.avgRepoSizeKb <= d.maxRepoSizeKb
      && (d.level == "advanced" <==> d.depthScore > 0.7)
      && (d.level == "intermediate" <==> 0.4 < d.depthScore <= 0.7)
      && (d.level == "beginner" <==> d.depthScore <= 0.4)
  {
    var sizes := Sizes(rs);
    if sizes != [] {
      MeanBounds(sizes, 0.0, MaxOf(sizes));
    }
  }

  // ---------------------------------------------------------------------------
  // composition

  const FrontendTypes: seq<string> := ["html", "css", "scss", "sass", "jsx", "tsx", "vue", "md"]
  const BackendTypes: seq<string> := ["py", "sh", "js", "ts", "json", "yml", "yaml"]
  const DataTypes: seq<string> := ["json", "csv", "xml"]

  /** The counts of the entries whose type is in `category`. */
  function CategoryTotal(entries: seq<Entry>, category: seq<string>): int
    decreases |entries|
  {
    if entries == [] then 0
    else
      var last := entries[|entries| - 1];
      CategoryTotal(entries[..|entries| - 1], category) + (if OneOf(last.key, category) then last.count else 0)
  }

  lemma CategorySnoc(entries: seq<Entry>, e: Entry, category: seq<string>)
    ensures CategoryTotal(entries + [e], category) == CategoryTotal(entries, category) + (if OneOf(e.key, category) then e.count else 0)
  {
    assert (entries + [e])[..|entries|] == entries;
  }

  /** No count is negative. */
  predicate NonNegative(entries: seq<Entry>) {
    forall i :: 0 <= i < |entries| ==> entries[i].count >= 0
  }

  lemma {:induction false} FlattenNonNegative(tables: seq<Counter>)
    requires forall i :: 0 <= i < |tables| ==> NonNegative(tables[i])
    ensures NonNegative(Flatten(tables))
    decreases |tables|
  {
    if tables != [] {
      var init, last := tables[..|tables| - 1], tables[|tables| - 1];
      FlattenNonNegative(init);
      forall j | 0 <= j < |Flatten(tables)| ensures Flatten(tables)[j].count >= 0 {
        if j >= |Flatten(init)| {
          assert Flatten(tables)[j] == last[j - |Flatten(init)|];
        }
      }
    }
  }

  lemma {:induction false} CategoryNonNegative(entries: seq<Entry>, category: seq<string>)
    requires NonNegative(entries)
    ensures CategoryTotal(entries, category) >= 0
    decreases |entries|
  {
    if entries != [] {
      CategoryNonNegative(entries[..|entries| - 1], category);
    }
  }

  /** A `json` entry counts toward backend and toward data, and not toward frontend. */
  lemma JsonCountsTwice(entries: seq<Entry>, n: int)
    ensures CategoryTotal(entries + [Entry("json", n)], BackendTypes) == CategoryTotal(entries, BackendTypes) + n
    ensures CategoryTotal(entries + [Entry("json", n)], DataTypes) == CategoryTotal(entries, DataTypes) + n
    ensures CategoryTotal(entries + [Entry("json", n)], FrontendTypes) == CategoryTotal(entries, FrontendTypes)
  {
    CategorySnoc(entries, Entry("json", n), BackendTypes);
    CategorySnoc(entries, Entry("json", n), DataTypes);
    CategorySnoc(entries, Entry("json", n), FrontendTypes);
    JsonCategories();
  }

  lemma JsonCategories()
    ensures OneOf("json", BackendTypes) && OneOf("json", DataTypes) && !OneOf("json", FrontendTypes)
  {
    OneOfIff("json", BackendTypes);
    OneOfIff("json", DataTypes);
    OneOfIff("json", FrontendTypes);
    assert BackendTypes[4] == "json" && DataTypes[0] == "json";
  }

  /** Each count divided by their sum, or all 0 when the sum is 0. */
  function Shares(front: int, back: int, data: int): Composition {
    var total := front + back + data;
    if total > 0 then Composition(front as real / total as real, back as real / total as real, data as real / total as real)
    else Composition(0.0, 0.0, 0.0)
  }

  /** For counts that are not negative: all shares are 0 when there is nothing to
      count; otherwise each share lies in [0, 1] and the shares add up to 1. */
  lemma SharesFacts(front: int, back: int, data: int)
    requires front >= 0 && back >= 0 && data >= 0
    ensures var c := Shares(front, back, data);
      && (front + back + data == 0 ==> c == Composition(0.0, 0.0, 0.0))
      && 0.0 <= c.frontend <= 1.0 && 0.0 <= c.backend <= 1.0 && 0.0 <= c.data <= 1.0
      && (front + back + data > 0 ==> c.frontend + c.backend + c.data == 1.0)
  {
    var t := (front + back + data) as real;
    if t > 0.0 {
      PartOfWhole(front as real, t);
      PartOfWhole(back as real, t);
      PartOfWhole(data as real, t);
      PartsAdd(front as real, back as real, data as real);
    }
  }

  lemma PartOfWhole(x: real, t: real)
    requires 0.0 <= x <= t && t > 0.0
    ensures 0.0 <= x / t <= 1.0
  {
    assert x / t * t == x;
  }

  lemma PartsAdd(a: real, b: real, c: real)
    requires a + b + c > 0.0
    ensures a / (a + b + c) + b / (a + b + c) + c / (a + b + c) == 1.0
  {
  }

  function FileTypeTables(rs: seq<RepoInfo>): (r: seq<Counter>)
    ensures |r| == |rs| && forall i :: 0 <= i < |rs| ==> r[i] == rs[i].fileTypes
  {
    seq(|rs|, i requires 0 <= i < |rs| => rs[i].fileTypes)
  }

  /** The `composition` entry. */
  function CompositionOf(rs: seq<RepoInfo>): Composition {
    var entries := Flatten(FileTypeTables(rs));
    Shares(CategoryTotal(entries, FrontendTypes), CategoryTotal(entries, BackendTypes), CategoryTotal(entries, DataTypes))
  }

  /** With file-type counts that are not negative, each share lies in [0, 1]; the
      shares are all 0 when no file type falls in a category, and add up to 1
      otherwise. */
  lemma CompositionOfFacts(rs: seq<RepoInfo>)
    requires forall i :: 0 <= i < |rs| ==> NonNegative(rs[i].fileTypes)
    ensures var c := CompositionOf(rs);
      && 0.0 <= c.frontend <= 1.0 && 0.0 <= c.backend <= 1.0 && 0.0 <= c.data <= 1.0
      && (c.frontend + c.backend + c.data == 1.0 || c == Composition(0.0, 0.0, 0.0))
  {
    var es := Flatten(FileTypeTables(rs));
    FlattenNonNegative(FileTypeTables(rs));
    CategoryNonNegative(es, FrontendTypes);
    CategoryNonNegative(es, BackendTypes);
    CategoryNonNegative(es, DataTypes);
    SharesFacts(CategoryTotal(es, FrontendTypes), CategoryTotal(es, BackendTypes), CategoryTotal(es, DataTypes));
  }

  /** The composition loop: each file type's count goes to every category that
      lists the type. */
  method CategoryCounts(tables: seq<Counter>, frontendTypes: seq<string>, backendTypes: seq<string>, dataTypes: seq<string>)
    returns (front: int, back: int, data: int)
    ensures var es := Flatten(tables);
      front == CategoryTotal(es, frontendTypes) && back == CategoryTotal(es, backendTypes) && data == CategoryTotal(es, dataTypes)
  {
    front, back, data := 0, 0, 0;
    for i := 0 to |tables|
      invariant var es := Flatten(tables[..i]);
        front == CategoryTotal(es, frontendTypes) && back == CategoryTotal(es, backendTypes) && data == CategoryTotal(es, dataTypes)
    {
      var table := tables[i];
      AppendPrefix(Flatten(tables[..i]), table, 0);
      for j := 0 to |table|
        invariant var es := Flatten(tables[..i]) + table[..j];
          front == CategoryTotal(es, frontendTypes) && back == CategoryTotal(es, backendTypes) && data == CategoryTotal(es, dataTypes)
      {
        var es := Flatten(tables[..i]) + table[..j];
        AppendPrefix(Flatten(tables[..i]), table, j);
        CategorySnoc(es, table[j], frontendTypes);
        CategorySnoc(es, table[j], backendTypes);
        CategorySnoc(es, table[j], dataTypes);
        if OneOf(table[j].key, frontendTypes) {
          front := front + table[j].count;
        }
        if OneOf(table[j].key, backendTypes) {
          back := back + table[j].count;
        }
        if OneOf(table[j].key, dataTypes) {
          data := data + table[j].count;
        }
      }
      assert table[..|table|] == table;
      FlattenNext(tables, i);
    }
    assert tables[..|tables|] == tables;
  }

  // ---------------------------------------------------------------------------
  // skills

  /** Every table's keys, lower-cased: `all_libs`. */
  function LibraryNamesOf(tables: seq<Counter>): set<string>
    decreases |tables|
  {
    if tables == [] then {} else LibraryNamesOf(tables[..|tables| - 1]) + set k | k in Keys(tables[|tables| - 1]) :: Lower(k)
  }

  /** Every list's names, lower-cased: `all_frameworks`. */
  function FrameworkNamesOf(lists: seq<seq<string>>): set<string>
    decreases |lists|
  {
    if lists == [] then {} else FrameworkNamesOf(lists[..|lists| - 1]) + set f | f in lists[|lists| - 1] :: Lower(f)
  }

  /** A name is in `all_libs` exactly when some repository lists a library with
      that lower-case form. */
  lemma {:induction false} LibraryNamesMembers(tables: seq<Counter>, x: string)
    ensures x in LibraryNamesOf(tables) <==>
      exists i, k :: 0 <= i < |tables| && k in Keys(tables[i]) && Lower(k) == x
    decreases |tables|
  {
    if tables != [] {
      var init := tables[..|tables| - 1];
      LibraryNamesMembers(init, x);
      assert forall i :: 0 <= i < |init| ==> init[i] == tables[i];
    }
  }

  /** A name is in `all_frameworks` exactly when some repository lists a framework
      with that lower-case form. */
  lemma {:induction false} FrameworkNamesMembers(lists: seq<seq<string>>, x: string)
    ensures x in FrameworkNamesOf(lists) <==>
      exists i, f :: 0 <= i < |lists| && f in lists[i] && Lower(f) == x
    decreases |lists|
  {
    if lists != [] {
      var init := lists[..|lists| - 1];
      FrameworkNamesMembers(init, x);
      assert forall i :: 0 <= i < |init| ==> init[i] == lists[i];
    }
  }

  /** The loop that fills `all_libs` and `all_frameworks` and joins them. */
  method CollectNames(tables: seq<Counter>, lists: seq<seq<string>>) returns (combined: set<string>)
    requires |tables| == |lists|
    ensures combined == LibraryNamesOf(tables) + FrameworkNamesOf(lists)
  {
    var allLibs: set<string> := {};
    var allFrameworks: set<string> := {};
    for i := 0 to |tables|
      invariant allLibs == LibraryNamesOf(tables[..i]) && allFrameworks == FrameworkNamesOf(lists[..i])
    {
      assert tables[..i + 1][..i] == tables[..i];
      assert lists[..i + 1][..i] == lists[..i];
      allLibs := allLibs + set k | k in Keys(tables[i]) :: Lower(k);
      allFrameworks := allFrameworks + set f | f in lists[i] :: Lower(f);
    }
    assert tables[..|tables|] == tables;
    assert lists[..|lists|] == lists;
    combined := allLibs + allFrameworks;
  }

  const DevtoolsIndicators: seq<string> := ["pytest", "git", "github", "docker", "validation", "scaffold"]
  const AiMlIndicators: seq<string> := ["ollama", "claude", "llm", "ai", "ml"]
  const PluginIndicators: seq<string> := ["plugin", "marketplace", "cli", "tools"]

  /** How many indicators are among the names: `len(combined & indicators)` for an
      indicator list without repeats. */
  function Present(indicators: seq<string>, names: set<string>): (n: nat)
    ensures n <= |indicators|
    ensures n > 0 <==> exists i :: 0 <= i < |indicators| && indicators[i] in names
    ensures n == |indicators| <==> forall i :: 0 <= i < |indicators| ==> indicators[i] in names
    decreases |indicators|
  {
    if indicators == [] then 0
    else
      var init := indicators[..|indicators| - 1];
      assert forall i :: 0 <= i < |init| ==> init[i] == indicators[i];
      Present(init, names) + (if indicators[|indicators| - 1] in names then 1 else 0)
  }

  /** `len(combined & indicators) / max(len(indicators), 1)`. */
  function Ratio(indicators: seq<string>, names: set<string>): real {
    Present(indicators, names) as real / (if |indicators| > 0 then |indicators| else 1) as real
  }

  /** A ratio lies in [0, 1]; it is above 0 exactly when some indicator is present,
      and 1 exactly when all are. */
  lemma RatioExact(indicators: seq<string>, names: set<string>)
    requires |indicators| > 0
    ensures 0.0 <= Ratio(indicators, names) <= 1.0
    ensures Ratio(indicators, names) > 0.0 <==> exists i :: 0 <= i < |indicators| && indicators[i] in names
    ensures Ratio(indicators, names) == 1.0 <==> forall i :: 0 <= i < |indicators| ==> indicators[i] in names
  {
    FractionExact(Present(indicators, names) as real, |indicators| as real);
  }

  lemma FractionExact(p: real, n: real)
    requires 0.0 <= p <= n && n > 0.0
    ensures 0.0 <= p / n <= 1.0
    ensures p / n == 0.0 <==> p == 0.0
    ensures p / n == 1.0 <==> p == n
  {
    var r := p / n;
    assert r * n == p;
    assert (r - 1.0) * n == p - n;
  }

  /** A skill survives the `> 0.05` filter exactly when one of its indicators is
      present, and its score never exceeds 1. */
  lemma RatioFacts(indicators: seq<string>, names: set<string>)
    requires 0 < |indicators| < 20
    ensures 0.0 <= Ratio(indicators, names) <= 1.0
    ensures Ratio(indicators, names) > 0.05 <==> exists i :: 0 <= i < |indicators| && indicators[i] in names
  {
    FractionBounds(Present(indicators, names) as real, |indicators| as real);
  }

  /** `p / n` for `0 <= p <= n < 20`: at most 1, and above 0.05 once `p` reaches 1. */
  lemma FractionBounds(p: real, n: real)
    requires 0.0 <= p <= n && 0.0 < n < 20.0
    ensures 0.0 <= p / n <= 1.0
    ensures p >= 1.0 ==> p / n > 0.05
  {
    var r := p / n;
    assert r * n == p;
    assert r * n <= 1.0 * n;
    if p >= 1.0 {
      assert r * n >= 1.0;
      assert r * 20.0 > 1.0;
    }
  }

  function Kept(key: string, value: real): seq<Share> {
    if value > 0.05 then [Share(key, value)] else []
  }

  /** The `skills` entry: the three ratios above 0.05, in a fixed order. */
  function Skills(names: set<string>): seq<Share> {
    Kept("devtools_automation", Ratio(DevtoolsIndicators, names))
    + Kept("ai_ml", Ratio(AiMlIndicators, names))
    + Kept("plugin_development", Ratio(PluginIndicators, names))
  }

  /** Every listed skill has a score in (0.05, 1], and each skill is listed exactly
      when one of its indicators is present. */
  lemma SkillsFacts(names: set<string>)
    ensures forall s :: s in Skills(names) ==> 0.05 < s.value <= 1.0
    ensures Share("devtools_automation", Ratio(DevtoolsIndicators, names)) in Skills(names)
      <==> exists i :: 0 <= i < |DevtoolsIndicators| && DevtoolsIndicators[i] in names
    ensures Share("ai_ml", Ratio(AiMlIndicators, names)) in Skills(names)
      <==> exists i :: 0 <= i < |AiMlIndicators| && AiMlIndicators[i] in names
    ensures Share("plugin_development", Ratio(PluginIndicators, names)) in Skills(names)
      <==> exists i :: 0 <= i < |PluginIndicators| && PluginIndicators[i] in names
  {
    RatioFacts(DevtoolsIndicators, names);
    RatioFacts(AiMlIndicators, names);
    RatioFacts(PluginIndicators, names);
  }

  // ---------------------------------------------------------------------------
  // quality

  function Coverages(rs: seq<RepoInfo>): (r: seq<real>)
    ensures |r| == |rs| && forall i :: 0 <= i < |rs| ==> r[i] == rs[i].testCoverage
  {
    seq(|rs|, i requires 0 <= i < |rs| => rs[i].testCoverage)
  }

  /** Excellent above 70, good above 40, fair above 20, otherwise needs improvement. */
  function Rating(avgCoverage: real): string {
    if avgCoverage > 70.0 then "excellent"
    else if avgCoverage > 40.0 then "good"
    else if avgCoverage > 20.0 then "fair"
    else "needs_improvement"
  }

  /** The `quality` entry. */
  function QualityOf(rs: seq<RepoInfo>): Quality {
    var avg := Mean(Coverages(rs));
    Quality(avg, Min(avg / 100.0, 1.0), Rating(avg))
  }

  /** For coverages in [0, 100] the average is in [0, 100] and the score in [0, 1];
      no repositories give 0 and "needs_improvement"; the rating follows the
      average's band. */
  lemma QualityFacts(rs: seq<RepoInfo>)
    requires forall i :: 0 <= i < |rs| ==> 0.0 <= rs[i].testCoverage <= 100.0
    ensures var q := QualityOf(rs);
      && (rs == [] ==> q == Quality(0.0, 0.0, "needs_improvement"))
      && 0.0 <= q.avgTestCoverage <= 100.0
      && 0.0 <= q.qualityScore <= 1.0
      && q.qualityScore * 100.0 == q.avgTestCoverage
      && (q.rating == "excellent" <==> q.avgTestCoverage > 70.0)
      && (q.rating == "good" <==> 40.0 < q.avgTestCoverage <= 70.0)
      && (q.rating == "fair" <==> 20.0 < q.avgTestCoverage <= 40.0)
      && (q.rating == "needs_improvement" <==> q.avgTestCoverage <= 20.0)
  {
    if rs != [] {
      MeanBounds(Coverages(rs), 0.0, 100.0);
    }
  }

  // ---------------------------------------------------------------------------
  // create_translated_data

  /** The translated data of `data`; `now` is the analysis timestamp. */
  function TranslatedOf(data: FilteredData, consistency: seq<real> -> real, now: string): Translated {
    var rs := data.repositories;
    Translated(
      Languages(rs),
      LibraryTotals(rs),
      ListingTotals(FrameworkLists(rs)),
      HabitsOf(rs, consistency),
      TechnicalDepth(rs),
      CompositionOf(rs),
      Skills(LibraryNamesOf(LibraryTables(rs)) + FrameworkNamesOf(FrameworkLists(rs))),
      QualityOf(rs),
      Metadata(|rs|, data.totalCommits, now))
  }

  /** `create_translated_data`: the counting loops, then the derived entries. */
  method CreateTranslatedData(data: FilteredData, consistency: seq<real> -> real, now: string)
    returns (translated: Translated)
    ensures translated == TranslatedOf(data, consistency, now)
  {
    var rs := data.repositories;
    var languageCounts := SumCounts(LanguageTables(rs));
    var totalLang := Total(languageCounts);
    var languages := if totalLang > 0 then Percentages(languageCounts, totalLang) else [];
    var libraryCounts := SumCounts(LibraryTables(rs));
    var frameworkCounts := CountListings(FrameworkLists(rs));
    var allCommits, sizes := CollectCommits(rs);
    var ts := Timestamps(allCommits);
    var frequency := Frequency(ts);
    var habits := Habits(frequency, if |ts| > 2 then consistency(ts) else 0.0, Mean(sizes), CommitPattern(frequency));
    var front, back, dataFiles := CategoryCounts(FileTypeTables(rs), FrontendTypes, BackendTypes, DataTypes);
    var composition := Shares(front, back, dataFiles);
    var combined := CollectNames(LibraryTables(rs), FrameworkLists(rs));
    translated := Translated(
      languages,
      SortDesc(libraryCounts, CountKey),
      SortDesc(frameworkCounts, CountKey),
      habits,
      TechnicalDepth(rs),
      composition,
      Skills(combined),
      QualityOf(rs),
      Metadata(|rs|, data.totalCommits, now));
  }

  // ---------------------------------------------------------------------------
  // analyze_github_dump

  /** `analyze_github_dump`: parses the dump into repositories, builds the
      filtered data from them, then the translated profile from that. */
  method AnalyzeGithubDump(text: string, scan: string -> Scan, parse: string -> Option<real>,
                           consistency: seq<real> -> real, now: string)
    returns (filtered: FilteredData, translated: Translated)
    ensures filtered == Filtered(DumpParser.Parse(text), scan, parse)
    ensures translated == TranslatedOf(filtered, consistency, now)
  {
    var repos := DumpParser.ParseRepositories(text);
    filtered := CreateFilteredData(repos, scan, parse);
    translated := CreateTranslatedData(filtered, consistency, now);
  }

  /** The dump the fetcher writes for a user's repositories analyses to one record
      per repository, in order, each named by the written name stripped and
      analysing exactly that repository's file blocks; the profile counts those
      repositories. */
  lemma FetchedDumpAnalysed(user: string, repos: seq<RepoDump>, scan: string -> Scan,
                            parse: string -> Option<real>, consistency: seq<real> -> real, now: string, i: nat)
    requires DumpParser.Parsable(user, repos) && i < |repos|
    ensures var f := Filtered(DumpParser.Parse(Dump(user, repos)), scan, parse);
      && |f.repositories| == |repos|
      && f.repositories[i].name == Strip(repos[i].name)
      && f.repositories[i] == Analysis(Strip(repos[i].name), DumpParser.ParsedRepos(repos)[i].content,
                                       scan(DumpParser.ParsedRepos(repos)[i].content), parse)
      && TranslatedOf(f, consistency, now).metadata.totalRepositories == |repos|
  {
    DumpParser.RoundTrip(user, repos);
    DumpParser.ParsedName(repos, i);
    AnalyzedAt(DumpParser.ParsedRepos(repos), scan, parse, i);
  }
}

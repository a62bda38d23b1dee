/** `parse_repositories`: the dump is cut at every repository header by `re.split`
    with the pattern `={80}\nREPOSITORY:\s*(.+?)\n={80}`, and the pieces are paired
    into (name, content) records. The regular expression is modelled exactly for
    this pattern: a row of 80 '=', a newline and "REPOSITORY:", then a greedy run
    of whitespace that gives characters back one at a time, then a lazy name that
    cannot cross a newline, then a newline and a row of 80 '='. */
module DumpParser {
  import opened Text
  import opened RepoFetch

  /** The fixed start of a repository header. */
  const Marker: string := Rule + "\nREPOSITORY:"

  lemma MarkerChars()
    ensures |Rule| == 80 && |Marker| == 92
    ensures forall d :: 0 <= d < 80 ==> Marker[d] == '='
    ensures Marker[80] == '\n' && Marker[81] == 'R'
    ensures forall d :: 0 <= d < 92 && d != 80 ==> Marker[d] != '\n'
  {
    assert Marker[80..] == "\nREPOSITORY:";
  }

  /** The number of whitespace characters at the front of `s`. */
  function LeadingSpace(s: string): (n: nat)
    ensures n <= |s| && AllSpace(s[..n])
    ensures n < |s| ==> !IsSpace(s[n])
    decreases |s|
  {
    if s != [] && IsSpace(s[0]) then
      var n := 1 + LeadingSpace(s[1..]);
      assert forall i :: 1 <= i < n ==> s[..n][i] == s[1..][..n - 1][i - 1];
      n
    else 0
  }

  /** `.+?\n={80}` tried at index `s`: the name runs up to the first newline, which
      must come after at least one character and be followed by a row of '='.
      The result is the index of that newline. */
  function NameEnd(t: string, s: nat): (r: Option<nat>)
    ensures r.Some? ==> s < r.value && r.value + 81 <= |t|
  {
    if s < |t| && t[s] != '\n' then
      var e := s + IndexOf(t[s..], '\n');
      if e < |t| && OccursAt(t, Rule, e + 1) then Some(e) else None
    else None
  }

  /** `\s*` after "REPOSITORY:" at index `j`: first with `k` whitespace characters,
      then with one fewer each time the rest fails. The result is where the name
      starts and where it ends. */
  function TryFrom(t: string, j: nat, k: nat): (r: Option<(nat, nat)>)
    ensures r.Some? ==> j <= r.value.0 < r.value.1 && r.value.1 + 81 <= |t|
    decreases k
  {
    match NameEnd(t, j + k)
    case Some(e) => Some((j + k, e))
    case None => if k == 0 then None else TryFrom(t, j, k - 1)
  }

  /** A header match: the captured name and the index just after the header. */
  datatype Match = Match(name: string, end: nat)

  /** The match of the header pattern that starts at index `p`, if any. */
  function HeaderAt(t: string, p: nat): (r: Option<Match>)
    ensures r.Some? ==> OccursAt(t, Marker, p) && p + 92 < r.value.end <= |t|
  {
    MarkerChars();
    if OccursAt(t, Marker, p) then
      var j := p + 92;
      match TryFrom(t, j, LeadingSpace(t[j..]))
      case Some((s, e)) => Some(Match(t[s..e], e + 81))
      case None => None
    else None
  }

  /** The header pattern tried at every index of `t`. */
  function Headers(t: string): (table: seq<Option<Match>>)
    ensures |table| == |t|
  {
    seq(|t|, p requires 0 <= p < |t| => HeaderAt(t, p))
  }

  /** A table with one entry per index of `t`, where every match ends after the
      index it starts at and within the text. */
  predicate Advancing(t: string, header: seq<Option<Match>>) {
    && |header| == |t|
    && forall p :: 0 <= p < |t| && header[p].Some? ==> p < header[p].value.end <= |t|
  }

  lemma HeadersAdvance(t: string)
    ensures Advancing(t, Headers(t))
  {
  }

  /** `re.split` from index `pos` on, with the current piece starting at `start`,
      where `header[p]` is the match of the pattern at index `p`: the pieces between
      matches alternate with the captured names. */
  function SplitFrom(t: string, header: seq<Option<Match>>, start: nat, pos: nat): (r: seq<string>)
    requires Advancing(t, header) && start <= pos <= |t|
    ensures |r| % 2 == 1
    decreases |t| - pos
  {
    if pos == |t| then [t[start..]]
    else
      match header[pos]
      case Some(m) => [t[start..pos], m.name] + SplitFrom(t, header, m.end, m.end)
      case None => SplitFrom(t, header, start, pos + 1)
  }

  /** `re.split(pattern, t)`: the text before the first header, then for every
      header its captured name and the text up to the next header. */
  function RegexSplit(t: string): seq<string> {
    HeadersAdvance(t);
    SplitFrom(t, Headers(t), 0, 0)
  }

  /** One repository as `parse_repositories` yields it. */
  datatype Repo = Repo(name: string, content: string)

  /** The records built from index `i` of the split on: the stripped name at `i`
      paired with the content at `i + 1`, every second index. */
  function PairsFrom(parts: seq<string>, i: nat): (r: seq<Repo>)
    decreases |parts| - i
  {
    if i + 1 < |parts| then [Repo(Strip(parts[i]), parts[i + 1])] + PairsFrom(parts, i + 2) else []
  }

  /** `parse_repositories` as a function of the text. */
  function Parse(text: string): seq<Repo> {
    PairsFrom(RegexSplit(text), 1)
  }

  /** `parse_repositories`: splits the dump and collects the (name, content) pairs,
      the leading text before the first header being dropped. */
  method ParseRepositories(text: string) returns (repos: seq<Repo>)
    ensures repos == Parse(text)
  {
    var sections := RegexSplit(text);
    repos := [];
    var i := 1;
    while i < |sections|
      invariant 1 <= i
      invariant repos + PairsFrom(sections, i) == PairsFrom(sections, 1)
      decreases |sections| - i
    {
      if i + 1 < |sections| {
        repos := repos + [Repo(Strip(sections[i]), sections[i + 1])];
      }
      i := i + 2;
    }
  }

  // ---------------------------------------------------------------------------
  // Where no header can start

  /** A header cannot start where one of its characters is missing. */
  lemma ClearAt(t: string, p: nat, d: nat)
    requires d < 92 && p + d < |t| && t[p + d] != Marker[d]
    ensures !OccursAt(t, Marker, p)
  {
    MarkerChars();
    if p + 92 <= |t| {
      assert t[p..p + 92][d] == t[p + d];
    }
  }

  /** A newline that is not followed by 'R' rules out every header starting within
      the 92 characters before it, itself included. */
  lemma NewlineGuard(t: string, q: nat)
    requires q < |t| && t[q] == '\n' && (q + 1 < |t| ==> t[q + 1] != 'R')
    ensures forall p: nat :: q < p + 92 && p <= q ==> !OccursAt(t, Marker, p)
  {
    MarkerChars();
    forall p: nat | q < p + 92 && p <= q ensures !OccursAt(t, Marker, p) {
      if q - p != 80 {
        ClearAt(t, p, q - p);
      } else if q + 1 < |t| {
        ClearAt(t, p, 81);
      }
    }
  }

  /** No header starts in a line, nor at the newline ending it, when that newline is
      not followed by 'R'. */
  lemma LineClear(t: string, a: nat, b: nat)
    requires a <= b < |t| && t[b] == '\n' && (b + 1 < |t| ==> t[b + 1] != 'R')
    requires forall i :: a <= i < b ==> t[i] != '\n'
    ensures forall p: nat :: a <= p <= b ==> !OccursAt(t, Marker, p)
  {
    NewlineGuard(t, b);
    forall p: nat | a <= p <= b ensures !OccursAt(t, Marker, p) {
      if p + 80 < b {
        ClearAt(t, p, 80);
      }
    }
  }

  /** No header starts inside a piece of text that holds none, when the piece is
      followed by the end of the text or by a newline not followed by 'R'. */
  lemma RegionClear(t: string, o: nat, u: string)
    requires o + |u| <= |t| && t[o..o + |u|] == u && !Contains(u, Marker)
    requires o + |u| < |t| ==> t[o + |u|] == '\n' && (o + |u| + 1 < |t| ==> t[o + |u| + 1] != 'R')
    ensures forall p: nat :: o <= p < o + |u| ==> !OccursAt(t, Marker, p)
  {
    MarkerChars();
    if o + |u| < |t| {
      NewlineGuard(t, o + |u|);
    }
    forall p: nat | o <= p < o + |u| ensures !OccursAt(t, Marker, p) {
      if p + 92 <= o + |u| {
        assert !OccursAt(u, Marker, p - o);
        SliceOfSlice(t, o, o + |u|, p - o, p - o + 92);
      }
    }
  }

  /** Scanning over indices where no header starts changes nothing. */
  lemma {:induction false} SkipNone(t: string, header: seq<Option<Match>>, start: nat, pos: nat, q: nat)
    requires Advancing(t, header) && start <= pos <= q <= |t|
    requires forall p: nat :: pos <= p < q ==> header[p] == None
    ensures SplitFrom(t, header, start, pos) == SplitFrom(t, header, start, q)
    decreases q - pos
  {
    if pos < q {
      SkipNone(t, header, start, pos + 1, q);
    }
  }

  /** At a match the split emits the piece before it and the captured name, and
      goes on after it. */
  lemma SplitAtMatch(t: string, header: seq<Option<Match>>, start: nat, pos: nat, m: Match)
    requires Advancing(t, header) && start <= pos < |t| && header[pos] == Some(m)
    ensures m.end <= |t|
    ensures SplitFrom(t, header, start, pos) == [t[start..pos], m.name] + SplitFrom(t, header, m.end, m.end)
  {
  }

  /** A text without any header is split into itself alone and yields no repository. */
  lemma NoHeaderNoRepos(t: string)
    requires !Contains(t, Marker)
    ensures RegexSplit(t) == [t]
    ensures Parse(t) == []
  {
    forall p: nat | p < |t| ensures Headers(t)[p] == None {
      assert p <= |t|;
    }
    HeadersAdvance(t);
    SkipNone(t, Headers(t), 0, 0, |t|);
  }

  // ---------------------------------------------------------------------------
  // The match at a repository header written by the fetcher

  /** The name the group captures for a header written with name `n`: the greedy
      `\s*` takes the blank after the colon and the name's leading blanks; for a
      name that is all blank it has to give back all but the last blank. */
  function Captured(n: string): string {
    var padded := " " + n;
    if AllSpace(padded) then [padded[|padded| - 1]] else padded[LeadingSpace(padded)..]
  }

  /** Stripping the captured name gives the written name stripped. */
  lemma CapturedStrip(n: string)
    ensures Strip(Captured(n)) == Strip(n)
  {
    var padded := " " + n;
    assert padded[1..] == n;
    assert AllSpace(padded[..1]);
    StripLeftSkipsSpace(padded, 1);
    if AllSpace(padded) {
      assert AllSpace(n);
      StripOfSpace(n);
      StripOfSpace([padded[|padded| - 1]]);
    } else {
      StripLeftSkipsSpace(padded, LeadingSpace(padded));
    }
  }

  lemma {:induction false} LeadingSpaceAppend(a: string, b: string)
    ensures LeadingSpace(a + b) == if AllSpace(a) then |a| + LeadingSpace(b) else LeadingSpace(a)
    decreases |a|
  {
    if a != [] {
      assert (a + b)[1..] == a[1..] + b;
      LeadingSpaceAppend(a[1..], b);
      if IsSpace(a[0]) {
        assert AllSpace(a) <==> AllSpace(a[1..]) by {
          if AllSpace(a[1..]) {
            forall i | 0 <= i < |a| ensures IsSpace(a[i]) {
              if i > 0 { assert a[i] == a[1..][i - 1]; }
            }
          }
        }
      }
    } else {
      assert a + b == b;
    }
  }

  /** The first newline at or after `s` is at `e`. */
  lemma NewlineAt(t: string, s: nat, e: nat)
    requires s <= e < |t| && t[e] == '\n' && forall i :: s <= i < e ==> t[i] != '\n'
    ensures s + IndexOf(t[s..], '\n') == e
  {
    assert t[s..][e - s] == '\n';
    assert forall k :: 0 <= k < e - s ==> t[s..][k] != '\n' by {
      forall k | 0 <= k < e - s ensures t[s..][k] != '\n' {
        assert t[s..][k] == t[s + k];
      }
    }
  }

  lemma SliceOfSlice(t: string, a: nat, b: nat, c: nat, d: nat)
    requires a <= b <= |t| && c <= d <= b - a
    ensures t[a..b][c..d] == t[a + c..a + d]
  {
    assert forall i :: 0 <= i < d - c ==> t[a..b][c..d][i] == t[a + c + i];
  }

  /** A repository header written with name `n`, without the newline in front of
      it, followed by the blank line after it. */
  function Window(n: string): string {
    Rule + "\nREPOSITORY: " + n + "\n" + Rule + "\n\n"
  }

  /** What the parser needs to know of a header written with name `n` at `p`. */
  predicate WrittenHeader(t: string, p: nat, n: string) {
    && p + 176 + |n| <= |t|
    && OccursAt(t, Marker, p)
    && t[p + 92..p + 93 + |n|] == " " + n
    && t[p + 93 + |n|] == '\n' && t[p + 174 + |n|] == '\n' && t[p + 175 + |n|] == '\n'
    && OccursAt(t, Rule, p + 94 + |n|)
    && (forall i :: p + 92 <= i < p + 93 + |n| ==> t[i] != '\n')
  }

  /** The characters of the window around a header written with name `n`. */
  lemma WindowFacts(t: string, p: nat, n: string)
    requires '\n' !in n && p + 176 + |n| <= |t|
    requires t[p..p + 176 + |n|] == Window(n)
    ensures WrittenHeader(t, p, n)
  {
    MarkerChars();
    var m := |n|;
    var w := Window(n);
    var v := t[p..p + 176 + m];
    assert w[..92] == Marker;
    SliceOfSlice(t, p, p + 176 + m, 0, 92);
    assert w[92..93 + m] == " " + n;
    SliceOfSlice(t, p, p + 176 + m, 92, 93 + m);
    assert w[94 + m..174 + m] == Rule;
    SliceOfSlice(t, p, p + 176 + m, 94 + m, 174 + m);
    assert t[p + 93 + m] == v[93 + m] == w[93 + m];
    assert t[p + 174 + m] == v[174 + m] == w[174 + m];
    assert t[p + 175 + m] == v[175 + m] == w[175 + m];
    forall i | p + 92 <= i < p + 93 + m ensures t[i] != '\n' {
      assert t[i] == t[p + 92..p + 93 + m][i - (p + 92)];
    }
  }

  /** After "REPOSITORY:" come the blank, the name, a newline and a row of '=': the
      whitespace run covers the blank and the name's leading blanks, or, for a blank
      name, also the newline. */
  lemma SpaceRunAtHeader(t: string, p: nat, n: string)
    requires WrittenHeader(t, p, n)
    ensures LeadingSpace(t[p + 92..]) == if AllSpace(" " + n) then |n| + 2 else LeadingSpace(" " + n)
  {
    HeaderTail(t, p, n);
    SpaceRun(" " + n, t[p + 94 + |n|..]);
  }

  /** What follows "REPOSITORY:" in a written header: the blank, the name, a newline,
      then the row of '=' whose first character is not blank. */
  lemma HeaderTail(t: string, p: nat, n: string)
    requires WrittenHeader(t, p, n)
    ensures p + 94 + |n| < |t| && !IsSpace(t[p + 94 + |n|])
    ensures t[p + 92..] == (" " + n) + ("\n" + t[p + 94 + |n|..])
  {
    var e := p + 93 + |n|;
    assert t[p + 92..] == t[p + 92..e] + t[e..];
    assert t[e..] == [t[e]] + t[e + 1..];
    assert t[e + 1] == t[e + 1..e + 81][0] == Rule[0];
  }

  /** The whitespace run over a blank-prefixed name, a newline and a non-blank. */
  lemma SpaceRun(padded: string, rest: string)
    requires |rest| > 0 && !IsSpace(rest[0])
    ensures LeadingSpace(padded + ("\n" + rest)) == if AllSpace(padded) then |padded| + 1 else LeadingSpace(padded)
  {
    LeadingSpaceAppend(padded, "\n" + rest);
    LeadingSpaceAppend("\n", rest);
  }

  /** At a header written by the fetcher the pattern matches, captures `Captured(n)`
      and ends after the second row of '='. */
  lemma SectionMatch(t: string, p: nat, n: string)
    requires '\n' !in n && p + 176 + |n| <= |t|
    requires t[p..p + 176 + |n|] == Window(n)
    ensures HeaderAt(t, p) == Some(Match(Captured(n), p + 174 + |n|))
  {
    WindowFacts(t, p, n);
    WrittenHeaderMatch(t, p, n);
  }

  lemma WrittenHeaderMatch(t: string, p: nat, n: string)
    requires WrittenHeader(t, p, n)
    ensures HeaderAt(t, p) == Some(Match(Captured(n), p + 174 + |n|))
  {
    var k := CapturedFrom(n);
    WrittenNameTried(t, p, n);
    CapturedSlice(t, p, n);
    HeaderOfTry(t, p, p + 92 + k, p + 93 + |n|);
    SameName(HeaderAt(t, p), t[p + 92 + k..p + 93 + |n|], Captured(n), p + 174 + |n|);
  }

  lemma SameName(m: Option<Match>, a: string, b: string, end: nat)
    requires m == Some(Match(a, end)) && a == b
    ensures m == Some(Match(b, end))
  {
  }

  /** Where the captured name starts within the blank and the name written after
      "REPOSITORY:". */
  function CapturedFrom(n: string): (k: nat)
    ensures k <= |n|
  {
    var padded := " " + n;
    if AllSpace(padded) then |n| else LeadingSpace(padded)
  }

  /** The name the group captures is the text of the header from `CapturedFrom(n)`
      on, up to its newline. */
  lemma CapturedSlice(t: string, p: nat, n: string)
    requires WrittenHeader(t, p, n)
    ensures t[p + 92 + CapturedFrom(n)..p + 93 + |n|] == Captured(n)
  {
    var k := CapturedFrom(n);
    assert t[p + 92 + k..p + 93 + |n|] == t[p + 92..p + 93 + |n|][k..];
  }

  /** The whitespace run, with backtracking, ends where the captured name starts. */
  lemma WrittenNameTried(t: string, p: nat, n: string)
    requires WrittenHeader(t, p, n)
    ensures TryFrom(t, p + 92, LeadingSpace(t[p + 92..])) == Some((p + 92 + CapturedFrom(n), p + 93 + |n|))
  {
    SpaceRunAtHeader(t, p, n);
    if AllSpace(" " + n) {
      BlankNameMatch(t, p, n);
    } else {
      NamedMatch(t, p, n);
    }
  }

  /** Once the marker is there, the match is what the backtracking run finds. */
  lemma HeaderOfTry(t: string, p: nat, s: nat, e: nat)
    requires OccursAt(t, Marker, p) && TryFrom(t, p + 92, LeadingSpace(t[p + 92..])) == Some((s, e))
    ensures HeaderAt(t, p) == Some(Match(t[s..e], e + 81))
  {
  }

  /** For a name with a non-blank character the whole whitespace run is kept and the
      name is captured from its first non-blank character. */
  lemma NamedMatch(t: string, p: nat, n: string)
    requires WrittenHeader(t, p, n) && !AllSpace(" " + n)
    ensures TryFrom(t, p + 92, LeadingSpace(" " + n)) == Some((p + 92 + LeadingSpace(" " + n), p + 93 + |n|))
  {
    var k := LeadingSpace(" " + n);
    LeadingSpaceShort(" " + n);
    NameEndAt(t, p + 92 + k, p + 93 + |n|);
    assert NameEnd(t, p + 92 + k) == Some(p + 93 + |n|);
  }

  /** A string that is not all blank has a non-blank character after its leading
      blanks. */
  lemma LeadingSpaceShort(s: string)
    requires !AllSpace(s)
    ensures LeadingSpace(s) < |s|
  {
    assert s[..|s|] == s;
  }

  /** The lazy name tried at `s` ends at the first newline `e`, when a row of '='
      follows it. */
  lemma NameEndAt(t: string, s: nat, e: nat)
    requires s < e < |t| && t[e] == '\n' && OccursAt(t, Rule, e + 1)
    requires forall i :: s <= i < e ==> t[i] != '\n'
    ensures NameEnd(t, s) == Some(e)
  {
    NewlineAt(t, s, e);
  }

  /** For a blank name the whitespace run has to give back the newline and the name's
      last blank, which then becomes the captured name. */
  lemma BlankNameMatch(t: string, p: nat, n: string)
    requires WrittenHeader(t, p, n)
    ensures TryFrom(t, p + 92, |n| + 2) == Some((p + 92 + |n|, p + 93 + |n|))
  {
    MarkerChars();
    var m := |n|;
    var j := p + 92;
    var e := p + 93 + m;
    // with every blank taken the name would start in the row of '=' and end before
    // the blank line, which is not followed by a row of '='
    assert forall i :: e + 1 <= i < p + 174 + m ==> t[i] != '\n' by {
      forall i | e + 1 <= i < p + 174 + m ensures t[i] != '\n' {
        assert t[i] == t[e + 1..e + 81][i - (e + 1)];
      }
    }
    assert t[e + 1] == t[e + 1..e + 81][0];
    NewlineAt(t, e + 1, p + 174 + m);
    assert !OccursAt(t, Rule, p + 175 + m) by {
      if p + 175 + m + 80 <= |t| {
        assert t[p + 175 + m..p + 255 + m][0] != Rule[0];
      }
    }
    assert NameEnd(t, j + m + 2) == None;
    assert NameEnd(t, j + m + 1) == None;
    assert t[j + m] == t[p + 92..p + 93 + m][m];
    NewlineAt(t, j + m, e);
    assert NameEnd(t, j + m) == Some(e);
    var found: (nat, nat) := (j + m, e);
    assert TryFrom(t, j, m) == Some(found);
    assert TryFrom(t, j, m + 1) == TryFrom(t, j, m);
  }

  // ---------------------------------------------------------------------------
  // Round trip: parsing the dump the fetcher writes

  /** Dumps the parser reads back faithfully: no newline in the user or in a
      repository name, and no header inside the file blocks of a repository. */
  predicate Parsable(user: string, repos: seq<RepoDump>) {
    && '\n' !in user
    && forall i :: 0 <= i < |repos| ==> '\n' !in repos[i].name && !Contains(FilesText(repos[i].files), Marker)
  }

  /** The split the parser computes for a text made of `pre` followed by the
      sections of `repos`. */
  function ExpectedSplit(pre: string, repos: seq<RepoDump>): (r: seq<string>)
    ensures |r| >= 1
    decreases |repos|
  {
    if repos == [] then [pre]
    else [pre + "\n", Captured(repos[0].name)] + ExpectedSplit("\n\n" + FilesText(repos[0].files), repos[1..])
  }

  /** The expected split starts with the text in front, followed by the newline
      that opens the first header when there is one. */
  lemma ExpectedHead(pre: string, repos: seq<RepoDump>)
    ensures ExpectedSplit(pre, repos)[0] == if repos == [] then pre else pre + "\n"
  {
  }

  /** What the parser yields for the repositories of a dump: each written name
      stripped, with its file blocks as content (two newlines in front, and the
      newline that opens the next header at the end, except for the last). */
  function ParsedRepos(repos: seq<RepoDump>): (r: seq<Repo>)
    ensures |r| == |repos|
    decreases |repos|
  {
    if repos == [] then []
    else
      [Repo(Strip(repos[0].name), "\n\n" + FilesText(repos[0].files) + (if |repos| > 1 then "\n" else ""))]
      + ParsedRepos(repos[1..])
  }

  /** A repository section begins with a newline, then the header written for its
      name, then its file blocks. */
  lemma SectionStart(r: RepoDump)
    ensures |RepoSection(r)| == 177 + |r.name| + |FilesText(r.files)|
    ensures RepoSection(r)[0] == '\n' && RepoSection(r)[1] == '='
    ensures RepoSection(r)[1..177 + |r.name|] == Window(r.name)
    ensures RepoSection(r)[175 + |r.name|..] == "\n\n" + FilesText(r.files)
  {
    assert RepoSection(r) == "\n" + Window(r.name) + FilesText(r.files);
    WindowChars(r.name);
    NewlineFramed(Window(r.name), FilesText(r.files));
  }

  lemma WindowChars(n: string)
    ensures |Window(n)| == 176 + |n| && Window(n)[0] == '='
    ensures Window(n)[174 + |n|..] == "\n\n"
  {
    MarkerChars();
  }

  lemma NewlineFramed(w: string, f: string)
    requires |w| >= 2
    ensures var s := "\n" + w + f;
      && |s| == 1 + |w| + |f| && s[0] == '\n' && s[1] == w[0]
      && s[1..1 + |w|] == w && s[|w| - 1..] == w[|w| - 2..] + f
  {
  }

  /** The text from index `o` on is made of the sections of `repos`, one after the
      other. */
  predicate Tiled(t: string, o: nat, repos: seq<RepoDump>)
    decreases |repos|
  {
    if repos == [] then o == |t|
    else
      var o' := o + |RepoSection(repos[0])|;
      o' <= |t| && t[o..o'] == RepoSection(repos[0]) && Tiled(t, o', repos[1..])
  }

  lemma {:induction false} TiledOut(t: string, o: nat, repos: seq<RepoDump>)
    requires o <= |t| && t[o..] == Sections(repos)
    ensures Tiled(t, o, repos)
    decreases |repos|
  {
    if repos != [] {
      var o' := o + |RepoSection(repos[0])|;
      assert t[o..] == RepoSection(repos[0]) + Sections(repos[1..]);
      assert t[o..o'] == t[o..][..o' - o];
      assert t[o'..] == t[o..][o' - o..];
      TiledOut(t, o', repos[1..]);
    }
  }

  /** Tiled sections are empty or begin with a newline and a row of '='. */
  lemma TiledStart(t: string, o: nat, repos: seq<RepoDump>)
    requires Tiled(t, o, repos)
    ensures o <= |t|
    ensures o < |t| ==> o + 1 < |t| && t[o] == '\n' && t[o + 1] == '='
  {
    if repos != [] {
      var o' := o + |RepoSection(repos[0])|;
      SectionStart(repos[0]);
      assert t[o] == t[o..o'][0] && t[o + 1] == t[o..o'][1];
    }
  }

  /** Where a section for `r` at index `o` ends. */
  function SectionEnd(o: nat, r: RepoDump): nat {
    o + 177 + |r.name| + |FilesText(r.files)|
  }

  /** The characters of one section at index `o`. */
  lemma SectionWindow(t: string, o: nat, r: RepoDump)
    requires o + |RepoSection(r)| <= |t| && t[o..o + |RepoSection(r)|] == RepoSection(r)
    ensures SectionEnd(o, r) == o + |RepoSection(r)| && t[o] == '\n'
    ensures t[o + 1..o + 177 + |r.name|] == Window(r.name)
    ensures t[o + 175 + |r.name|..SectionEnd(o, r)] == "\n\n" + FilesText(r.files)
  {
    SectionStart(r);
    var o' := o + |RepoSection(r)|;
    assert t[o] == t[o..o'][0];
    SliceOfSlice(t, o, o', 1, 177 + |r.name|);
    SliceOfSlice(t, o, o', 175 + |r.name|, o' - o);
  }

  /** What the parser meets in a section for `r` at index `o`: a newline where no
      header starts, the header written for the name, then the blank line and the
      file blocks, where no header starts. */
  ghost predicate SectionAt(t: string, header: seq<Option<Match>>, o: nat, r: RepoDump) {
    var e := o + 175 + |r.name|;
    var o' := SectionEnd(o, r);
    && |header| == |t| && o' <= |t| && t[o] == '\n' && header[o] == None
    && header[o + 1] == Some(Match(Captured(r.name), e))
    && (forall p: nat :: e <= p < o' ==> header[p] == None)
    && t[e..o'] == "\n\n" + FilesText(r.files)
  }

  /** What the parser meets in the text from index `o` on when it holds the
      sections of `repos`. */
  ghost predicate Laid(t: string, header: seq<Option<Match>>, o: nat, repos: seq<RepoDump>)
    decreases |repos|
  {
    if repos == [] then o == |t|
    else SectionAt(t, header, o, repos[0]) && Laid(t, header, SectionEnd(o, repos[0]), repos[1..])
  }

  /** `header` reports, at every index, the match of the header pattern there. */
  ghost predicate Matches(t: string, header: seq<Option<Match>>) {
    && |header| == |t|
    && forall p: nat {:trigger HeaderAt(t, p)} :: p < |t| ==> header[p] == HeaderAt(t, p)
  }

  lemma HeadersMatch(t: string)
    ensures Matches(t, Headers(t))
  {
  }

  /** Tiled sections without a newline in a name and without a header inside the
      file blocks are laid out for the parser. */
  lemma {:induction false} LaidOfTiled(t: string, header: seq<Option<Match>>, o: nat, repos: seq<RepoDump>)
    requires Matches(t, header) && Tiled(t, o, repos)
    requires forall i :: 0 <= i < |repos| ==> '\n' !in repos[i].name && !Contains(FilesText(repos[i].files), Marker)
    ensures Laid(t, header, o, repos)
    decreases |repos|
  {
    if repos != [] {
      SectionLaid(t, header, o, repos);
      LaidOfTiled(t, header, SectionEnd(o, repos[0]), repos[1..]);
    }
  }

  /** The first of tiled sections, as the parser meets it. */
  lemma SectionLaid(t: string, header: seq<Option<Match>>, o: nat, repos: seq<RepoDump>)
    requires Matches(t, header) && repos != [] && Tiled(t, o, repos)
    requires '\n' !in repos[0].name && !Contains(FilesText(repos[0].files), Marker)
    ensures SectionAt(t, header, o, repos[0]) && Tiled(t, SectionEnd(o, repos[0]), repos[1..])
  {
    var r := repos[0];
    var o' := o + |RepoSection(r)|;
    TiledStart(t, o', repos[1..]);
    SectionHeaders(t, header, o, r);
  }

  /** One section at index `o`, followed by nothing or by another section, as the
      parser meets it. */
  lemma SectionHeaders(t: string, header: seq<Option<Match>>, o: nat, r: RepoDump)
    requires Matches(t, header) && '\n' !in r.name && !Contains(FilesText(r.files), Marker)
    requires var o' := o + |RepoSection(r)|;
      && o' <= |t| && t[o..o'] == RepoSection(r)
      && (o' < |t| ==> o' + 1 < |t| && t[o'] == '\n' && t[o' + 1] == '=')
    ensures SectionEnd(o, r) == o + |RepoSection(r)| && SectionAt(t, header, o, r)
  {
    SectionWindow(t, o, r);
    SectionParse(t, header, o, r);
  }

  /** What the parser meets in one section, given its characters. */
  lemma SectionParse(t: string, header: seq<Option<Match>>, o: nat, r: RepoDump)
    requires Matches(t, header) && '\n' !in r.name && !Contains(FilesText(r.files), Marker)
    requires SectionEnd(o, r) <= |t| && t[o] == '\n'
    requires t[o + 1..o + 177 + |r.name|] == Window(r.name)
    requires t[o + 175 + |r.name|..SectionEnd(o, r)] == "\n\n" + FilesText(r.files)
    requires SectionEnd(o, r) < |t| ==> SectionEnd(o, r) + 1 < |t| && t[SectionEnd(o, r)] == '\n' && t[SectionEnd(o, r) + 1] == '='
    ensures SectionAt(t, header, o, r)
  {
    HeaderWindow(t, header, o, r.name);
    GapHeaders(t, header, o + 175 + |r.name|, SectionEnd(o, r), FilesText(r.files));
  }

  /** No header starts at the newline in front of a written header, and the header
      matches right after it. */
  lemma HeaderWindow(t: string, header: seq<Option<Match>>, o: nat, name: string)
    requires Matches(t, header)
    requires '\n' !in name && o + 177 + |name| <= |t| && t[o] == '\n'
    requires t[o + 1..o + 177 + |name|] == Window(name)
    ensures header[o] == None
    ensures header[o + 1] == Some(Match(Captured(name), o + 175 + |name|))
  {
    MarkerChars();
    ClearAt(t, o, 0);
    SectionMatch(t, o + 1, name);
    assert HeaderAt(t, o) == None;
  }

  /** No header starts in the blank line and the file blocks after a header. */
  lemma GapHeaders(t: string, header: seq<Option<Match>>, e: nat, o': nat, f: string)
    requires Matches(t, header)
    requires e + 2 + |f| == o' <= |t| && t[e..o'] == "\n\n" + f && !Contains(f, Marker)
    requires o' < |t| ==> o' + 1 < |t| && t[o'] == '\n' && t[o' + 1] == '='
    ensures forall p: nat :: e <= p < o' ==> header[p] == None
  {
    GapClear(t, e, o', f);
    forall p: nat | e <= p < o' ensures header[p] == None {
      assert HeaderAt(t, p) == None;
    }
  }

  /** Splitting from the start of laid-out sections, with the current piece starting
      at `start`, gives the expected split. */
  lemma {:induction false} SplitSections(t: string, header: seq<Option<Match>>, start: nat, o: nat, repos: seq<RepoDump>)
    requires Advancing(t, header) && start <= o && Laid(t, header, o, repos)
    ensures SplitFrom(t, header, start, o) == ExpectedSplit(t[start..o], repos)
    decreases |repos|
  {
    if repos == [] {
      SplitRest(t, header, start, o);
    } else {
      LaidHead(t, header, o, repos);
      SplitSections(t, header, o + 175 + |repos[0].name|, SectionEnd(o, repos[0]), repos[1..]);
      SplitSectionsStep(t, header, start, o, repos);
    }
  }

  /** The first of laid-out sections, and the sections after it. */
  lemma LaidHead(t: string, header: seq<Option<Match>>, o: nat, repos: seq<RepoDump>)
    requires Laid(t, header, o, repos) && repos != []
    ensures SectionAt(t, header, o, repos[0]) && o + 175 + |repos[0].name| <= SectionEnd(o, repos[0])
    ensures Laid(t, header, SectionEnd(o, repos[0]), repos[1..])
  {
  }

  /** Past the last section the split holds the rest of the text. */
  lemma SplitRest(t: string, header: seq<Option<Match>>, start: nat, o: nat)
    requires Advancing(t, header) && start <= o == |t|
    ensures SplitFrom(t, header, start, o) == ExpectedSplit(t[start..o], [])
  {
    assert t[start..o] == t[start..];
  }

  /** One more section in front of sections split as expected. */
  lemma SplitSectionsStep(t: string, header: seq<Option<Match>>, start: nat, o: nat, repos: seq<RepoDump>)
    requires Advancing(t, header) && start <= o && repos != [] && SectionAt(t, header, o, repos[0])
    requires SplitFrom(t, header, o + 175 + |repos[0].name|, SectionEnd(o, repos[0]))
      == ExpectedSplit(t[o + 175 + |repos[0].name|..SectionEnd(o, repos[0])], repos[1..])
    ensures SplitFrom(t, header, start, o) == ExpectedSplit(t[start..o], repos)
  {
    SplitSection(t, header, start, o, repos[0]);
    SectionGap(t, header, o, repos[0]);
    ExpectedStep(t[start..o], repos, t[o + 175 + |repos[0].name|..SectionEnd(o, repos[0])]);
  }

  lemma SectionGap(t: string, header: seq<Option<Match>>, o: nat, r: RepoDump)
    requires SectionAt(t, header, o, r)
    ensures o + 175 + |r.name| <= SectionEnd(o, r) <= |t|
    ensures t[o + 175 + |r.name|..SectionEnd(o, r)] == "\n\n" + FilesText(r.files)
  {
  }

  /** The split over one section as the parser meets it. */
  lemma SplitSection(t: string, header: seq<Option<Match>>, start: nat, o: nat, r: RepoDump)
    requires Advancing(t, header) && start <= o && SectionAt(t, header, o, r)
    ensures SplitFrom(t, header, start, o)
      == [t[start..o] + "\n", Captured(r.name)] + SplitFrom(t, header, o + 175 + |r.name|, SectionEnd(o, r))
  {
    SplitStep(t, header, start, o, Match(Captured(r.name), o + 175 + |r.name|), SectionEnd(o, r));
  }

  lemma ExpectedStep(pre: string, repos: seq<RepoDump>, gap: string)
    requires repos != [] && gap == "\n\n" + FilesText(repos[0].files)
    ensures ExpectedSplit(pre, repos) == [pre + "\n", Captured(repos[0].name)] + ExpectedSplit(gap, repos[1..])
  {
  }

  /** The split over a newline, the header after it and a stretch where no header
      starts. */
  lemma SplitStep(t: string, header: seq<Option<Match>>, start: nat, o: nat, m: Match, o': nat)
    requires Advancing(t, header) && start <= o && o + 1 < |t| && t[o] == '\n' && header[o] == None
    requires header[o + 1] == Some(m) && m.end <= o' <= |t|
    requires forall p: nat :: m.end <= p < o' ==> header[p] == None
    ensures SplitFrom(t, header, start, o) == [t[start..o] + "\n", m.name] + SplitFrom(t, header, m.end, o')
  {
    SkipNone(t, header, start, o, o + 1);
    SplitAtMatch(t, header, start, o + 1, m);
    SkipNone(t, header, m.end, m.end, o');
    SliceExtend(t, start, o);
  }

  lemma SliceExtend(t: string, a: nat, b: nat)
    requires a <= b < |t|
    ensures t[a..b + 1] == t[a..b] + [t[b]]
  {
  }

  /** No header starts between the end of a matched header and the text after the
      section, which is empty or begins with a newline and a row of '='. */
  lemma GapClear(t: string, e: nat, o': nat, f: string)
    requires e + 2 + |f| == o' <= |t| && t[e..o'] == "\n\n" + f && !Contains(f, Marker)
    requires o' < |t| ==> o' + 1 < |t| && t[o'] == '\n' && t[o' + 1] == '='
    ensures forall p: nat :: e <= p < o' ==> !OccursAt(t, Marker, p)
  {
    MarkerChars();
    assert t[e] == t[e..o'][0] && t[e + 1] == t[e..o'][1];
    ClearAt(t, e, 0);
    ClearAt(t, e + 1, 0);
    assert t[e + 2..o'] == f by {
      assert t[e + 2..o'] == t[e..o'][2..];
    }
    RegionClear(t, e + 2, f);
  }

  /** The characters of the dump's first lines. */
  lemma DumpHeaderChars(user: string)
    requires '\n' !in user
    ensures var h := DumpHeader(user); var u := |user|;
      && |h| == 114 + u
      && h[24] == '\n' && h[25] == 'U' && h[31 + u] == '\n' && h[32 + u] == '='
      && h[112 + u] == '\n' && h[113 + u] == '\n'
      && (forall i :: 0 <= i < 24 ==> h[i] != '\n')
      && (forall i :: 25 <= i < 31 + u ==> h[i] != '\n')
      && (forall i :: 32 + u <= i < 112 + u ==> h[i] != '\n')
  {
    var u := |user|;
    var a := "GitHub Repositories Dump\n" + "User: ";
    var h := DumpHeader(user);
    assert h == a + user + "\n" + Rule + "\n\n";
    assert |a| == 31;
    forall i | 25 <= i < 31 + u ensures h[i] != '\n' {
      if i >= 31 { assert h[i] == user[i - 31]; }
    }
    forall i | 32 + u <= i < 112 + u ensures h[i] != '\n' {
      assert h[i] == Rule[i - (32 + u)];
    }
  }

  /** No header starts inside the dump's first lines. */
  lemma HeaderLinesClear(t: string, user: string)
    requires '\n' !in user && |DumpHeader(user)| <= |t| && t[..|DumpHeader(user)|] == DumpHeader(user)
    ensures forall p: nat :: p < |DumpHeader(user)| ==> Headers(t)[p] == None
  {
    HeaderLinesNoMarker(t, user);
    forall p: nat | p < |DumpHeader(user)| ensures Headers(t)[p] == None {
      assert !OccursAt(t, Marker, p);
    }
  }

  /** The marker occurs nowhere inside the dump's first lines. */
  lemma HeaderLinesNoMarker(t: string, user: string)
    requires '\n' !in user && |DumpHeader(user)| <= |t| && t[..|DumpHeader(user)|] == DumpHeader(user)
    ensures forall p: nat :: p < |DumpHeader(user)| ==> !OccursAt(t, Marker, p)
  {
    DumpHeaderChars(user);
    var u := |user|;
    var h := DumpHeader(user);
    assert forall i :: 0 <= i < |h| ==> t[i] == h[i] by {
      forall i | 0 <= i < |h| ensures t[i] == h[i] {
        assert t[i] == t[..|h|][i];
      }
    }
    LineClear(t, 0, 24);
    LineClear(t, 25, 31 + u);
    LineClear(t, 32 + u, 112 + u);
    MarkerChars();
    ClearAt(t, 113 + u, 0);
  }

  /** The records of an expected split are the parsed repositories. */
  lemma {:induction false} PairsOfExpected(pre: string, repos: seq<RepoDump>)
    ensures PairsFrom(ExpectedSplit(pre, repos), 1) == ParsedRepos(repos)
    decreases |repos|
  {
    if repos != [] {
      var r := repos[0];
      var gap := "\n\n" + FilesText(r.files);
      var tail := ExpectedSplit(gap, repos[1..]);
      ExpectedStep(pre, repos, gap);
      PairsCons(pre + "\n", Captured(r.name), tail);
      ExpectedHead(gap, repos[1..]);
      assert tail[0] == gap + (if |repos| > 1 then "\n" else "");
      CapturedStrip(r.name);
      PairsOfExpected(gap, repos[1..]);
    }
  }

  /** The first record of a split is its name at index 1 stripped, paired with the
      piece after it. */
  lemma PairsCons(a: string, b: string, tail: seq<string>)
    requires |tail| >= 1
    ensures PairsFrom([a, b] + tail, 1) == [Repo(Strip(b), tail[0])] + PairsFrom(tail, 1)
  {
    PairsShift(a, b, tail, 1);
  }

  lemma {:induction false} PairsShift(a: string, b: string, tail: seq<string>, i: nat)
    ensures PairsFrom([a, b] + tail, i + 2) == PairsFrom(tail, i)
    decreases |tail| - i
  {
    if i + 1 < |tail| {
      PairsShift(a, b, tail, i + 2);
    }
  }

  /** Parsing the dump written for a user and a list of repositories gives back one
      record per repository, in order, named by the written name stripped of
      surrounding whitespace, holding that repository's file blocks. */
  lemma RoundTrip(user: string, repos: seq<RepoDump>)
    requires Parsable(user, repos)
    ensures RegexSplit(Dump(user, repos)) == ExpectedSplit(DumpHeader(user), repos)
    ensures Parse(Dump(user, repos)) == ParsedRepos(repos)
  {
    var t := Dump(user, repos);
    var h := DumpHeader(user);
    assert t[..|h|] == h && t[|h|..] == Sections(repos);
    TiledOut(t, |h|, repos);
    HeadersMatch(t);
    LaidOfTiled(t, Headers(t), |h|, repos);
    HeaderLinesClear(t, user);
    HeadersAdvance(t);
    SkipNone(t, Headers(t), 0, 0, |h|);
    SplitSections(t, Headers(t), 0, |h|, repos);
    assert t[0..|h|] == h;
    PairsOfExpected(h, repos);
  }

  /** The file `fetch_github_repo` returns parses back into the repositories it
      could clone, in plan order, each under its stripped name with its file
      blocks: at most five for a profile URL, at most the one named otherwise. */
  lemma FetchedDumpParses(url: string, listing: seq<Listed>, clone: Listed -> Option<seq<WalkedFile>>)
    requires ExtractUsernameAndRepo(url).Ok?
    requires Parsable(ExtractUsernameAndRepo(url).value.user, ClonedDumps(ReposToProcess(ExtractUsernameAndRepo(url).value, listing), clone))
    ensures var t := ExtractUsernameAndRepo(url).value;
      var dumps := ClonedDumps(ReposToProcess(t, listing), clone);
      var parsed := Parse(FetchResult(t, listing, clone).text);
      && parsed == ParsedRepos(dumps)
      && |parsed| <= (if t.repo == "ALL" then MaxRepos else 1)
      && forall i :: 0 <= i < |parsed| ==> parsed[i].name == Strip(dumps[i].name)
  {
    var t := ExtractUsernameAndRepo(url).value;
    var dumps := ClonedDumps(ReposToProcess(t, listing), clone);
    RoundTrip(t.user, dumps);
    forall i | 0 <= i < |dumps|
      ensures ParsedRepos(dumps)[i].name == Strip(dumps[i].name)
    {
      ParsedName(dumps, i);
    }
  }

  /** Parsed repository `i` carries the stripped name of dumped repository `i`. */
  lemma {:induction false} ParsedName(repos: seq<RepoDump>, i: nat)
    requires i < |repos|
    ensures ParsedRepos(repos)[i].name == Strip(repos[i].name)
    decreases |repos|
  {
    if i > 0 {
      ParsedName(repos[1..], i - 1);
    }
  }
}

/** The pure part of the repository fetcher: which files and directories go into the
    dump, how a GitHub URL names a user and a repository, and the text of the dump's
    section headers. */
module RepoFetch {
  import opened Text

  /** File names that are never dumped, compared with the LOWER-CASED file name. */
  const ExcludeFiles: seq<string> := [
    "package-lock.json", "yarn.lock", "pnpm-lock.yaml", "bun.lockb",
    "Cargo.lock", "Gemfile.lock", "composer.lock", "poetry.lock",
    "Pipfile.lock", "go.sum", "Podfile.lock", ".DS_Store", "Thumbs.db"
  ]

  /** Build and configuration files that are always dumped. */
  const ImportantFilenames: seq<string> := [
    "dockerfile", "makefile", "procfile", "gemfile",
    "package.json", "requirements.txt", "pom.xml",
    "build.gradle", "build.sbt", "cargo.toml", "go.mod",
    "composer.json", "setup.py", "pyproject.toml", "manage.py",
    "webpack.config.js", "tsconfig.json", "next.config.js",
    "next.config.ts", "tailwind.config.js", "tailwind.config.ts",
    "vite.config.js", "vite.config.ts"
  ]

  /** Directory names whose contents are never dumped. */
  const ExcludeDirs: seq<string> := [
    "node_modules", ".next", ".nuxt", "dist", "build", "out",
    ".output", ".cache", ".parcel-cache", ".eslintcache",
    ".vscode", ".idea", "__pycache__", ".pytest_cache",
    ".venv", "venv", "env", "virtualenv", ".git",
    ".github/workflows", "target", "vendor"
  ]

  /** Extensions (with their dot) of the files dumped by extension. */
  const ValidExtensions: seq<string> := [
    ".py", ".js", ".java", ".cpp", ".h", ".md", ".txt",
    ".json", ".yml", ".yaml", ".toml", ".rs", ".go",
    ".html", ".css", ".ts", ".jsx", ".tsx", ".c", ".hpp",
    ".cs", ".php", ".rb", ".swift", ".kt", ".scala", ".sh",
    ".bat", ".ps1", ".sql", ".xml", ".csv", ".ini", ".cfg",
    ".conf", ".gitignore", ".env", ".dockerfile"
  ]

  /** `x in names` for the name lists above, which the fetcher holds as sets and only
      ever tests for membership: one comparison after the other. */
  predicate OneOf(x: string, names: seq<string>)
    decreases |names|
  {
    names != [] && (x == names[0] || OneOf(x, names[1..]))
  }

  lemma {:induction false} OneOfIff(x: string, names: seq<string>)
    ensures OneOf(x, names) <==> x in names
    decreases |names|
  {
    if names != [] {
      OneOfIff(x, names[1..]);
      assert names == [names[0]] + names[1..];
    }
  }

  // ---------------------------------------------------------------------------
  // os.path.splitext

  /** Index of the last `c` in `s`, or -1. */
  function LastIndexOf(s: string, c: char): (r: int)
    ensures -1 <= r < |s|
    ensures r >= 0 ==> s[r] == c
    ensures forall j :: r < j < |s| ==> s[j] != c
    decreases |s|
  {
    if |s| == 0 then -1
    else if s[|s| - 1] == c then |s| - 1
    else LastIndexOf(s[..|s| - 1], c)
  }

  /** The extension `os.path.splitext` gives on POSIX: from the last dot of the last
      path component, provided that component has something other than dots before
      that dot; otherwise empty. */
  function Extension(p: string): (ext: string)
    ensures |ext| <= |p| && ext == p[|p| - |ext|..]
    ensures ext != [] ==> ext[0] == '.' && '.' !in ext[1..] && '/' !in ext
  {
    var sep := LastIndexOf(p, '/');
    var dot := LastIndexOf(p, '.');
    if dot > sep && exists i | sep + 1 <= i < dot :: p[i] != '.' then p[dot..] else []
  }

  /** A name made of dots followed by a dot-free stem, such as ".gitignore", ".env" or
      "..hidden", has no extension: its leading dots start the name. */
  lemma DotfileHasNoExtension(dots: nat, stem: string)
    requires dots >= 1 && '.' !in stem && '/' !in stem
    ensures Extension(Repeat('.', dots) + stem) == []
  {
    var p := Repeat('.', dots) + stem;
    var sep := LastIndexOf(p, '/');
    var dot := LastIndexOf(p, '.');
    assert p[dots - 1] == '.';
    assert sep == -1 by {
      forall j | 0 <= j < |p| ensures p[j] != '/' {
        if j >= dots { assert p[j] == stem[j - dots]; }
      }
    }
    assert dot == dots - 1 by {
      forall j | dots - 1 < j < |p| ensures p[j] != '.' {
        assert p[j] == stem[j - dots];
      }
    }
  }

  // ---------------------------------------------------------------------------
  // is_code_file

  /** Whether a file goes into the dump, judged by its name alone. */
  function IsCodeFile(filename: string): bool {
    var lower := Lower(filename);
    if OneOf(lower, ExcludeFiles) then false
    else if OneOf(lower, ImportantFilenames) then true
    else if Contains(lower, "dockerfile") || Contains(lower, "makefile") then true
    else OneOf(Extension(lower), ValidExtensions)
  }

  /** The decision ignores letter case. */
  lemma CodeFileIgnoresCase(filename: string)
    ensures IsCodeFile(Lower(filename)) == IsCodeFile(filename)
  {
    LowerIdempotent(filename);
  }

  /** A name is accepted exactly when it is not excluded and is important, names a
      Dockerfile or Makefile, or has a valid extension; in particular an excluded
      name is rejected whatever its extension. */
  lemma CodeFileCases(filename: string)
    ensures var lower := Lower(filename);
      IsCodeFile(filename) <==>
        lower !in ExcludeFiles &&
        (lower in ImportantFilenames || Contains(lower, "dockerfile") || Contains(lower, "makefile")
         || Extension(lower) in ValidExtensions)
  {
    CodeFileLists(Lower(filename));
  }

  lemma CodeFileLists(lower: string)
    ensures OneOf(lower, ExcludeFiles) <==> lower in ExcludeFiles
    ensures OneOf(lower, ImportantFilenames) <==> lower in ImportantFilenames
    ensures OneOf(Extension(lower), ValidExtensions) <==> Extension(lower) in ValidExtensions
  {
    OneOfIff(lower, ExcludeFiles);
    OneOfIff(lower, ImportantFilenames);
    OneOfIff(Extension(lower), ValidExtensions);
  }

  /** The extension of a name without '/' is its last dot and what follows, when
      something other than dots stands before that dot. */
  lemma ExtensionOfName(stem: string, ext: string)
    requires '/' !in stem && '/' !in ext && '.' !in ext
    requires exists i :: 0 <= i < |stem| && stem[i] != '.'
    ensures Extension(stem + "." + ext) == "." + ext
  {
    var p := stem + "." + ext;
    assert p[|stem|] == '.';
    assert LastIndexOf(p, '/') == -1 by {
      forall j | 0 <= j < |p| ensures p[j] != '/' {
        if j < |stem| { assert p[j] == stem[j]; }
        else if j > |stem| { assert p[j] == ext[j - |stem| - 1]; }
      }
    }
    assert LastIndexOf(p, '.') == |stem| by {
      forall j | |stem| < j < |p| ensures p[j] != '.' {
        assert p[j] == ext[j - |stem| - 1];
      }
    }
    var i :| 0 <= i < |stem| && stem[i] != '.';
    assert p[i] == stem[i];
    assert p[|stem|..] == "." + ext;
  }

  /** A lock file is rejected although ".json" is a valid extension. */
  lemma LockFileRejected()
    ensures Extension("package-lock.json") == ".json" && ".json" in ValidExtensions
    ensures !IsCodeFile("package-lock.json")
  {
    LockFileExtension();
    LockFileExcluded();
    JsonIsValid();
  }

  lemma LockFileExcluded()
    ensures !IsCodeFile("package-lock.json")
  {
    LowerUnchanged("package-lock.json");
    ExcludedRejected("package-lock.json");
  }

  lemma JsonIsValid()
    ensures ".json" in ValidExtensions
  {
  }

  lemma LockFileExtension()
    ensures Extension("package-lock.json") == ".json"
  {
    assert "package-lock"[0] != '.';
    ExtensionOfName("package-lock", "json");
    assert "package-lock.json" == "package-lock" + "." + "json";
  }

  /** A name whose lower-cased form is excluded is rejected. */
  lemma ExcludedRejected(filename: string)
    requires Lower(filename) in ExcludeFiles
    ensures !IsCodeFile(filename)
  {
    OneOfIff(Lower(filename), ExcludeFiles);
  }

  /** The mixed-case entries of the exclusion set can never equal a lower-cased
      name, so "Cargo.lock" is not excluded by name: it is rejected only because
      ".lock" is not a valid extension. */
  lemma MixedCaseExclusionsNeverMatch(filename: string)
    ensures Lower(filename) != "Cargo.lock" && Lower(filename) != "Gemfile.lock"
    ensures Lower(filename) != "Pipfile.lock" && Lower(filename) != "Podfile.lock"
    ensures Lower(filename) != ".DS_Store" && Lower(filename) != "Thumbs.db"
  {
    if |filename| > 2 {
      assert !('A' <= Lower(filename)[0] <= 'Z') && !('A' <= Lower(filename)[1] <= 'Z');
    }
  }

  /** Any name that is not excluded and mentions a Dockerfile or Makefile in any
      letter case is accepted, whatever its extension. */
  lemma BuildFilesAccepted(prefix: string, suffix: string)
    requires Lower(prefix + "Dockerfile" + suffix) !in ExcludeFiles
    ensures IsCodeFile(prefix + "Dockerfile" + suffix)
  {
    DockerfileMentioned(prefix, suffix);
    OneOfIff(Lower(prefix + "Dockerfile" + suffix), ExcludeFiles);
  }

  lemma DockerfileMentioned(prefix: string, suffix: string)
    ensures Contains(Lower(prefix + "Dockerfile" + suffix), "dockerfile")
  {
    var name := prefix + "Dockerfile" + suffix;
    var lower := Lower(name);
    assert OccursAt(lower, "dockerfile", |prefix|) by {
      assert lower[|prefix|..|prefix| + 10] == "dockerfile" by {
        forall k | 0 <= k < 10 ensures lower[|prefix| + k] == "dockerfile"[k] {
          assert name[|prefix| + k] == "Dockerfile"[k];
        }
      }
    }
  }

  /** A dotfile such as ".gitignore" or ".env" is rejected unless some earlier rule
      accepts it, although ".gitignore" and ".env" are listed as valid extensions. */
  lemma DotfileRejected(stem: string)
    requires '.' !in stem && '/' !in stem && stem != []
    requires Lower("." + stem) !in ImportantFilenames
    requires !Contains(Lower("." + stem), "dockerfile") && !Contains(Lower("." + stem), "makefile")
    ensures !IsCodeFile("." + stem)
  {
    DotfileWithoutExtension(stem);
    EmptyNotValid();
    CodeFileLists(Lower("." + stem));
  }

  lemma EmptyNotValid()
    ensures "" !in ValidExtensions
  {
  }

  lemma DotfileWithoutExtension(stem: string)
    requires '.' !in stem && '/' !in stem
    ensures Extension(Lower("." + stem)) == []
  {
    var lower := Lower("." + stem);
    assert lower == "." + Lower(stem);
    assert Repeat('.', 1) == ".";
    forall j | 0 <= j < |Lower(stem)| ensures Lower(stem)[j] != '.' && Lower(stem)[j] != '/' {
      assert stem[j] != '.' && stem[j] != '/';
    }
    DotfileHasNoExtension(1, Lower(stem));
  }

  // ---------------------------------------------------------------------------
  // should_skip_directory

  /** The components that `pathlib.PurePosixPath(p).parts` yields besides the root:
      the '/'-separated pieces, without the empty ones and without ".". */
  function NamedParts(pieces: seq<string>): seq<string>
    decreases |pieces|
  {
    if pieces == [] then []
    else if pieces[0] == [] || pieces[0] == "." then NamedParts(pieces[1..])
    else [pieces[0]] + NamedParts(pieces[1..])
  }

  /** The named components are exactly the pieces that are neither empty nor ".". */
  lemma {:induction false} NamedPartsMembers(pieces: seq<string>)
    ensures forall x :: x in NamedParts(pieces) <==> x in pieces && x != [] && x != "."
    decreases |pieces|
  {
    if pieces != [] {
      NamedPartsMembers(pieces[1..]);
      assert pieces == [pieces[0]] + pieces[1..];
    }
  }

  /** `PurePosixPath(p).parts`: the root ("/", or "//" for exactly two leading
      slashes) followed by the named components. */
  function PathParts(p: string): seq<string> {
    var root :=
      if |p| >= 1 && p[0] == '/' then
        (if |p| >= 2 && p[1] == '/' && (|p| == 2 || p[2] != '/') then ["//"] else ["/"])
      else [];
    root + NamedParts(SplitOn(p, '/'))
  }

  /** `any(part in names for part in parts)`. */
  predicate AnyIn(parts: seq<string>, names: seq<string>)
    decreases |parts|
  {
    parts != [] && (OneOf(parts[0], names) || AnyIn(parts[1..], names))
  }

  lemma {:induction false} AnyInIff(parts: seq<string>, names: seq<string>)
    ensures AnyIn(parts, names) <==> exists part :: part in parts && part in names
    decreases |parts|
  {
    if parts != [] {
      AnyInIff(parts[1..], names);
      OneOfIff(parts[0], names);
      assert parts == [parts[0]] + parts[1..];
    }
  }

  /** Some component of the path is in `names`. */
  predicate HasPartIn(p: string, names: seq<string>) {
    AnyIn(PathParts(p), names)
  }

  /** `should_skip_directory`: some component of the path is an excluded directory. */
  predicate ShouldSkipDirectory(p: string) {
    HasPartIn(p, ExcludeDirs)
  }

  /** For a list of names at least three characters long, so that none of them is a
      root, "." or the empty name, a path
      has a component in the set exactly when one of its '/'-separated pieces is in
      it. */
  lemma PartsArePieces(p: string, names: seq<string>)
    requires forall k :: 0 <= k < |names| ==> |names[k]| >= 3
    ensures HasPartIn(p, names) <==> exists part :: part in SplitOn(p, '/') && part in names
  {
    var pieces := SplitOn(p, '/');
    AnyInIff(PathParts(p), names);
    NamedPartsMembers(pieces);
  }

  /** A path is skipped exactly when one of its '/'-separated pieces is an excluded
      directory name. */
  lemma SkipIffExcludedPiece(p: string)
    ensures ShouldSkipDirectory(p) <==> exists part :: part in SplitOn(p, '/') && part in ExcludeDirs
  {
    ExcludedNamesAreLong();
    PartsArePieces(p, ExcludeDirs);
  }

  /** The ".github/workflows" entry of the excluded directories can never be a path
      component. */
  lemma WorkflowsNeverPart(p: string)
    ensures ".github/workflows" !in PathParts(p)
  {
    var w := ".github/workflows";
    assert w[7] == '/';
    NoSlashParts(p, w);
  }

  /** No component of a path other than its root holds a '/'. */
  lemma NoSlashParts(p: string, w: string)
    requires w != "/" && w != "//" && '/' in w
    ensures w !in PathParts(p)
  {
    SplitJoin(p, '/');
    NamedPartsMembers(SplitOn(p, '/'));
  }

  lemma ExcludedNamesAreLong()
    ensures forall k :: 0 <= k < |ExcludeDirs| ==> |ExcludeDirs[k]| >= 3
  {
  }

  // ---------------------------------------------------------------------------
  // extract_username_and_repo

  /** The user and repository a URL names; `repo` is "ALL" for a profile URL. */
  datatype Target = Target(user: string, repo: string)

  datatype Outcome<T> = Ok(value: T) | InvalidUrl

  /** The '/'-separated segments left after removing every "https://", then every
      "http://", then the trailing slashes. */
  function UrlSegments(url: string): seq<string> {
    SplitOn(TrimEnd(RemoveAll(RemoveAll(url, "https://"), "http://"), '/'), '/')
  }

  /** `extract_username_and_repo`; the `ValueError` is `InvalidUrl`. */
  function ExtractUsernameAndRepo(url: string): (r: Outcome<Target>)
    ensures r == InvalidUrl <==> |UrlSegments(url)| < 2
    ensures |UrlSegments(url)| == 2 ==> r == Ok(Target(UrlSegments(url)[1], "ALL"))
    ensures |UrlSegments(url)| >= 3 ==> r == Ok(Target(UrlSegments(url)[1], UrlSegments(url)[2]))
  {
    var parts := UrlSegments(url);
    if |parts| == 2 then Ok(Target(parts[1], "ALL"))
    else if |parts| >= 3 then Ok(Target(parts[1], parts[2]))
    else InvalidUrl
  }

  const Host: string := "github.com"

  /** The schemes a user may type in front of the host. */
  predicate IsScheme(scheme: string) {
    scheme == "" || scheme == "http://" || scheme == "https://"
  }

  /** A name that can stand between two slashes of a URL (GitHub names hold no ':'). */
  predicate IsUrlName(s: string) {
    s != [] && '/' !in s && ':' !in s
  }

  /** A slash-joined list of URL names has no ':' and neither starts nor ends with '/'. */
  lemma {:induction false} JoinedPath(segments: seq<string>)
    requires |segments| >= 1
    requires forall k :: 0 <= k < |segments| ==> IsUrlName(segments[k])
    ensures ':' !in JoinOn(segments, '/')
    ensures |JoinOn(segments, '/')| > 0 && JoinOn(segments, '/')[|JoinOn(segments, '/')| - 1] != '/'
    decreases |segments|
  {
    if |segments| > 1 {
      JoinedPath(segments[1..]);
    }
  }

  /** Splitting a '/'-joined list of slash-free names gives the names back. */
  lemma {:induction false} SplitJoined(segments: seq<string>)
    requires |segments| >= 1
    requires forall k :: 0 <= k < |segments| ==> '/' !in segments[k]
    ensures SplitOn(JoinOn(segments, '/'), '/') == segments
    decreases |segments|
  {
    if |segments| > 1 {
      SplitJoined(segments[1..]);
      SplitAfter(segments[0], JoinOn(segments[1..], '/'), '/');
    }
  }

  /** Trailing slashes are all trimmed, and nothing else is. */
  lemma {:induction false} TrimSlashes(path: string, trailing: nat)
    requires path == [] || path[|path| - 1] != '/'
    ensures TrimEnd(path + Repeat('/', trailing), '/') == path
    decreases trailing
  {
    if trailing > 0 {
      assert (path + Repeat('/', trailing))[..|path| + trailing - 1] == path + Repeat('/', trailing - 1);
      TrimSlashes(path, trailing - 1);
    }
  }

  /** A pattern holding a character that a string lacks does not occur in it. */
  lemma AbsentChar(s: string, pat: string, k: nat)
    requires k < |pat| && pat[k] !in s
    ensures !Contains(s, pat)
  {
    forall i: nat | i <= |s| ensures !OccursAt(s, pat, i) {
      if i + |pat| <= |s| {
        assert s[i..i + |pat|][k] == s[i + k];
      }
    }
  }

  /** Removing the scheme separators from a scheme followed by a path without ':'
      leaves the path. */
  lemma SchemeRemoved(scheme: string, path: string)
    requires IsScheme(scheme) && ':' !in path
    ensures RemoveAll(RemoveAll(scheme + path, "https://"), "http://") == path
  {
    AbsentChar(path, "https://", 5);
    AbsentChar(path, "http://", 4);
    RemoveAbsent(path, "https://");
    RemoveAbsent(path, "http://");
    var s := scheme + path;
    if scheme == "https://" {
      assert s[..8] == "https://";
      assert s[8..] == path;
    } else if scheme == "http://" {
      assert !Contains(s, "https://") by {
        forall i: nat | i <= |s| ensures !OccursAt(s, "https://", i) {
          if i + 8 <= |s| {
            assert s[i..i + 8][5] == s[i + 5];
            if i + 5 >= 7 {
              assert s[i + 5] == path[i - 2];
            }
          }
        }
      }
      RemoveAbsent(s, "https://");
      assert s[..7] == "http://";
      assert s[7..] == path;
    } else {
      assert s == path;
    }
  }

  /** The scheme and the trailing slashes are all that the clean-up removes from a
      path without ':' that does not end in '/'. */
  lemma CleanedPath(scheme: string, path: string, trailing: nat)
    requires IsScheme(scheme) && ':' !in path
    requires path == [] || path[|path| - 1] != '/'
    ensures TrimEnd(RemoveAll(RemoveAll(scheme + path + Repeat('/', trailing), "https://"), "http://"), '/') == path
  {
    var tail := path + Repeat('/', trailing);
    assert ':' !in tail by {
      forall i | 0 <= i < |tail| ensures tail[i] != ':' {
        if i < |path| { assert tail[i] == path[i]; }
      }
    }
    assert scheme + path + Repeat('/', trailing) == scheme + tail;
    SchemeRemoved(scheme, tail);
    TrimSlashes(path, trailing);
  }

  /** Whatever scheme a URL is typed with and however many slashes end it, its
      segments are the names joined after the scheme. */
  lemma SegmentsOfUrl(scheme: string, segments: seq<string>, trailing: nat)
    requires IsScheme(scheme) && |segments| >= 1
    requires forall k :: 0 <= k < |segments| ==> IsUrlName(segments[k])
    ensures UrlSegments(scheme + JoinOn(segments, '/') + Repeat('/', trailing)) == segments
  {
    JoinedPath(segments);
    CleanedPath(scheme, JoinOn(segments, '/'), trailing);
    SplitJoined(segments);
  }

  /** A repository URL yields its owner and its name, whatever scheme it is typed
      with and whatever extra path or trailing slashes follow. */
  lemma RepositoryUrl(scheme: string, user: string, repo: string, extra: seq<string>, trailing: nat)
    requires IsScheme(scheme) && IsUrlName(user) && IsUrlName(repo)
    requires forall k :: 0 <= k < |extra| ==> IsUrlName(extra[k])
    ensures ExtractUsernameAndRepo(scheme + JoinOn([Host, user, repo] + extra, '/') + Repeat('/', trailing))
         == Ok(Target(user, repo))
  {
    var segments := [Host, user, repo] + extra;
    RepositorySegments(user, repo, extra);
    SegmentsOfUrl(scheme, segments, trailing);
    ExtractOfSegments(scheme + JoinOn(segments, '/') + Repeat('/', trailing), segments);
  }

  lemma RepositorySegments(user: string, repo: string, extra: seq<string>)
    requires IsUrlName(user) && IsUrlName(repo)
    requires forall k :: 0 <= k < |extra| ==> IsUrlName(extra[k])
    ensures var s := [Host, user, repo] + extra;
      |s| >= 3 && s[1] == user && s[2] == repo && forall k :: 0 <= k < |s| ==> IsUrlName(s[k])
  {
    HostIsUrlName();
    var s := [Host, user, repo] + extra;
    forall k | 0 <= k < |s| ensures IsUrlName(s[k]) {
      if k >= 3 { assert s[k] == extra[k - 3]; }
    }
  }

  /** The target named by a URL of at least three segments. */
  lemma ExtractOfSegments(url: string, segments: seq<string>)
    requires UrlSegments(url) == segments && |segments| >= 3
    ensures ExtractUsernameAndRepo(url) == Ok(Target(segments[1], segments[2]))
  {
  }

  lemma HostIsUrlName()
    ensures IsUrlName(Host)
  {
  }

  /** A profile URL, with or without trailing slashes, yields the user and "ALL". */
  lemma ProfileUrl(scheme: string, user: string, trailing: nat)
    requires IsScheme(scheme) && IsUrlName(user)
    ensures ExtractUsernameAndRepo(scheme + JoinOn([Host, user], '/') + Repeat('/', trailing))
         == Ok(Target(user, "ALL"))
  {
    HostIsUrlName();
    SegmentsOfUrl(scheme, [Host, user], trailing);
  }

  /** A URL with fewer than two segments, the empty string included, is refused. */
  lemma ShortUrlRefused(scheme: string, host: string, trailing: nat)
    requires IsScheme(scheme) && '/' !in host && ':' !in host
    ensures ExtractUsernameAndRepo(scheme + host + Repeat('/', trailing)) == InvalidUrl
  {
    CleanedPath(scheme, host, trailing);
    SplitWithout(host, '/');
  }

  // ---------------------------------------------------------------------------
  // The dump text written by process_local_repo and fetch_github_repo

  /** A row of 80 '=' framing every header of the dump. */
  const Rule: string := Repeat('=', 80)

  /** One dumped file: its path relative to the repository and its text. */
  datatype DumpFile = DumpFile(path: string, content: string)

  /** One dumped repository: its name and the files that passed the filters. */
  datatype RepoDump = RepoDump(name: string, files: seq<DumpFile>)

  /** The repository header `process_local_repo` appends before walking the tree. */
  function RepoHeader(name: string): string {
    "\n" + Rule + "\nREPOSITORY: " + name + "\n" + Rule + "\n\n"
  }

  /** The block `process_local_repo` appends for one file it could read. */
  function FileBlock(f: DumpFile): string {
    "\n" + Rule + "\nFILE: " + f.path + "\n" + Rule + "\n\n" + f.content + "\n\n"
  }

  /** All file blocks of a repository, in walk order. */
  function FilesText(files: seq<DumpFile>): string
    decreases |files|
  {
    if files == [] then [] else FileBlock(files[0]) + FilesText(files[1..])
  }

  /** Everything `process_local_repo` appends for one repository. */
  function RepoSection(r: RepoDump): string {
    RepoHeader(r.name) + FilesText(r.files)
  }

  /** The first lines `fetch_github_repo` writes to the dump file. */
  function DumpHeader(user: string): string {
    "GitHub Repositories Dump\n" + "User: " + user + "\n" + Rule + "\n\n"
  }

  /** The repository sections, in processing order. */
  function Sections(repos: seq<RepoDump>): string
    decreases |repos|
  {
    if repos == [] then [] else RepoSection(repos[0]) + Sections(repos[1..])
  }

  /** The whole dump file for a user and the repositories that were cloned. */
  function Dump(user: string, repos: seq<RepoDump>): string {
    DumpHeader(user) + Sections(repos)
  }

  /** The file blocks of a longer walk extend those of a shorter one. */
  lemma {:induction false} FilesTextAppend(files: seq<DumpFile>, f: DumpFile)
    ensures FilesText(files + [f]) == FilesText(files) + FileBlock(f)
    decreases |files|
  {
    if files != [] {
      assert (files + [f])[1..] == files[1..] + [f];
      FilesTextAppend(files[1..], f);
    }
  }

  // ---------------------------------------------------------------------------
  // process_local_repo

  /** One file met by the directory walk: the directory relative to the repository
      ("." for its top), the file name, and the text read from it, if it could be read. */
  datatype WalkedFile = WalkedFile(dir: string, name: string, content: Option<string>)

  datatype Option<T> = None | Some(value: T)

  /** `os.path.relpath` of the file: its name alone at the top, else below its directory. */
  function RelPath(w: WalkedFile): string {
    if w.dir == "." then w.name else w.dir + "/" + w.name
  }

  /** A walked file goes into the dump when its directory is not skipped, its name
      passes `is_code_file` and it could be read. */
  predicate Dumped(w: WalkedFile) {
    !ShouldSkipDirectory(w.dir) && IsCodeFile(w.name) && w.content.Some?
  }

  /** The block written for a walked file. */
  function Block(w: WalkedFile): DumpFile {
    DumpFile(RelPath(w), if w.content.Some? then w.content.value else [])
  }

  /** The files of a walk that are dumped, in walk order, with their relative paths. */
  function Selected(walk: seq<WalkedFile>): (r: seq<DumpFile>)
    ensures |r| <= |walk|
    decreases |walk|
  {
    if walk == [] then []
    else
      var rest := Selected(walk[..|walk| - 1]);
      var w := walk[|walk| - 1];
      if Dumped(w) then rest + [Block(w)] else rest
  }

  /** Filtering two walks run one after the other filters the first, then the second. */
  lemma {:induction false} SelectedAppend(a: seq<WalkedFile>, b: seq<WalkedFile>)
    ensures Selected(a + b) == Selected(a) + Selected(b)
    decreases |b|
  {
    if b != [] {
      var b' := b[..|b| - 1];
      assert (a + b)[..|a + b| - 1] == a + b';
      SelectedAppend(a, b');
    } else {
      assert a + b == a;
    }
  }

  /** Exactly the dumped files show up. */
  lemma {:induction false} DumpedFiles(walk: seq<WalkedFile>)
    ensures forall f :: f in Selected(walk) <==> exists w :: w in walk && Dumped(w) && f == Block(w)
    decreases |walk|
  {
    if walk != [] {
      var init := walk[..|walk| - 1];
      DumpedFiles(init);
      forall w | w in walk ensures w in init || w == walk[|walk| - 1] {
        var j :| 0 <= j < |walk| && walk[j] == w;
        if j < |walk| - 1 { assert init[j] == w; }
      }
      forall w | w in init ensures w in walk {
        var j :| 0 <= j < |init| && init[j] == w;
        assert walk[j] == w;
      }
    }
  }

  /** Taking a file that is not dumped out of the walk leaves the dump unchanged. */
  lemma SkippedFileIrrelevant(walk: seq<WalkedFile>, i: nat)
    requires i < |walk| && !Dumped(walk[i])
    ensures Selected(walk[..i] + walk[i + 1..]) == Selected(walk)
  {
    AroundIndex(walk, i);
    RemoveSkipped(walk[..i], walk[i], walk[i + 1..]);
  }

  /** A sequence is what comes before index `i`, the element at `i`, and the rest. */
  lemma AroundIndex<T>(s: seq<T>, i: nat)
    requires i < |s|
    ensures s[..i] + [s[i]] + s[i + 1..] == s
  {
  }

  lemma RemoveSkipped(front: seq<WalkedFile>, w: WalkedFile, back: seq<WalkedFile>)
    requires !Dumped(w)
    ensures Selected(front + [w] + back) == Selected(front + back)
  {
    SelectedAppend(front + [w], back);
    SelectedAppend(front, back);
    assert (front + [w])[..|front|] == front;
  }

  /** The paths of dumped files, as `process_local_repo` returns them. */
  function Paths(files: seq<DumpFile>): (r: seq<string>)
    ensures |r| == |files| && forall k :: 0 <= k < |r| ==> r[k] == files[k].path
  {
    seq(|files|, k requires 0 <= k < |files| => files[k].path)
  }

  /** `process_local_repo` over a given walk: the text appended to the dump (the
      repository header, then one block per file that is dumped, in walk order) and
      the relative paths of those files. */
  method ProcessLocalRepo(walk: seq<WalkedFile>, repoName: string) returns (text: string, processed: seq<string>)
    ensures text == RepoSection(RepoDump(repoName, Selected(walk)))
    ensures processed == Paths(Selected(walk))
  {
    text := RepoHeader(repoName);
    processed := [];
    ghost var files: seq<DumpFile> := [];
    var i := 0;
    while i < |walk|
      invariant 0 <= i <= |walk|
      invariant files == Selected(walk[..i])
      invariant text == RepoHeader(repoName) + FilesText(files)
      invariant processed == Paths(files)
    {
      var w := walk[i];
      SelectedStep(walk, i);
      if Dumped(w) {
        var block := Block(w);
        BlockAppended(RepoHeader(repoName), files, block);
        PathAppended(files, block);
        text := text + FileBlock(block);
        processed := processed + [block.path];
        files := files + [block];
      }
      i := i + 1;
    }
    assert walk[..|walk|] == walk;
  }

  /** One more walked file adds its block to the selection when it is kept. */
  lemma SelectedStep(walk: seq<WalkedFile>, i: nat)
    requires i < |walk|
    ensures Selected(walk[..i + 1]) == Selected(walk[..i]) + (if Dumped(walk[i]) then [Block(walk[i])] else [])
  {
    assert walk[..i + 1][..i] == walk[..i];
  }

  /** Appending a block to the text and its path to the list keeps both in step with
      the selected files. */
  lemma BlockAppended(header: string, files: seq<DumpFile>, block: DumpFile)
    ensures header + FilesText(files) + FileBlock(block) == header + FilesText(files + [block])
  {
    FilesTextAppend(files, block);
    Associative(header, FilesText(files), FileBlock(block));
  }

  lemma PathAppended(files: seq<DumpFile>, block: DumpFile)
    ensures Paths(files) + [block.path] == Paths(files + [block])
  {
  }

  lemma Associative(a: string, b: string, c: string)
    ensures a + b + c == a + (b + c)
  {
  }

  // ---------------------------------------------------------------------------
  // fetch_github_repo

  /** A repository to clone: its name and its clone URL. */
  datatype Listed = Listed(name: string, cloneUrl: string)

  /** At most this many repositories are listed for a profile. */
  const MaxRepos: nat := 5

  /** The clone URL built for a single repository. */
  function CloneUrl(user: string, repo: string): string {
    "https://" + Host + "/" + user + "/" + repo + ".git"
  }

  /** The repositories `fetch_github_repo` processes for a target, given what the
      listing API answered (the empty list when the request failed): the first
      `MaxRepos` listed ones for "ALL", otherwise the one named. */
  function ReposToProcess(t: Target, listing: seq<Listed>): (r: seq<Listed>)
    ensures t.repo == "ALL" ==> |r| <= MaxRepos && |r| <= |listing| && r == listing[..|r|] && (|r| < MaxRepos ==> r == listing)
    ensures t.repo != "ALL" ==> r == [Listed(t.repo, CloneUrl(t.user, t.repo))]
  {
    if t.repo == "ALL" then (if |listing| <= MaxRepos then listing else listing[..MaxRepos])
    else [Listed(t.repo, CloneUrl(t.user, t.repo))]
  }

  /** A repository literally named "ALL" is taken for the owner's profile: its URL
      yields the same target as the profile URL, and the user's listed repositories
      are processed instead of it. */
  lemma AllRepositoryTakenForProfile(scheme: string, user: string, trailing: nat, listing: seq<Listed>)
    requires IsScheme(scheme) && IsUrlName(user) && |listing| <= MaxRepos
    ensures ExtractUsernameAndRepo(scheme + JoinOn([Host, user, "ALL"], '/') + Repeat('/', trailing)) == Ok(Target(user, "ALL"))
    ensures ExtractUsernameAndRepo(scheme + JoinOn([Host, user], '/') + Repeat('/', trailing)) == Ok(Target(user, "ALL"))
    ensures ReposToProcess(Target(user, "ALL"), listing) == listing
  {
    assert IsUrlName("ALL");
    RepositoryUrl(scheme, user, "ALL", [], trailing);
    assert [Host, user, "ALL"] + [] == [Host, user, "ALL"];
    ProfileUrl(scheme, user, trailing);
  }

  /** What a URL names, with the profile kept apart from every repository. */
  datatype UrlTarget = Profile(user: string) | Repository(owner: string, name: string)

  /** `extract_username_and_repo` with the profile case as its own variant. */
  function ExtractTarget(url: string): (r: Outcome<UrlTarget>)
    ensures r == InvalidUrl <==> ExtractUsernameAndRepo(url) == InvalidUrl
    ensures |UrlSegments(url)| == 2 ==> r == Ok(Profile(UrlSegments(url)[1]))
    ensures |UrlSegments(url)| >= 3 ==> r == Ok(Repository(UrlSegments(url)[1], UrlSegments(url)[2]))
  {
    var parts := UrlSegments(url);
    if |parts| == 2 then Ok(Profile(parts[1]))
    else if |parts| >= 3 then Ok(Repository(parts[1], parts[2]))
    else InvalidUrl
  }

  /** The repositories to process for a target named by `ExtractTarget`. */
  function PlanFor(t: UrlTarget, listing: seq<Listed>): (r: seq<Listed>)
    ensures t.Profile? ==> |r| <= MaxRepos && |r| <= |listing| && r == listing[..|r|] && (|r| < MaxRepos ==> r == listing)
    ensures t.Repository? ==> r == [Listed(t.name, CloneUrl(t.owner, t.name))]
  {
    match t
    case Profile(_) => if |listing| <= MaxRepos then listing else listing[..MaxRepos]
    case Repository(owner, name) => [Listed(name, CloneUrl(owner, name))]
  }

  /** Every repository URL, "ALL" included, plans exactly that repository, and a
      profile URL plans the listing. */
  lemma RepositoryPlannedAsNamed(scheme: string, user: string, repo: string, trailing: nat, listing: seq<Listed>)
    requires IsScheme(scheme) && IsUrlName(user) && IsUrlName(repo)
    ensures ExtractTarget(scheme + JoinOn([Host, user, repo], '/') + Repeat('/', trailing)) == Ok(Repository(user, repo))
    ensures PlanFor(Repository(user, repo), listing) == [Listed(repo, CloneUrl(user, repo))]
    ensures ExtractTarget(scheme + JoinOn([Host, user], '/') + Repeat('/', trailing)) == Ok(Profile(user))
  {
    HostIsUrlName();
    SegmentsOfUrl(scheme, [Host, user, repo], trailing);
    SegmentsOfUrl(scheme, [Host, user], trailing);
  }

  /** The sections of the repositories that could be cloned, in plan order; `clone`
      gives the walk of a cloned repository, or `None` when cloning failed. */
  function ClonedDumps(plan: seq<Listed>, clone: Listed -> Option<seq<WalkedFile>>): (r: seq<RepoDump>)
    ensures |r| <= |plan|
    decreases |plan|
  {
    if plan == [] then []
    else
      var rest := ClonedDumps(plan[..|plan| - 1], clone);
      var item := plan[|plan| - 1];
      match clone(item)
      case None => rest
      case Some(walk) => rest + [RepoDump(item.name, Selected(walk))]
  }

  /** The number of files over all dumped repositories. */
  function TotalFiles(dumps: seq<RepoDump>): nat
    decreases |dumps|
  {
    if dumps == [] then 0 else TotalFiles(dumps[..|dumps| - 1]) + |dumps[|dumps| - 1].files|
  }

  lemma {:induction false} SectionsAppend(repos: seq<RepoDump>, r: RepoDump)
    ensures Sections(repos + [r]) == Sections(repos) + RepoSection(r)
    decreases |repos|
  {
    if repos != [] {
      assert (repos + [r])[1..] == repos[1..] + [r];
      SectionsAppend(repos[1..], r);
    }
  }

  /** One more planned repository adds its section when it could be cloned. */
  lemma ClonedStep(plan: seq<Listed>, i: nat, clone: Listed -> Option<seq<WalkedFile>>)
    requires i < |plan|
    ensures ClonedDumps(plan[..i + 1], clone) == ClonedDumps(plan[..i], clone) +
      (if clone(plan[i]).Some? then [RepoDump(plan[i].name, Selected(clone(plan[i]).value))] else [])
  {
    assert plan[..i + 1][..i] == plan[..i];
  }

  /** The user named in the dump header. */
  function UserOf(t: UrlTarget): string {
    match t
    case Profile(user) => user
    case Repository(owner, _) => owner
  }

  /** The file `fetch_github_repo` writes the dump to and returns. */
  const OutputFile: string := "RESULTS.txt"

  /** What one run of `fetch_github_repo` leaves behind: the name of the file it
      returns, the text written to that file, and the number of saved files it
      reports. */
  datatype Fetched = Fetched(file: string, text: string, totalFiles: nat)

  /** `fetch_github_repo` as written, given the listing API's answer and the
      outcome of each clone: the plan comes from `extract_username_and_repo` and
      the `repo == "ALL"` test. */
  method FetchGithubRepo(url: string, listing: seq<Listed>, clone: Listed -> Option<seq<WalkedFile>>)
    returns (r: Outcome<Fetched>)
    ensures r == InvalidUrl <==> ExtractUsernameAndRepo(url) == InvalidUrl
    ensures r.Ok? ==> ExtractUsernameAndRepo(url).Ok? && r.value == FetchResult(ExtractUsernameAndRepo(url).value, listing, clone)
  {
    var target := ExtractUsernameAndRepo(url);
    if target == InvalidUrl {
      return InvalidUrl;
    }
    var t := target.value;
    var text, total := DumpPlan(DumpHeader(t.user), ReposToProcess(t, listing), clone);
    return Ok(Fetched(OutputFile, text, total));
  }

  /** `fetch_github_repo` planned through `ExtractTarget`, so that a repository
      named "ALL" is processed as named. */
  method FetchGithubRepoCorrected(url: string, listing: seq<Listed>, clone: Listed -> Option<seq<WalkedFile>>)
    returns (r: Outcome<Fetched>)
    ensures r == InvalidUrl <==> ExtractTarget(url) == InvalidUrl
    ensures r.Ok? ==> ExtractTarget(url).Ok? && r.value == CorrectedFetchResult(ExtractTarget(url).value, listing, clone)
  {
    var target := ExtractTarget(url);
    if target == InvalidUrl {
      return InvalidUrl;
    }
    var t := target.value;
    var text, total := DumpPlan(DumpHeader(UserOf(t)), PlanFor(t, listing), clone);
    return Ok(Fetched(OutputFile, text, total));
  }

  /** The loop of `fetch_github_repo` over the planned repositories: each one that
      could be cloned adds its section to the text and its files to the count. */
  method DumpPlan(header: string, plan: seq<Listed>, clone: Listed -> Option<seq<WalkedFile>>)
    returns (text: string, total: nat)
    ensures text == header + Sections(ClonedDumps(plan, clone))
    ensures total == TotalFiles(ClonedDumps(plan, clone))
  {
    text := header;
    total := 0;
    ghost var dumps: seq<RepoDump> := [];
    var i := 0;
    while i < |plan|
      invariant 0 <= i <= |plan|
      invariant dumps == ClonedDumps(plan[..i], clone)
      invariant text == header + Sections(dumps)
      invariant total == TotalFiles(dumps)
    {
      var item := plan[i];
      ClonedStep(plan, i, clone);
      var cloned := clone(item);
      if cloned.Some? {
        var section, files := ProcessLocalRepo(cloned.value, item.name);
        var d := RepoDump(item.name, Selected(cloned.value));
        DumpStep(header, dumps, d, text, total, section, |files|);
        text := text + section;
        total := total + |files|;
        dumps := dumps + [d];
      }
      i := i + 1;
    }
    assert plan[..|plan|] == plan;
  }

  /** The outcome of a run for a target named by `extract_username_and_repo`. */
  function FetchResult(t: Target, listing: seq<Listed>, clone: Listed -> Option<seq<WalkedFile>>): Fetched {
    var dumps := ClonedDumps(ReposToProcess(t, listing), clone);
    Fetched(OutputFile, Dump(t.user, dumps), TotalFiles(dumps))
  }

  /** The outcome of a run for a target named by `ExtractTarget`. */
  function CorrectedFetchResult(t: UrlTarget, listing: seq<Listed>, clone: Listed -> Option<seq<WalkedFile>>): Fetched {
    var dumps := ClonedDumps(PlanFor(t, listing), clone);
    Fetched(OutputFile, Dump(UserOf(t), dumps), TotalFiles(dumps))
  }

  /** The correction changes nothing but the case of a repository named "ALL":
      every other URL gives the same outcome as the source. */
  lemma FetchCorrectedAgrees(url: string, listing: seq<Listed>, clone: Listed -> Option<seq<WalkedFile>>)
    requires |UrlSegments(url)| < 3 || UrlSegments(url)[2] != "ALL"
    ensures ExtractTarget(url) == InvalidUrl <==> ExtractUsernameAndRepo(url) == InvalidUrl
    ensures ExtractTarget(url).Ok? ==>
      CorrectedFetchResult(ExtractTarget(url).value, listing, clone) == FetchResult(ExtractUsernameAndRepo(url).value, listing, clone)
  {
  }

  /** Appending a section and its file count keeps the text and the count in step
      with the dumped repositories. */
  lemma DumpStep(header: string, dumps: seq<RepoDump>, d: RepoDump, text: string, total: nat, section: string, count: nat)
    requires text == header + Sections(dumps) && total == TotalFiles(dumps)
    requires section == RepoSection(d) && count == |d.files|
    ensures text + section == header + Sections(dumps + [d])
    ensures total + count == TotalFiles(dumps + [d])
  {
    SectionAdded(header, dumps, d);
    TotalAdded(dumps, d);
  }

  lemma SectionAdded(header: string, dumps: seq<RepoDump>, d: RepoDump)
    ensures header + Sections(dumps) + RepoSection(d) == header + Sections(dumps + [d])
  {
    SectionsAppend(dumps, d);
    Associative(header, Sections(dumps), RepoSection(d));
  }

  lemma TotalAdded(dumps: seq<RepoDump>, d: RepoDump)
    ensures TotalFiles(dumps + [d]) == TotalFiles(dumps) + |d.files|
  {
    assert (dumps + [d])[..|dumps|] == dumps;
  }
}

/** The decision logic of `DivergencePredictiveModel`: it reads a translated profile
    and derives a skill vector, a code style, frictions, capabilities, skill gaps,
    learning recommendations and project predictions. Scores are exact reals;
    `round` is not applied. */
module Modelling {
  import opened Text
  import opened Tally
  import opened RepoFetch
  import Filtering
  import Profile

  /** The fields of the translated profile the model reads. `avgRepoSize` is the
      `avg_repo_size` entry of `technical_depth`, which may be missing. */
  datatype TranslatedProfile = TranslatedProfile(
    languages: seq<Profile.Share>,
    libraries: seq<string>,
    skills: seq<Profile.Share>,
    composition: Profile.Composition,
    qualityScore: real,
    depthScore: real,
    avgRepoSize: Option<real>,
    totalRepositories: nat,
    analysisTimestamp: string)

  datatype SkillVector = SkillVector(
    backend: real, frontend: real, data: real, aiMl: real, cloudInfrastructure: real, architecture: real)

  datatype CodeStyleProfile = CodeStyleProfile(
    typeSafetyPreference: real, functionalVsOop: real, languageDiversity: real, complexityTolerance: real)

  datatype FrictionProfile = FrictionProfile(
    react: real, vue: real, typescript: real, pythonTyping: real, mlProject: real,
    devops: real, microservices: real, fullstack: real, mobile: real)

  datatype CapabilityAssessment = CapabilityAssessment(
    apiService: real, cliTool: real, dataPipeline: real, mlModel: real,
    frontendApp: real, fullstackApp: real, infrastructure: real, pluginSystem: real)

  datatype Recommendation = Recommendation(
    area: string, priority: string, friction: real, rationale: string, suggestedTech: seq<string>, estimatedFriction: real)

  /** A tension point; the message text is not modelled, only which one it is and
      the value it quotes. */
  datatype Tension = LowCapability(score: real) | HighFriction(friction: real) | LowTestCoverage

  /** A project skill gap: the skill, its value and the threshold it misses. */
  datatype Gap = Gap(skill: string, value: real, threshold: real)

  datatype Prediction = Prediction(
    projectType: string, successLikelihood: real, frictionScore: real, riskLevel: string,
    tensionPoints: seq<Tension>, skillGaps: seq<Gap>)

  datatype ModelMetadata = ModelMetadata(modelVersion: string, basedOnRepos: nat, dataSource: string, analysisTimestamp: string)

  datatype PredictiveProfile = PredictiveProfile(
    skillVector: SkillVector,
    codeStyle: CodeStyleProfile,
    friction: FrictionProfile,
    capabilities: CapabilityAssessment,
    skillGaps: seq<Profile.Share>,
    learningPath: seq<Recommendation>,
    devtoolsSkill: real,
    metadata: ModelMetadata)

  // ---------------------------------------------------------------------------
  // Dictionary lookups

  /** `m.get(k, d)`: the value of the first entry with key `k`, or `d`. */
  function LookupOr(m: seq<Profile.Share>, k: string, d: real): real
    decreases |m|
  {
    if m == [] then d else if m[0].key == k then m[0].value else LookupOr(m[1..], k, d)
  }

  /** Every value lies in [lo, hi]. */
  predicate ValuesIn(m: seq<Profile.Share>, lo: real, hi: real) {
    forall i :: 0 <= i < |m| ==> lo <= m[i].value <= hi
  }

  /** A lookup of a key no entry has gives the default. */
  lemma {:induction false} LookupAbsent(m: seq<Profile.Share>, k: string, d: real)
    requires forall i :: 0 <= i < |m| ==> m[i].key != k
    ensures LookupOr(m, k, d) == d
    decreases |m|
  {
    if m != [] {
      assert m[0].key != k;
      LookupAbsent(m[1..], k, d);
    }
  }

  /** A lookup finds the value of the first entry with the key. */
  lemma {:induction false} LookupFirst(m: seq<Profile.Share>, k: string, d: real, j: nat)
    requires j < |m| && m[j].key == k && forall i :: 0 <= i < j ==> m[i].key != k
    ensures LookupOr(m, k, d) == m[j].value
    decreases j
  {
    if j > 0 {
      assert m[0].key != k;
      LookupFirst(m[1..], k, d, j - 1);
    }
  }

  /** Looking up in values bounded by [lo, hi] with a default in the same range
      stays in the range. */
  lemma {:induction false} LookupBounds(m: seq<Profile.Share>, k: string, d: real, lo: real, hi: real)
    requires ValuesIn(m, lo, hi) && lo <= d <= hi
    ensures lo <= LookupOr(m, k, d) <= hi
    decreases |m|
  {
    if m != [] && m[0].key != k {
      assert ValuesIn(m[1..], lo, hi) by {
        forall i | 0 <= i < |m[1..]| ensures lo <= m[1..][i].value <= hi {
          assert m[1..][i] == m[i + 1];
        }
      }
      LookupBounds(m[1..], k, d, lo, hi);
    }
  }

  // ---------------------------------------------------------------------------
  // _detect_library_category

  /** The categories in the order they are tried, each with its library names. */
  const Categories: seq<(string, seq<string>)> := [
    ("ai_ml", ["openai", "anthropic", "transformers", "pytorch", "tensorflow", "sklearn", "keras", "langchain"]),
    ("data_processing", ["pandas", "numpy", "scipy", "polars", "dask"]),
    ("web_framework", ["flask", "django", "fastapi", "express", "react", "vue", "angular"]),
    ("devops", ["docker", "kubernetes", "terraform", "ansible"]),
    ("testing", ["pytest", "unittest", "jest", "mocha", "cypress"]),
    ("cli_tool", ["argparse", "click", "typer", "rich", "colorama", "prompt-toolkit"]),
    ("async", ["asyncio", "aiohttp", "celery", "threading"]),
    ("advanced_python", ["collections", "itertools", "functools", "heapq", "deque", "counter", "lru_cache", "cache"])
  ]

  /** The first category whose list holds `lib`, or "other". */
  function FirstCategory(lib: string, categories: seq<(string, seq<string>)>): string
    decreases |categories|
  {
    if categories == [] then "other"
    else if OneOf(lib, categories[0].1) then categories[0].0
    else FirstCategory(lib, categories[1..])
  }

  /** `_detect_library_category`. */
  function CategoryOf(libName: string): string {
    FirstCategory(Lower(libName), Categories)
  }

  /** The result is the first category that lists the name, or "other" when none
      does. */
  lemma {:induction false} FirstCategoryFacts(lib: string, categories: seq<(string, seq<string>)>)
    ensures (forall j :: 0 <= j < |categories| ==> lib !in categories[j].1) ==> FirstCategory(lib, categories) == "other"
    ensures forall j :: 0 <= j < |categories| && lib in categories[j].1 && (forall i :: 0 <= i < j ==> lib !in categories[i].1)
               ==> FirstCategory(lib, categories) == categories[j].0
    decreases |categories|
  {
    if categories != [] {
      OneOfIff(lib, categories[0].1);
      FirstCategoryFacts(lib, categories[1..]);
      assert forall i :: 0 < i < |categories| ==> categories[i] == categories[1..][i - 1];
    }
  }

  /** The category ignores case: names that agree once lower-cased get the same
      category, and the first matching category in the fixed order wins. */
  lemma CategoryOfFacts(libName: string, other: string)
    ensures Lower(libName) == Lower(other) ==> CategoryOf(libName) == CategoryOf(other)
    ensures CategoryOf(libName) == CategoryOf(Lower(libName))
    ensures (forall j :: 0 <= j < |Categories| ==> Lower(libName) !in Categories[j].1) ==> CategoryOf(libName) == "other"
    ensures forall j :: 0 <= j < |Categories| && Lower(libName) in Categories[j].1 && (forall i :: 0 <= i < j ==> Lower(libName) !in Categories[i].1)
               ==> CategoryOf(libName) == Categories[j].0
  {
    LowerIdempotent(libName);
    FirstCategoryFacts(Lower(libName), Categories);
  }

  // ---------------------------------------------------------------------------
  // _infer_devtools_skill

  const CliIndicators: seq<string> := ["argparse", "click", "typer", "rich", "colorama"]
  const AdvancedIndicators: seq<string> := ["functools", "itertools", "collections", "heapq", "lru_cache", "cache", "deque"]
  const TestingIndicators: seq<string> := ["pytest", "unittest", "mock"]

  /** `sum(1 for lib in keys if lib.lower() in indicators)`. */
  function CountMatching(keys: seq<string>, indicators: seq<string>): (n: nat)
    ensures n <= |keys|
    decreases |keys|
  {
    if keys == [] then 0
    else CountMatching(keys[..|keys| - 1], indicators) + (if OneOf(Lower(keys[|keys| - 1]), indicators) then 1 else 0)
  }

  /** A count is 0 exactly when no key matches, and equals the number of keys
      exactly when every key matches. */
  lemma {:induction false} CountMatchingFacts(keys: seq<string>, indicators: seq<string>)
    ensures CountMatching(keys, indicators) == 0 <==> forall i :: 0 <= i < |keys| ==> Lower(keys[i]) !in indicators
    ensures CountMatching(keys, indicators) == |keys| <==> forall i :: 0 <= i < |keys| ==> Lower(keys[i]) in indicators
    decreases |keys|
  {
    if keys != [] {
      var init := keys[..|keys| - 1];
      CountMatchingFacts(init, indicators);
      OneOfIff(Lower(keys[|keys| - 1]), indicators);
      assert forall i :: 0 <= i < |init| ==> init[i] == keys[i];
    }
  }

  /** `min(n / d, 1.0)`. */
  function Capped(n: nat, d: real): real
    requires d > 0.0
  {
    Filtering.Min(n as real / d, 1.0)
  }

  /** A capped score lies in [0, 1] and reaches 1 exactly when the count reaches the
      divisor. */
  lemma CappedFacts(n: nat, d: real)
    requires d > 0.0
    ensures 0.0 <= Capped(n, d) <= 1.0
    ensures Capped(n, d) == 1.0 <==> n as real >= d
  {
    var r := n as real / d;
    assert r * d == n as real;
    assert (r - 1.0) * d == n as real - d;
  }

  /** `_infer_devtools_skill`. */
  function DevtoolsSkill(p: TranslatedProfile): real {
    Capped(CountMatching(p.libraries, CliIndicators), 2.0) * 0.35
    + Capped(CountMatching(p.libraries, AdvancedIndicators), 4.0) * 0.25
    + Capped(CountMatching(p.libraries, TestingIndicators), 2.0) * 0.25
    + p.qualityScore * 0.15
  }

  /** Each indicator count is at most the number of library keys, each capped score
      lies in [0, 1], and for a quality score in [0, 1] so does the skill. */
  lemma DevtoolsSkillFacts(p: TranslatedProfile)
    ensures CountMatching(p.libraries, CliIndicators) <= |p.libraries|
    ensures CountMatching(p.libraries, AdvancedIndicators) <= |p.libraries|
    ensures CountMatching(p.libraries, TestingIndicators) <= |p.libraries|
    ensures 0.0 <= p.qualityScore <= 1.0 ==> 0.0 <= DevtoolsSkill(p) <= 1.0
  {
    CappedFacts(CountMatching(p.libraries, CliIndicators), 2.0);
    CappedFacts(CountMatching(p.libraries, AdvancedIndicators), 4.0);
    CappedFacts(CountMatching(p.libraries, TestingIndicators), 2.0);
  }

  // ---------------------------------------------------------------------------
  // compute_skill_vector

  /** Some library is one of `names`, ignoring case. */
  predicate HasAny(libraries: seq<string>, names: seq<string>) {
    exists i :: 0 <= i < |libraries| && OneOf(Lower(libraries[i]), names)
  }

  /** `compute_skill_vector`; `None` where the source raises `KeyError` because
      `technical_depth` has no `avg_repo_size`. */
  function SkillVectorOf(p: TranslatedProfile): Option<SkillVector> {
    if p.avgRepoSize.None? then None
    else
      var q := p.qualityScore;
      var backend := p.composition.backend * 0.5 + LookupOr(p.languages, "Python", 0.0) / 100.0 * 0.3 + q * 0.2;
      var frontendLangs := (LookupOr(p.languages, "JavaScript", 0.0) + LookupOr(p.languages, "TypeScript", 0.0)
        + LookupOr(p.languages, "HTML", 0.0) + LookupOr(p.languages, "CSS", 0.0)) / 100.0;
      var frontend := p.composition.frontend * 0.7 + frontendLangs * 0.3;
      var data := p.composition.data * 0.5 + LookupOr(p.skills, "data_engineering", 0.0) * 0.5;
      var aiMl := LookupOr(p.skills, "ai_ml", 0.0) + (if HasAny(p.libraries, ["openai", "anthropic", "langchain"]) then 0.2 else 0.0);
      var cloud := LookupOr(p.skills, "cloud_devops", 0.0);
      var architecture := p.depthScore * 0.5 + q * 0.3 + Filtering.Min(p.avgRepoSize.value / 2000.0, 1.0) * 0.2;
      Some(SkillVector(
        Filtering.Min(backend, 1.0), Filtering.Min(frontend, 1.0), Filtering.Min(data, 1.0),
        Filtering.Min(aiMl, 1.0), cloud, Filtering.Min(architecture, 1.0)))
  }

  /** The inputs lie in the ranges the translator produces. */
  predicate Normalised(p: TranslatedProfile) {
    && ValuesIn(p.languages, 0.0, 100.0)
    && ValuesIn(p.skills, 0.0, 1.0)
    && 0.0 <= p.composition.frontend && 0.0 <= p.composition.backend && 0.0 <= p.composition.data
    && 0.0 <= p.qualityScore <= 1.0
    && 0.0 <= p.depthScore <= 1.0
    && (p.avgRepoSize.Some? ==> p.avgRepoSize.value >= 0.0)
  }

  /** The vector exists exactly when `avg_repo_size` is present; every component
      but `cloud_infrastructure` is at most 1, `cloud_infrastructure` is the
      `cloud_devops` skill unchanged, and the AI libraries add 0.2 to the `ai_ml`
      skill before the clamp. For normalised inputs every component lies in
      [0, 1]. */
  lemma SkillVectorFacts(p: TranslatedProfile)
    ensures SkillVectorOf(p).Some? <==> p.avgRepoSize.Some?
    ensures SkillVectorOf(p).Some? ==> var v := SkillVectorOf(p).value;
      && v.backend <= 1.0 && v.frontend <= 1.0 && v.data <= 1.0 && v.aiMl <= 1.0 && v.architecture <= 1.0
      && v.cloudInfrastructure == LookupOr(p.skills, "cloud_devops", 0.0)
      && v.aiMl == Filtering.Min(LookupOr(p.skills, "ai_ml", 0.0)
        + (if HasAny(p.libraries, ["openai", "anthropic", "langchain"]) then 0.2 else 0.0), 1.0)
    ensures SkillVectorOf(p).Some? && Normalised(p) ==> InUnit(SkillVectorOf(p).value)
  {
    if SkillVectorOf(p).Some? && Normalised(p) {
      LookupBounds(p.languages, "Python", 0.0, 0.0, 100.0);
      LookupBounds(p.languages, "JavaScript", 0.0, 0.0, 100.0);
      LookupBounds(p.languages, "TypeScript", 0.0, 0.0, 100.0);
      LookupBounds(p.languages, "HTML", 0.0, 0.0, 100.0);
      LookupBounds(p.languages, "CSS", 0.0, 0.0, 100.0);
      LookupBounds(p.skills, "data_engineering", 0.0, 0.0, 1.0);
      LookupBounds(p.skills, "ai_ml", 0.0, 0.0, 1.0);
      LookupBounds(p.skills, "cloud_devops", 0.0, 0.0, 1.0);
    }
  }

  /** Every component lies in [0, 1]. */
  predicate InUnit(v: SkillVector) {
    && 0.0 <= v.backend <= 1.0 && 0.0 <= v.frontend <= 1.0 && 0.0 <= v.data <= 1.0
    && 0.0 <= v.aiMl <= 1.0 && 0.0 <= v.cloudInfrastructure <= 1.0 && 0.0 <= v.architecture <= 1.0
  }

  // ---------------------------------------------------------------------------
  // compute_code_style_profile

  /** `len([v for v in langs.values() if v > 1])`. */
  function CountAbove(m: seq<Profile.Share>, bound: real): (n: nat)
    ensures n <= |m|
    decreases |m|
  {
    if m == [] then 0 else CountAbove(m[..|m| - 1], bound) + (if m[|m| - 1].value > bound then 1 else 0)
  }

  /** `compute_code_style_profile`. */
  function CodeStyleOf(p: TranslatedProfile): CodeStyleProfile {
    var typeSafety := LookupOr(p.languages, "TypeScript", 0.0) / 50.0
      + (if HasAny(p.libraries, ["typing", "mypy", "pydantic"]) then 0.3 else 0.0);
    var funcCount := CountMatching(p.libraries, ["functools", "itertools", "map", "filter", "reduce"]);
    CodeStyleProfile(
      Filtering.Min(typeSafety, 1.0),
      if funcCount > 2 then 0.3 else 0.7,
      Filtering.Min(CountAbove(p.languages, 1.0) as real / 6.0, 1.0),
      p.depthScore)
  }

  /** The type-safety preference is at most 1, the functional/OOP score is 0.3 or
      0.7 by the number of functional libraries, the diversity lies in [0, 1] and
      reaches 1 with six languages above 1%; for normalised inputs every field lies
      in [0, 1]. */
  lemma CodeStyleFacts(p: TranslatedProfile)
    ensures var c := CodeStyleOf(p);
      && c.typeSafetyPreference <= 1.0
      && (c.functionalVsOop == 0.3 <==> CountMatching(p.libraries, ["functools", "itertools", "map", "filter", "reduce"]) > 2)
      && (c.functionalVsOop == 0.3 || c.functionalVsOop == 0.7)
      && 0.0 <= c.languageDiversity <= 1.0
      && (c.languageDiversity == 1.0 <==> CountAbove(p.languages, 1.0) >= 6)
      && c.complexityTolerance == p.depthScore
    ensures Normalised(p) ==> StyleInUnit(CodeStyleOf(p))
  {
    CappedFacts(CountAbove(p.languages, 1.0), 6.0);
    if Normalised(p) {
      LookupBounds(p.languages, "TypeScript", 0.0, 0.0, 100.0);
    }
  }

  predicate StyleInUnit(c: CodeStyleProfile) {
    && 0.0 <= c.typeSafetyPreference <= 1.0 && 0.0 <= c.functionalVsOop <= 1.0
    && 0.0 <= c.languageDiversity <= 1.0 && 0.0 <= c.complexityTolerance <= 1.0
  }

  // ---------------------------------------------------------------------------
  // compute_friction_profile

  function MaxZero(x: real): real {
    if x >= 0.0 then x else 0.0
  }

  /** `compute_friction_profile`: one minus a weighted sum, floored at 0. */
  function FrictionOf(p: TranslatedProfile, v: SkillVector, c: CodeStyleProfile): FrictionProfile {
    var t := c.typeSafetyPreference;
    FrictionProfile(
      MaxZero(1.0 - (v.frontend * 0.4 + t * 0.3 + c.complexityTolerance * 0.3)),
      MaxZero(1.0 - (v.frontend * 0.6 + c.languageDiversity * 0.4)),
      MaxZero(1.0 - (t * 0.5 + v.frontend * 0.3 + c.complexityTolerance * 0.2)),
      MaxZero(1.0 - (t * 0.6 + v.backend * 0.4)),
      MaxZero(1.0 - (v.aiMl * 0.4 + v.data * 0.3 + v.backend * 0.2 + p.qualityScore * 0.1)),
      MaxZero(1.0 - (v.cloudInfrastructure * 0.6 + v.backend * 0.4)),
      MaxZero(1.0 - (v.architecture * 0.4 + v.backend * 0.3 + v.cloudInfrastructure * 0.3)),
      MaxZero(1.0 - (v.frontend * 0.4 + v.backend * 0.4 + v.architecture * 0.2)),
      MaxZero(1.0 - (v.frontend * 0.5 + c.languageDiversity * 0.3 + v.architecture * 0.2)))
  }

  /** The frictions in `asdict` order. */
  function FrictionList(f: FrictionProfile): seq<Profile.Share> {
    [Profile.Share("react_friction", f.react), Profile.Share("vue_friction", f.vue),
     Profile.Share("typescript_friction", f.typescript), Profile.Share("python_typing_friction", f.pythonTyping),
     Profile.Share("ml_project_friction", f.mlProject), Profile.Share("devops_friction", f.devops),
     Profile.Share("microservices_friction", f.microservices), Profile.Share("fullstack_friction", f.fullstack),
     Profile.Share("mobile_friction", f.mobile)]
  }

  /** Every friction is at least 0; with skills, style and quality in [0, 1] every
      friction is also at most 1. */
  lemma FrictionFacts(p: TranslatedProfile, v: SkillVector, c: CodeStyleProfile)
    ensures forall i :: 0 <= i < 9 ==> FrictionList(FrictionOf(p, v, c))[i].value >= 0.0
    ensures InUnit(v) && StyleInUnit(c) && 0.0 <= p.qualityScore <= 1.0 ==> ValuesIn(FrictionList(FrictionOf(p, v, c)), 0.0, 1.0)
  {
  }

  // ---------------------------------------------------------------------------
  // compute_capability_assessment

  /** `compute_capability_assessment`: weighted sums clamped at 1. */
  function CapabilitiesOf(p: TranslatedProfile, v: SkillVector): CapabilityAssessment {
    var q := p.qualityScore;
    var devtools := DevtoolsSkill(p);
    CapabilityAssessment(
      Filtering.Min(v.backend * 0.5 + v.architecture * 0.3 + q * 0.2, 1.0),
      Filtering.Min(v.backend * 0.4 + devtools * 0.4 + q * 0.2, 1.0),
      Filtering.Min(v.data * 0.4 + v.backend * 0.4 + v.architecture * 0.2, 1.0),
      Filtering.Min(v.aiMl * 0.5 + v.data * 0.3 + q * 0.2, 1.0),
      Filtering.Min(v.frontend * 0.7 + q * 0.3, 1.0),
      Filtering.Min(v.frontend * 0.3 + v.backend * 0.4 + v.architecture * 0.3, 1.0),
      Filtering.Min(v.cloudInfrastructure * 0.5 + v.backend * 0.3 + v.architecture * 0.2, 1.0),
      Filtering.Min(v.backend * 0.4 + v.architecture * 0.3 + devtools * 0.3, 1.0))
  }

  /** The capabilities in `asdict` order. */
  function CapabilityList(c: CapabilityAssessment): seq<Profile.Share> {
    [Profile.Share("api_service", c.apiService), Profile.Share("cli_tool", c.cliTool),
     Profile.Share("data_pipeline", c.dataPipeline), Profile.Share("ml_model", c.mlModel),
     Profile.Share("frontend_app", c.frontendApp), Profile.Share("fullstack_app", c.fullstackApp),
     Profile.Share("infrastructure", c.infrastructure), Profile.Share("plugin_system", c.pluginSystem)]
  }

  /** Every capability lies in [lo, 1]. */
  predicate CapabilitiesWithin(c: CapabilityAssessment, lo: real) {
    && lo <= c.apiService <= 1.0 && lo <= c.cliTool <= 1.0 && lo <= c.dataPipeline <= 1.0
    && lo <= c.mlModel <= 1.0 && lo <= c.frontendApp <= 1.0 && lo <= c.fullstackApp <= 1.0
    && lo <= c.infrastructure <= 1.0 && lo <= c.pluginSystem <= 1.0
  }

  /** Every capability is at most 1; with skills and quality in [0, 1] every
      capability also lies in [0, 1]. */
  lemma CapabilityFacts(p: TranslatedProfile, v: SkillVector)
    ensures var c := CapabilitiesOf(p, v);
      && c.apiService <= 1.0 && c.cliTool <= 1.0 && c.dataPipeline <= 1.0 && c.mlModel <= 1.0
      && c.frontendApp <= 1.0 && c.fullstackApp <= 1.0 && c.infrastructure <= 1.0 && c.pluginSystem <= 1.0
    ensures InUnit(v) && 0.0 <= p.qualityScore <= 1.0 ==> CapabilitiesWithin(CapabilitiesOf(p, v), 0.0)
  {
    DevtoolsSkillFacts(p);
  }

  // ---------------------------------------------------------------------------
  // identify_skill_gaps

  /** The skill vector in `asdict` order. */
  function SkillList(v: SkillVector): seq<Profile.Share> {
    [Profile.Share("backend", v.backend), Profile.Share("frontend", v.frontend), Profile.Share("data", v.data),
     Profile.Share("ai_ml", v.aiMl), Profile.Share("cloud_infrastructure", v.cloudInfrastructure),
     Profile.Share("architecture", v.architecture)]
  }

  /** `{k: 1.0 - v for k, v in ... if v < 0.5}`. */
  function Gaps(skills: seq<Profile.Share>): seq<Profile.Share>
    decreases |skills|
  {
    if skills == [] then []
    else
      var last := skills[|skills| - 1];
      Gaps(skills[..|skills| - 1]) + (if last.value < 0.5 then [Profile.Share(last.key, 1.0 - last.value)] else [])
  }

  function ShareValue(s: Profile.Share): real {
    s.value
  }

  /** `identify_skill_gaps`: the gaps, largest first. */
  function SkillGaps(v: SkillVector): seq<Profile.Share> {
    SortDesc(Gaps(SkillList(v)), ShareValue)
  }

  /** `g` is the gap entry that skill entry `e` gives. */
  predicate IsGapOf(e: Profile.Share, g: Profile.Share) {
    e.value < 0.5 && g == Profile.Share(e.key, 1.0 - e.value)
  }

  lemma {:induction false} GapsMembers(skills: seq<Profile.Share>, g: Profile.Share)
    ensures g in Gaps(skills) <==> exists i :: 0 <= i < |skills| && IsGapOf(skills[i], g)
    decreases |skills|
  {
    if skills != [] {
      var init, last := skills[..|skills| - 1], skills[|skills| - 1];
      GapsMembers(init, g);
      assert Gaps(skills) == Gaps(init) + (if last.value < 0.5 then [Profile.Share(last.key, 1.0 - last.value)] else []);
      if g in Gaps(skills) {
        if g in Gaps(init) {
          var i :| 0 <= i < |init| && IsGapOf(init[i], g);
          assert skills[i] == init[i];
        } else {
          assert IsGapOf(skills[|skills| - 1], g);
        }
      }
      if exists i :: 0 <= i < |skills| && IsGapOf(skills[i], g) {
        var i :| 0 <= i < |skills| && IsGapOf(skills[i], g);
        if i < |init| {
          assert init[i] == skills[i];
        }
      }
    }
  }

  /** The gaps are exactly the skills scoring below 0.5, each with gap one minus the
      score, ordered by non-increasing gap. */
  lemma SkillGapsFacts(v: SkillVector, g: Profile.Share)
    ensures SortedDesc(SkillGaps(v), ShareValue)
    ensures g in SkillGaps(v) <==> exists i :: 0 <= i < 6 && IsGapOf(SkillList(v)[i], g)
    ensures g in SkillGaps(v) ==> g.value > 0.5
  {
    GapsMembers(SkillList(v), g);
    assert g in SkillGaps(v) <==> g in multiset(Gaps(SkillList(v)));
  }

  // ---------------------------------------------------------------------------
  // recommend_learning_path

  function FrontendRecommendation(f: FrictionProfile): Recommendation {
    Recommendation("Frontend Development", "high", f.react,
      "Strong backend provides foundation for fullstack capability",
      [if f.react < 0.6 then "React" else "Vue", "TypeScript", "Tailwind CSS"], f.react)
  }

  function AiMlRecommendation(f: FrictionProfile): Recommendation {
    Recommendation("AI/ML Engineering", "medium", f.mlProject,
      "Data skills provide foundation for ML work",
      ["OpenAI API", "LangChain", "Vector DBs"], f.mlProject)
  }

  function CloudRecommendation(f: FrictionProfile): Recommendation {
    Recommendation("Cloud Infrastructure", "medium", f.devops,
      "Backend expertise needs cloud deployment skills",
      ["Docker", "AWS/Vercel", "CI/CD"], f.devops)
  }

  predicate FrontendGuard(v: SkillVector) {
    v.backend > 0.6 && v.frontend < 0.3
  }

  predicate AiMlGuard(v: SkillVector) {
    v.data > 0.4 && v.aiMl < 0.3
  }

  predicate CloudGuard(v: SkillVector) {
    v.backend > 0.6 && v.cloudInfrastructure < 0.2
  }

  /** The recommendations, in the order the rules are tried. */
  function LearningPath(v: SkillVector, f: FrictionProfile): seq<Recommendation> {
    (if FrontendGuard(v) then [FrontendRecommendation(f)] else [])
    + (if AiMlGuard(v) then [AiMlRecommendation(f)] else [])
    + (if CloudGuard(v) then [CloudRecommendation(f)] else [])
  }

  /** One recommendation per guard that holds, in the order Frontend, AI/ML, Cloud:
      the frontend one first when present, the cloud one last when present, the
      AI/ML one after the frontend one. Each is present exactly when its guard
      holds, and the frontend one suggests React when the React friction is below
      0.6 and Vue otherwise. */
  lemma LearningPathFacts(v: SkillVector, f: FrictionProfile)
    ensures |LearningPath(v, f)| == (if FrontendGuard(v) then 1 else 0) + (if AiMlGuard(v) then 1 else 0) + (if CloudGuard(v) then 1 else 0)
    ensures FrontendGuard(v) ==> LearningPath(v, f)[0] == FrontendRecommendation(f)
    ensures AiMlGuard(v) ==> LearningPath(v, f)[if FrontendGuard(v) then 1 else 0] == AiMlRecommendation(f)
    ensures CloudGuard(v) ==> LearningPath(v, f)[|LearningPath(v, f)| - 1] == CloudRecommendation(f)
    ensures FrontendRecommendation(f) in LearningPath(v, f) <==> FrontendGuard(v)
    ensures AiMlRecommendation(f) in LearningPath(v, f) <==> AiMlGuard(v)
    ensures CloudRecommendation(f) in LearningPath(v, f) <==> CloudGuard(v)
    ensures FrontendRecommendation(f).suggestedTech[0] == (if f.react < 0.6 then "React" else "Vue")
  {
    var fr, ai, cl := FrontendRecommendation(f), AiMlRecommendation(f), CloudRecommendation(f);
    assert fr != ai && fr != cl && ai != cl by {
      assert fr.area[0] == 'F' && ai.area[0] == 'A' && cl.area[0] == 'C';
    }
  }

  // ---------------------------------------------------------------------------
  // predict_project_success and _identify_project_gaps

  /** `friction_map.get(project_type, '')`. */
  function FrictionName(projectType: string): string {
    if projectType == "frontend_app" then "react_friction"
    else if projectType == "fullstack_app" then "fullstack_friction"
    else if projectType == "ml_model" then "ml_project_friction"
    else if projectType == "infrastructure" then "devops_friction"
    else if projectType == "cli_tool" then "python_typing_friction"
    else ""
  }

  /** High above 0.7 is low risk, above 0.4 medium, otherwise high. */
  function Risk(success: real): string {
    if success > 0.7 then "low" else if success > 0.4 then "medium" else "high"
  }

  /** The tension points, in the order they are checked. */
  function Tensions(success: real, friction: real, qualityScore: real): seq<Tension> {
    (if success < 0.4 then [LowCapability(success)] else [])
    + (if friction > 0.6 then [HighFriction(friction)] else [])
    + (if qualityScore < 0.5 then [LowTestCoverage] else [])
  }

  /** `gap_map.get(project_type, [])`. */
  function GapRules(projectType: string): seq<(string, real)> {
    if projectType == "frontend_app" then [("frontend", 0.5), ("architecture", 0.4)]
    else if projectType == "fullstack_app" then [("frontend", 0.5), ("backend", 0.6), ("architecture", 0.5)]
    else if projectType == "ml_model" then [("ai_ml", 0.4), ("data", 0.4)]
    else if projectType == "infrastructure" then [("cloud_infrastructure", 0.4), ("backend", 0.5)]
    else []
  }

  /** One gap per rule whose skill is below its threshold, in rule order. */
  function ProjectGaps(rules: seq<(string, real)>, skills: seq<Profile.Share>): seq<Gap>
    decreases |rules|
  {
    if rules == [] then []
    else
      var last := rules[|rules| - 1];
      var value := LookupOr(skills, last.0, 0.0);
      ProjectGaps(rules[..|rules| - 1], skills) + (if value < last.1 then [Gap(last.0, value, last.1)] else [])
  }

  /** For each gap, the index of the rule that produced it. */
  function GapOrigins(rules: seq<(string, real)>, skills: seq<Profile.Share>): (r: seq<nat>)
    ensures |r| == |ProjectGaps(rules, skills)|
    ensures forall i :: 0 <= i < |r| ==> r[i] < |rules|
    decreases |rules|
  {
    if rules == [] then []
    else
      var last := rules[|rules| - 1];
      GapOrigins(rules[..|rules| - 1], skills) + (if LookupOr(skills, last.0, 0.0) < last.1 then [|rules| - 1] else [])
  }

  /** Gap of rule `j` for the given skills. */
  function GapFor(rule: (string, real), skills: seq<Profile.Share>): Gap {
    Gap(rule.0, LookupOr(skills, rule.0, 0.0), rule.1)
  }

  /** The gaps come from strictly increasing rule positions, each from a rule whose
      skill is below its threshold. */
  lemma {:induction false} ProjectGapsOrigins(rules: seq<(string, real)>, skills: seq<Profile.Share>)
    ensures forall i, j :: 0 <= i < j < |GapOrigins(rules, skills)| ==> GapOrigins(rules, skills)[i] < GapOrigins(rules, skills)[j]
    ensures forall i :: 0 <= i < |ProjectGaps(rules, skills)| ==>
              && ProjectGaps(rules, skills)[i] == GapFor(rules[GapOrigins(rules, skills)[i]], skills)
              && ProjectGaps(rules, skills)[i].value < ProjectGaps(rules, skills)[i].threshold
    decreases |rules|
  {
    if rules != [] {
      var init := rules[..|rules| - 1];
      var last := rules[|rules| - 1];
      ProjectGapsOrigins(init, skills);
      var gaps0, origins0 := ProjectGaps(init, skills), GapOrigins(init, skills);
      var gaps, origins := ProjectGaps(rules, skills), GapOrigins(rules, skills);
      var below := LookupOr(skills, last.0, 0.0) < last.1;
      var extraGaps: seq<Gap> := if below then [GapFor(last, skills)] else [];
      var extraOrigins: seq<nat> := if below then [|rules| - 1] else [];
      assert gaps == gaps0 + extraGaps;
      assert origins == origins0 + extraOrigins;
      forall i, j | 0 <= i < j < |origins| ensures origins[i] < origins[j] {
        assert origins[i] == origins0[i] && origins0[i] < |init|;
        if j < |origins0| {
          assert origins[j] == origins0[j];
        } else {
          assert origins[j] == |rules| - 1;
        }
      }
      forall i | 0 <= i < |gaps| ensures gaps[i] == GapFor(rules[origins[i]], skills) && gaps[i].value < gaps[i].threshold {
        if i < |gaps0| {
          assert gaps[i] == gaps0[i] && origins[i] == origins0[i];
          assert rules[origins0[i]] == init[origins0[i]];
        } else {
          assert gaps[i] == GapFor(last, skills) && origins[i] == |rules| - 1;
        }
      }
    }
  }

  /** Every rule whose skill is below its threshold gives a gap. */
  lemma {:induction false} ProjectGapsComplete(rules: seq<(string, real)>, skills: seq<Profile.Share>, j: nat)
    requires j < |rules| && LookupOr(skills, rules[j].0, 0.0) < rules[j].1
    ensures GapFor(rules[j], skills) in ProjectGaps(rules, skills)
    decreases |rules|
  {
    var init := rules[..|rules| - 1];
    if j < |init| {
      ProjectGapsComplete(init, skills, j);
      assert init[j] == rules[j];
    }
  }

  /** An unknown project type has no gap rules and so no gaps. */
  lemma UnknownProjectGaps(projectType: string, skills: seq<Profile.Share>)
    requires !OneOf(projectType, ["frontend_app", "fullstack_app", "ml_model", "infrastructure"])
    ensures ProjectGaps(GapRules(projectType), skills) == []
  {
  }

  /** The prediction for a project type; `None` where computing the skill vector
      fails. */
  function PredictionOf(p: TranslatedProfile, projectType: string, c: CapabilityAssessment, f: FrictionProfile): Option<Prediction> {
    var success := LookupOr(CapabilityList(c), projectType, 0.5);
    var friction := LookupOr(FrictionList(f), FrictionName(projectType), 0.5);
    match SkillVectorOf(p)
    case None => None
    case Some(v) =>
      Some(Prediction(projectType, success, friction, Risk(success),
        Tensions(success, friction, p.qualityScore), ProjectGaps(GapRules(projectType), SkillList(v))))
  }

  /** The risk level is the band the success score falls in. */
  lemma RiskFacts(success: real)
    ensures Risk(success) == "low" <==> success > 0.7
    ensures Risk(success) == "medium" <==> 0.4 < success <= 0.7
    ensures Risk(success) == "high" <==> success <= 0.4
  {
  }

  /** Each tension point is present exactly when its condition holds. */
  lemma TensionsFacts(success: real, friction: real, qualityScore: real)
    ensures |Tensions(success, friction, qualityScore)| <= 3
    ensures LowCapability(success) in Tensions(success, friction, qualityScore) <==> success < 0.4
    ensures HighFriction(friction) in Tensions(success, friction, qualityScore) <==> friction > 0.6
    ensures LowTestCoverage in Tensions(success, friction, qualityScore) <==> qualityScore < 0.5
  {
  }

  const CapabilityNames: seq<string> :=
    ["api_service", "cli_tool", "data_pipeline", "ml_model", "frontend_app", "fullstack_app", "infrastructure", "plugin_system"]

  /** A project type that names no capability gets success 0.5; one that does gets
      that capability. */
  lemma SuccessLookup(c: CapabilityAssessment, projectType: string)
    ensures projectType !in CapabilityNames ==> LookupOr(CapabilityList(c), projectType, 0.5) == 0.5
    ensures forall j :: 0 <= j < 8 && projectType == CapabilityNames[j] ==> LookupOr(CapabilityList(c), projectType, 0.5) == CapabilityList(c)[j].value
  {
    var m := CapabilityList(c);
    assert forall i :: 0 <= i < |m| ==> m[i].key == CapabilityNames[i];
    if projectType !in CapabilityNames {
      LookupAbsent(m, projectType, 0.5);
    }
    forall j | 0 <= j < 8 && projectType == CapabilityNames[j]
      ensures LookupOr(m, projectType, 0.5) == m[j].value
    {
      assert forall i, j :: 0 <= i < j < 8 ==> CapabilityNames[i] != CapabilityNames[j];
      LookupFirst(m, projectType, 0.5, j);
    }
  }

  /** A project type outside the friction map gets friction 0.5; a front-end app
      gets the React friction. */
  lemma FrictionLookup(f: FrictionProfile, projectType: string)
    ensures projectType !in ["frontend_app", "fullstack_app", "ml_model", "infrastructure", "cli_tool"]
      ==> LookupOr(FrictionList(f), FrictionName(projectType), 0.5) == 0.5
    ensures projectType == "frontend_app" ==> LookupOr(FrictionList(f), FrictionName(projectType), 0.5) == f.react
  {
    var m := FrictionList(f);
    if projectType !in ["frontend_app", "fullstack_app", "ml_model", "infrastructure", "cli_tool"] {
      assert forall i :: 0 <= i < |m| ==> m[i].key != "";
      LookupAbsent(m, "", 0.5);
    } else if projectType == "frontend_app" {
      LookupFirst(m, "react_friction", 0.5, 0);
    }
  }

  /** A prediction quotes its success score's risk band and its own tension points;
      unknown project types get the 0.5 defaults. */
  lemma PredictionFacts(p: TranslatedProfile, projectType: string, c: CapabilityAssessment, f: FrictionProfile)
    requires PredictionOf(p, projectType, c, f).Some?
    ensures var r := PredictionOf(p, projectType, c, f).value;
      && r.riskLevel == Risk(r.successLikelihood)
      && r.tensionPoints == Tensions(r.successLikelihood, r.frictionScore, p.qualityScore)
      && (projectType !in CapabilityNames ==> r.successLikelihood == 0.5)
      && (projectType !in ["frontend_app", "fullstack_app", "ml_model", "infrastructure", "cli_tool"] ==> r.frictionScore == 0.5)
      && (projectType !in ["frontend_app", "fullstack_app", "ml_model", "infrastructure"] ==> r.skillGaps == [])
  {
    SuccessLookup(c, projectType);
    FrictionLookup(f, projectType);
  }

  /** The complete predictive profile; `None` where computing the skill vector
      fails. */
  function PredictiveProfileOf(p: TranslatedProfile): Option<PredictiveProfile> {
    match SkillVectorOf(p)
    case None => None
    case Some(v) =>
      var style := CodeStyleOf(p);
      var friction := FrictionOf(p, v, style);
      Some(PredictiveProfile(
        v, style, friction, CapabilitiesOf(p, v), SkillGaps(v), LearningPath(v, friction), DevtoolsSkill(p),
        ModelMetadata("2.0.0", p.totalRepositories, "static_analysis_only", p.analysisTimestamp)))
  }

  /** The profile exists exactly when `avg_repo_size` is present. It is stamped
      with version "2.0.0", the repository count and the analysis time, its
      gaps are ordered by non-increasing gap, and it recommends at most three
      areas. For a normalised translated profile every skill, style value,
      friction and capability lies in [0, 1], and so does the devtools skill. */
  lemma PredictiveProfileFacts(p: TranslatedProfile)
    ensures PredictiveProfileOf(p).Some? <==> p.avgRepoSize.Some?
    ensures PredictiveProfileOf(p).Some? ==> var r := PredictiveProfileOf(p).value;
      && r.metadata == ModelMetadata("2.0.0", p.totalRepositories, "static_analysis_only", p.analysisTimestamp)
      && SortedDesc(r.skillGaps, ShareValue)
      && |r.learningPath| <= 3
    ensures PredictiveProfileOf(p).Some? && Normalised(p) ==> var r := PredictiveProfileOf(p).value;
      && InUnit(r.skillVector) && StyleInUnit(r.codeStyle)
      && ValuesIn(FrictionList(r.friction), 0.0, 1.0)
      && CapabilitiesWithin(r.capabilities, 0.0)
      && 0.0 <= r.devtoolsSkill <= 1.0
  {
    SkillVectorFacts(p);
    if SkillVectorOf(p).Some? {
      var v := SkillVectorOf(p).value;
      var style := CodeStyleOf(p);
      CodeStyleFacts(p);
      FrictionFacts(p, v, style);
      CapabilityFacts(p, v);
      DevtoolsSkillFacts(p);
      SkillGapsFacts(v, Profile.Share("", 0.0));
      LearningPathFacts(v, FrictionOf(p, v, style));
    }
  }

  /** `DivergencePredictiveModel`: the file to read and, once read, its data. */
  class DivergencePredictiveModel {
    var translatedFile: string
    var data: Option<TranslatedProfile>

    constructor (translatedFile: string)
      ensures this.translatedFile == translatedFile && data == None
    {
      this.translatedFile := translatedFile;
      data := None;
    }

    /** `load_data`, with the decoded contents of the file given. */
    method LoadData(profile: TranslatedProfile)
      modifies this
      ensures data == Some(profile) && translatedFile == old(translatedFile)
    {
      data := Some(profile);
    }

    /** `recommend_learning_path`: each rule appends its recommendation. */
    method RecommendLearningPath(v: SkillVector, f: FrictionProfile) returns (recommendations: seq<Recommendation>)
      ensures recommendations == LearningPath(v, f)
    {
      recommendations := [];
      if v.backend > 0.6 && v.frontend < 0.3 {
        recommendations := recommendations + [FrontendRecommendation(f)];
      }
      if v.data > 0.4 && v.aiMl < 0.3 {
        recommendations := recommendations + [AiMlRecommendation(f)];
      }
      if v.backend > 0.6 && v.cloudInfrastructure < 0.2 {
        recommendations := recommendations + [CloudRecommendation(f)];
      }
    }

    /** `_identify_project_gaps`: the loop over the project type's rules. */
    method IdentifyProjectGaps(projectType: string, skills: seq<Profile.Share>) returns (gaps: seq<Gap>)
      ensures gaps == ProjectGaps(GapRules(projectType), skills)
    {
      var rules := GapRules(projectType);
      gaps := [];
      for i := 0 to |rules|
        invariant gaps == ProjectGaps(rules[..i], skills)
      {
        assert rules[..i + 1][..i] == rules[..i];
        var value := LookupOr(skills, rules[i].0, 0.0);
        if value < rules[i].1 {
          gaps := gaps + [Gap(rules[i].0, value, rules[i].1)];
        }
      }
      assert rules[..|rules|] == rules;
    }

    /** `predict_project_success`: the tension checks append in order. */
    method PredictProjectSuccess(projectType: string, c: CapabilityAssessment, f: FrictionProfile)
      returns (prediction: Option<Prediction>)
      requires data.Some?
      ensures prediction == PredictionOf(data.value, projectType, c, f)
    {
      var p := data.value;
      var success := LookupOr(CapabilityList(c), projectType, 0.5);
      var friction := LookupOr(FrictionList(f), FrictionName(projectType), 0.5);
      var tensions: seq<Tension> := [];
      if success < 0.4 {
        tensions := tensions + [LowCapability(success)];
      }
      if friction > 0.6 {
        tensions := tensions + [HighFriction(friction)];
      }
      if p.qualityScore < 0.5 {
        tensions := tensions + [LowTestCoverage];
      }
      assert tensions == Tensions(success, friction, p.qualityScore);
      match SkillVectorOf(p) {
        case None =>
          prediction := None;
        case Some(v) =>
          var gaps := IdentifyProjectGaps(projectType, SkillList(v));
          prediction := Some(Prediction(projectType, success, friction, Risk(success), tensions, gaps));
      }
    }

    /** `generate_predictive_profile`: loads the profile, then derives each part. */
    method GeneratePredictiveProfile(profile: TranslatedProfile) returns (result: Option<PredictiveProfile>)
      modifies this
      ensures data == Some(profile) && translatedFile == old(translatedFile)
      ensures result == PredictiveProfileOf(profile)
    {
      LoadData(profile);
      match SkillVectorOf(profile) {
        case None =>
          result := None;
        case Some(v) =>
          var style := CodeStyleOf(profile);
          var friction := FrictionOf(profile, v, style);
          var path := RecommendLearningPath(v, friction);
          result := Some(PredictiveProfile(
            v, style, friction, CapabilitiesOf(profile, v), SkillGaps(v), path, DevtoolsSkill(profile),
            ModelMetadata("2.0.0", profile.totalRepositories, "static_analysis_only", profile.analysisTimestamp)));
      }
    }
  }
}

/**
 * The cost estimator's rules engine (`computeEstimate` and `toTitle` of src/pages/CostEstimate.jsx).
 *
 * The answer payload is a record of strings and string lists; `None` stands for a field that is
 * `undefined` or `null` (and, for the two lists, for a value that is not an array). The user volume is the
 * one answer the code tells apart from `null`, so it is an `Answer`. Unknown keys weigh 0.
 * Money is exact: the rush multipliers 1.25 and 1.10 become percentages, so a rushed total is held in
 * hundredths of a dollar, and the variance 0.20 / 0.25 becomes a percentage too. `Math.ceil` of a quotient
 * is `CeilDiv`, and `Math.round(x)` (round half up) is `floor(x + 1/2)`.
 */
module EstimateEngine {
  import opened Wrappers

  // ---------------------------------------------------------------------------------------------
  // Answers and weight tables
  // ---------------------------------------------------------------------------------------------

  /** A JSON answer that is `undefined`, `null` or a string. */
  datatype Answer = Undefined | JsonNull | Given(value: string) {
    /** The answer as table lookups and `includes` read it: `null` and `undefined` alike match no key. */
    function AsOption(): (o: Option<string>)
      ensures o.Some? <==> this.Given?
      ensures o.Some? ==> o.value == this.value
    {
      if this.Given? then Some(this.value) else None
    }
  }

  datatype Answers = Answers(
    projectType: Option<string>,
    features: Option<seq<string>>,
    stage: Option<string>,
    integrationsCount: Option<string>,
    userVolume: Answer,
    compliance: Option<string>,
    timeline: Option<string>,
    designScope: Option<string>,
    migration: Option<string>,
    platforms: Option<seq<string>>)

  /** `PROJECT_TYPE[key] || 0`. */
  function ProjectTypeWeight(key: Option<string>): (w: nat)
    ensures w <= 10
  {
    match key
    case None => 0
    case Some(k) =>
      if k == "new_saas_mvp" then 8 else if k == "automation_tool" then 5
      else if k == "crm_portal" then 10 else if k == "ghl_app" then 9 else 0
  }

  /** `FEATURES[key] || 0`. */
  function FeatureWeight(key: Option<string>): (w: nat)
    ensures w <= 10
  {
    match key
    case None => 0
    case Some(k) =>
      if k == "auth_roles" then 4 else if k == "payments" then 6 else if k == "dashboards" then 5
      else if k == "scheduling" then 4 else if k == "messaging" then 6 else if k == "file_upload" then 3
      else if k == "ai" then 8 else if k == "realtime_voice" then 10 else if k == "multi_tenant" then 8
      else if k == "mobile_ui" then 3 else 0
  }

  /** The keys of the features table in declaration order (`Object.keys(FEATURES)`). */
  const FEATURE_KEYS: seq<string> :=
    ["auth_roles", "payments", "dashboards", "scheduling", "messaging", "file_upload", "ai", "realtime_voice",
     "multi_tenant", "mobile_ui"]

  /** `STAGE[key] || 0`. */
  function StageWeight(key: Option<string>): (w: nat)
    ensures w <= 6
  {
    match key
    case None => 0
    case Some(k) =>
      if k == "idea_only" then 6 else if k == "nocode_mvp" then 4
      else if k == "backend_exists" then 3 else if k == "scaling_automation" then 5 else 0
  }

  /** `INTEGRATIONS[key] || 0`. */
  function IntegrationsWeight(key: string): (w: nat)
    ensures w <= 14
    ensures key == "0" || key == "none" ==> w == 0
  {
    if key == "0" then 0 else if key == "1_2" then 4 else if key == "3_5" then 8 else if key == "6_plus" then 14 else 0
  }

  /** `USER_VOLUME[key] || 0`. */
  function UserVolumeWeight(key: Option<string>): (w: nat)
    ensures w <= 10
    ensures key.None? || key == Some("lt_1k") ==> w == 0
  {
    match key
    case None => 0
    case Some(k) =>
      if k == "lt_100" then 1 else if k == "100_1k" then 3 else if k == "1k_10k" then 6 else if k == "gt_10k" then 10 else 0
  }

  /** `COMPLIANCE[key] || 0`. */
  function ComplianceWeight(key: Option<string>): (w: nat)
    ensures w <= 10
    ensures key == Some("basic") ==> w == 0
  {
    match key
    case None => 0
    case Some(k) => if k == "basic" then 0 else if k == "pii_audit" then 6 else if k == "industry" then 10 else 0
  }

  /** `DESIGN[key] || 0`. */
  function DesignWeight(key: Option<string>): (w: nat)
    ensures w <= 10
  {
    match key
    case None => 0
    case Some(k) =>
      if k == "basic_ui_kit" then 2 else if k == "design_system" then 6 else if k == "prototype_testing" then 10 else 0
  }

  /** `MIGRATION[key] || 0`. */
  function MigrationWeight(key: Option<string>): (w: nat)
    ensures w <= 8
  {
    match key
    case None => 0
    case Some(k) => if k == "none" then 0 else if k == "csv_simple" then 3 else if k == "complex_multi" then 8 else 0
  }

  /** `PLATFORMS[key] || 0`. */
  function PlatformWeight(key: Option<string>): (w: nat)
    ensures w <= 6
  {
    match key
    case None => 0
    case Some(k) =>
      if k == "web" then 0 else if k == "ghl_embedded" then 6 else if k == "admin_client_portals" then 4
      else if k == "public_api" then 6 else 0
  }

  /** The keys of the platforms table in declaration order (`Object.keys(PLATFORMS)`). */
  const PLATFORM_KEYS: seq<string> := ["web", "ghl_embedded", "admin_client_portals", "public_api"]

  // ---------------------------------------------------------------------------------------------
  // Stage 0: normalisation
  // ---------------------------------------------------------------------------------------------

  /** `filter(Boolean).filter(x => x !== 'none')` over a list of strings: drops '' and 'none'. */
  function Kept(xs: seq<string>): (r: seq<string>)
    ensures forall x :: x in r <==> x in xs && x != "" && x != "none"
    ensures |r| <= |xs|
  {
    if |xs| == 0 then []
    else
      var init := Kept(xs[..|xs| - 1]);
      var last := xs[|xs| - 1];
      assert forall x :: x in xs <==> x in xs[..|xs| - 1] || x == last by {
        assert xs == xs[..|xs| - 1] + [last];
      }
      if last != "" && last != "none" then init + [last] else init
  }

  /** A list field after normalisation: not an array reads as empty. */
  function ListOf(field: Option<seq<string>>): seq<string> {
    match field
    case None => []
    case Some(xs) => Kept(xs)
  }

  /** The payload as the engine reads it after stage 0. */
  datatype Normalized = Normalized(
    projectType: Option<string>,
    features: seq<string>,
    stage: Option<string>,
    integrationsKey: string,
    userVolume: Answer,
    compliance: Option<string>,
    timeline: Option<string>,
    designScope: Option<string>,
    migration: Option<string>,
    platforms: seq<string>)

  /** Stage 0: both lists lose '' and 'none' entries, and a missing integration count reads as '0'. */
  function Normalize(a: Answers): (n: Normalized)
    ensures forall f :: f in n.features <==> a.features.Some? && f in a.features.value && f != "" && f != "none"
    ensures forall p :: p in n.platforms <==> a.platforms.Some? && p in a.platforms.value && p != "" && p != "none"
    ensures n.integrationsKey == if a.integrationsCount.None? then "0" else a.integrationsCount.value
  {
    Normalized(a.projectType, ListOf(a.features), a.stage, a.integrationsCount.GetOr("0"), a.userVolume,
               a.compliance, a.timeline, a.designScope, a.migration, ListOf(a.platforms))
  }

  // ---------------------------------------------------------------------------------------------
  // Stage 1: base score
  // ---------------------------------------------------------------------------------------------

  /** `xs.reduce((s, x) => s + (TABLE[x] || 0), 0)` for the table whose lookup is `weight`. */
  function SumWeights(weight: Option<string> -> nat, xs: seq<string>): nat {
    if |xs| == 0 then 0 else SumWeights(weight, xs[..|xs| - 1]) + weight(Some(xs[|xs| - 1]))
  }

  /** A sum of weights that are each at most `k` is at most `k` per entry. */
  lemma {:induction false} SumWeightsBound(weight: Option<string> -> nat, xs: seq<string>, k: nat)
    requires forall x :: weight(x) <= k
    ensures SumWeights(weight, xs) <= k * |xs|
  {
    if |xs| > 0 {
      SumWeightsBound(weight, xs[..|xs| - 1], k);
    }
  }

  /**
   * The base score: the sum of every field's table weight. The single-choice answers add at most 68 points;
   * each selected feature adds at most 10 and each platform at most 6.
   */
  function BaseScore(n: Normalized): (s: nat)
    ensures s <= 68 + 10 * |n.features| + 6 * |n.platforms|
  {
    SumWeightsBound(FeatureWeight, n.features, 10);
    SumWeightsBound(PlatformWeight, n.platforms, 6);
    ProjectTypeWeight(n.projectType)
    + SumWeights(FeatureWeight, n.features)
    + StageWeight(n.stage)
    + IntegrationsWeight(n.integrationsKey)
    + UserVolumeWeight(n.userVolume.AsOption())
    + ComplianceWeight(n.compliance)
    + DesignWeight(n.designScope)
    + MigrationWeight(n.migration)
    + SumWeights(PlatformWeight, n.platforms)
  }

  // ---------------------------------------------------------------------------------------------
  // Stages 2 and 3: flags and the "basically nothing selected" case
  // ---------------------------------------------------------------------------------------------

  datatype Flags = Flags(ai: bool, voice: bool, multiTenant: bool, ghl: bool, scaleUsers: bool, compliance: bool)

  function FlagsOf(n: Normalized): (f: Flags)
    ensures f.compliance <==> n.compliance != Some("basic")
    ensures f.scaleUsers <==> n.userVolume == Given("1k_10k") || n.userVolume == Given("gt_10k")
  {
    Flags(
      "ai" in n.features,
      "realtime_voice" in n.features,
      "multi_tenant" in n.features,
      "ghl_embedded" in n.platforms,
      n.userVolume == Given("1k_10k") || n.userVolume == Given("gt_10k"),
      n.compliance != Some("basic"))
  }

  /**
   * The minimal-scope clamp: no features, no platforms, no integrations ('0' or 'none'), basic compliance,
   * and a user volume that is 'lt_1k' or `undefined` (a `null` user volume does not qualify).
   */
  predicate IsBasicSetup(n: Normalized)
    ensures IsBasicSetup(n) ==>
              && SumWeights(FeatureWeight, n.features) == 0 && SumWeights(PlatformWeight, n.platforms) == 0
              && IntegrationsWeight(n.integrationsKey) == 0 && ComplianceWeight(n.compliance) == 0
              && UserVolumeWeight(n.userVolume.AsOption()) == 0
  {
    && |n.features| == 0
    && |n.platforms| == 0
    && (n.integrationsKey == "0" || n.integrationsKey == "none")
    && n.compliance == Some("basic")
    && (n.userVolume == Given("lt_1k") || n.userVolume.Undefined?)
  }

  // ---------------------------------------------------------------------------------------------
  // Stages 4 to 6: price band, add-ons, clamp
  // ---------------------------------------------------------------------------------------------

  /** The price band of a base score: a step function with thresholds 18, 28, 50 and 80. */
  function BasePrice(base: nat): (p: nat)
    ensures 900 <= p <= 18000
  {
    if base <= 18 then 900
    else if base <= 28 then 1200
    else if base <= 50 then 3000
    else if base <= 80 then 7500
    else 18000
  }

  /** The fixed dollar amounts each flag adds; at most 11000 in all. */
  function AddOnPrice(f: Flags): (p: nat)
    ensures p <= 11000
    ensures p == (if f.ai then 2500 else 0) + (if f.voice then 3000 else 0) + (if f.multiTenant then 2000 else 0)
               + (if f.compliance then 1500 else 0) + (if f.ghl then 800 else 0) + (if f.scaleUsers then 1200 else 0)
  {
    var p := 0;
    var p := if f.ai then p + 2500 else p;
    var p := if f.voice then p + 3000 else p;
    var p := if f.multiTenant then p + 2000 else p;
    var p := if f.compliance then p + 1500 else p;
    var p := if f.ghl then p + 800 else p;
    var p := if f.scaleUsers then p + 1200 else p;
    p
  }

  /** The dollar price before the rush premium: band plus add-ons, or exactly 800 for a basic setup. */
  function PriceBeforeRush(n: Normalized): (p: nat)
    ensures IsBasicSetup(n) ==> p == 800
    ensures !IsBasicSetup(n) ==> p == BasePrice(BaseScore(n)) + AddOnPrice(FlagsOf(n)) && p >= 900
  {
    if IsBasicSetup(n) then 800 else BasePrice(BaseScore(n)) + AddOnPrice(FlagsOf(n))
  }

  // ---------------------------------------------------------------------------------------------
  // Stages 7 and 8: rush premium and cost range
  // ---------------------------------------------------------------------------------------------

  /**
   * `(basePrice + addOnPrice) * rushMultiplier` in hundredths of a dollar: the multiplier is 1.25 for
   * 'asap', 1.10 for '3_6_mo' and 1.0 otherwise.
   */
  function Rushed(price: nat, timeline: Option<string>): (t: nat)
    ensures timeline == Some("asap") ==> t == 125 * price
    ensures timeline == Some("3_6_mo") ==> t == 110 * price
    ensures timeline != Some("asap") && timeline != Some("3_6_mo") ==> t == 100 * price
  {
    if timeline == Some("asap") then price * 125 else if timeline == Some("3_6_mo") then price * 110 else price * 100
  }

  /** The range variance as a percentage: 25 exactly when the base score exceeds 80, else 20. */
  function VariancePercent(base: nat): (v: nat)
    ensures v == 25 <==> base > 80
    ensures v == 20 <==> base <= 80
  {
    if base <= 28 then 20 else if base > 80 then 25 else 20
  }

  /** The rounding increment of a rushed total given in hundredths of a dollar: 100 below $2000, else 250. */
  function RoundTo(totalHundredths: nat): (step: nat)
    ensures step == 100 <==> totalHundredths < 200000
    ensures step == 250 <==> totalHundredths >= 200000
  {
    if totalHundredths < 200000 then 100 else 250
  }

  /** `Math.ceil(a / b)` for non-negative `a` and positive `b`. */
  function CeilDiv(a: nat, b: nat): (q: nat)
    requires b > 0
    ensures q * b >= a
    ensures q == 0 || (q - 1) * b < a
  {
    (a + b - 1) / b
  }

  /**
   * `Math.ceil(x / step) * step`, where the dollar amount x is given as `num / 10000` (a total in hundredths
   * of a dollar times a percentage).
   */
  function RoundUp(num: nat, step: nat): (r: nat)
    requires step == 100 || step == 250
    ensures r % step == 0
    ensures r * 10000 >= num
    ensures r == 0 || (r - step) * 10000 < num
  {
    if step == 100 then CeilDiv(num, 1000000) * 100 else CeilDiv(num, 2500000) * 250
  }

  datatype Range = Range(low: nat, high: nat)

  /** `totalBasePrice * (1 - variance)` for a variance of 20% or 25%, in ten-thousandths of a dollar. */
  function LowAmount(totalHundredths: nat, variance: nat): nat
    requires variance == 20 || variance == 25
  {
    if variance == 20 then totalHundredths * 80 else totalHundredths * 75
  }

  /** `totalBasePrice * (1 + variance)` for a variance of 20% or 25%, in ten-thousandths of a dollar. */
  function HighAmount(totalHundredths: nat, variance: nat): nat
    requires variance == 20 || variance == 25
  {
    if variance == 20 then totalHundredths * 120 else totalHundredths * 125
  }

  /**
   * The rounded range around a rushed total (in hundredths of a dollar) with the given variance percentage:
   * both bounds rounded up to the increment, the low bound raised to at least 800 and the high bound to at
   * least 400 above the low one.
   */
  function CostRange(totalHundredths: nat, variance: nat): (r: Range)
    requires variance == 20 || variance == 25
    ensures r.low >= 800
    ensures r.high >= r.low + 400
    ensures r.low == Max(RoundUp(LowAmount(totalHundredths, variance), RoundTo(totalHundredths)), 800)
    ensures r.high == Max(RoundUp(HighAmount(totalHundredths, variance), RoundTo(totalHundredths)), r.low + 400)
  {
    var step := RoundTo(totalHundredths);
    var low := Max(RoundUp(LowAmount(totalHundredths, variance), step), 800);
    var high := Max(RoundUp(HighAmount(totalHundredths, variance), step), low + 400);
    Range(low, high)
  }

  function Max(a: nat, b: nat): (m: nat)
    ensures m >= a && m >= b && (m == a || m == b)
  {
    if a >= b then a else b
  }

  // ---------------------------------------------------------------------------------------------
  // Stages 9 to 12: schedule, tier, stack, hours
  // ---------------------------------------------------------------------------------------------

  /** The duration metric: the base score plus 15 for AI, 20 for realtime voice and 12 for multi-tenancy. */
  function TotalComplexity(base: nat, f: Flags): (tc: nat)
    ensures tc >= base
    ensures tc <= base + 47
  {
    base + (if f.ai then 15 else 0) + (if f.voice then 20 else 0) + (if f.multiTenant then 12 else 0)
  }

  /** Uncompressed weeks by the total-complexity ladder 25 / 50 / 80. */
  function LadderWeeks(tc: nat): (w: nat)
    ensures w == 3 <==> tc <= 25
    ensures w == 5 <==> 25 < tc <= 50
    ensures w == 8 <==> 50 < tc <= 80
    ensures w == 12 <==> tc > 80
  {
    if tc <= 25 then 3 else if tc <= 50 then 5 else if tc <= 80 then 8 else 12
  }

  function LadderSprints(tc: nat): nat {
    if tc <= 25 then 2 else if tc <= 50 then 3 else if tc <= 80 then 4 else 6
  }

  /** A more complex project is never scheduled in fewer weeks or sprints. */
  lemma LadderMonotone(tc: nat, tc': nat)
    requires tc <= tc'
    ensures LadderWeeks(tc) <= LadderWeeks(tc')
    ensures LadderSprints(tc) <= LadderSprints(tc')
  {
  }

  datatype Schedule = Schedule(weeks: nat, sprints: nat, rush: bool)

  /**
   * Weeks and sprints by the ladder; an 'asap' timeline with more than 4 weeks compresses weeks to
   * `max(4, ceil(0.7 * weeks))` and recomputes sprints as `ceil(weeks / 2)`. The rush note is set exactly
   * when the timeline is 'asap' and the compressed weeks still exceed 8.
   */
  function ScheduleOf(tc: nat, timeline: Option<string>): (s: Schedule)
    ensures timeline != Some("asap") ==> s.weeks == LadderWeeks(tc) && s.sprints == LadderSprints(tc) && !s.rush
    ensures timeline == Some("asap") && LadderWeeks(tc) > 4 ==>
              s.weeks == Max(4, CeilDiv(7 * LadderWeeks(tc), 10)) && s.sprints == CeilDiv(s.weeks, 2)
    ensures s.weeks <= LadderWeeks(tc)
    ensures s.rush <==> timeline == Some("asap") && tc > 80
  {
    var weeks := LadderWeeks(tc);
    var sprints := LadderSprints(tc);
    if timeline == Some("asap") && weeks > 4 then
      var w := Max(4, CeilDiv(7 * weeks, 10));
      Schedule(w, CeilDiv(w, 2), w > 8)
    else
      Schedule(weeks, sprints, timeline == Some("asap") && weeks > 8)
  }

  datatype Staffing = Staffing(tier: string, team: string)

  /** Tier A/B/C/D by the total-complexity thresholds 30 / 60 / 100, with the matching role mix. */
  function StaffingOf(tc: nat): (s: Staffing)
    ensures s.tier == "A" <==> tc <= 30
    ensures s.tier == "B" <==> 30 < tc <= 60
    ensures s.tier == "C" <==> 60 < tc <= 100
    ensures s.tier == "D" <==> tc > 100
  {
    if tc <= 30 then Staffing("A", "1 Full-stack, 0.2 PM")
    else if tc <= 60 then Staffing("B", "1 FE, 1 BE, 0.4 PM")
    else if tc <= 100 then Staffing("C", "1 FE, 2 BE, 1 PM, 0.5 QA")
    else Staffing("D", "1-2 FE, 3 BE, 1 PM, 1 QA, Solution Architect (pt)")
  }

  const BASELINE_STACK: seq<string> := ["React", "Node (Nest.js)", "Postgres", "Redis", "AWS (S3 + Cloud)"]
  const AI_STACK: seq<string> := ["Python (FastAPI) AI microservice", "LLM (OpenAI/Anthropic)"]
  const VOICE_STACK: seq<string> := ["WebRTC/Retell", "WebSockets"]
  const GHL_STACK: seq<string> := ["GHL OAuth + API"]

  /** The baseline stack followed, in this order, by the AI, voice and GHL entries whose flag holds. */
  function StackOf(f: Flags): (s: seq<string>)
    ensures |s| == 5 + (if f.ai then 2 else 0) + (if f.voice then 2 else 0) + (if f.ghl then 1 else 0)
    ensures s[..5] == BASELINE_STACK
    ensures f.ai ==> s[5..7] == AI_STACK
    ensures f.voice ==> s[5 + (if f.ai then 2 else 0)..][..2] == VOICE_STACK
    ensures f.ghl ==> s[|s| - 1] == GHL_STACK[0]
    ensures AI_STACK[0] in s <==> f.ai
    ensures VOICE_STACK[0] in s <==> f.voice
    ensures GHL_STACK[0] in s <==> f.ghl
  {
    StackEntriesDistinct();
    var s0 := BASELINE_STACK;
    var s1 := if f.ai then s0 + AI_STACK else s0;
    var s2 := if f.voice then s1 + VOICE_STACK else s1;
    var s3 := if f.ghl then s2 + GHL_STACK else s2;
    assert s1[..5] == s0 && s2[..|s1|] == s1 && s3[..|s2|] == s2;
    assert AI_STACK[0] in s1 <==> f.ai;
    assert VOICE_STACK[0] !in s1 && GHL_STACK[0] !in s1;
    assert VOICE_STACK[0] in s2 <==> f.voice;
    assert GHL_STACK[0] !in s2;
    s3
  }

  /** The first entry of each optional block appears nowhere else in the stack. */
  lemma StackEntriesDistinct()
    ensures AI_STACK[0] !in BASELINE_STACK + VOICE_STACK + GHL_STACK
    ensures VOICE_STACK[0] !in BASELINE_STACK + AI_STACK + GHL_STACK
    ensures GHL_STACK[0] !in BASELINE_STACK + AI_STACK + VOICE_STACK
  {
  }

  /** Rounding a number of hundredths never turns a smaller amount into a larger one. */
  lemma RoundPercentMonotone(a: nat, b: nat)
    requires a <= b
    ensures RoundHalfUp(a, 100) <= RoundHalfUp(b, 100)
  {
  }

  /** `Math.round(num / den)` for non-negative `num`: round half up. */
  function RoundHalfUp(num: nat, den: nat): (r: nat)
    requires den > 0
    ensures 2 * r * den <= 2 * num + den < 2 * (r + 1) * den
  {
    (2 * num + den) / (2 * den)
  }

  datatype Phases = Phases(core: nat, integrations: nat, hardening: nat)

  /** The phase ratios as percentages: (45, 35, 20), or (40, 40, 20) when AI or voice is present. */
  function PhaseRatios(f: Flags): (p: (nat, nat, nat))
    ensures p.0 + p.1 + p.2 == 100
    ensures p == (if f.ai || f.voice then (40, 40, 20) else (45, 35, 20))
  {
    if f.ai || f.voice then (40, 40, 20) else (45, 35, 20)
  }

  /** `Math.round(tc * 2.5)`: two and a half hours per complexity point, a half hour rounded up. */
  function TotalHours(tc: nat): (h: nat)
    ensures 2 * h == 5 * tc || 2 * h == 5 * tc + 1
  {
    RoundHalfUp(5 * tc, 2)
  }

  /** The three phases, each rounded on its own; hardening is never the largest and never above the total. */
  function PhasesOf(hours: nat, f: Flags): (ph: Phases)
    ensures ph.hardening <= ph.integrations <= ph.core <= hours
  {
    var p := PhaseRatios(f);
    RoundPercentMonotone(hours * p.2, hours * p.1);
    RoundPercentMonotone(hours * p.1, hours * p.0);
    RoundPercentMonotone(hours * p.0, hours * 100);
    assert RoundHalfUp(hours * 100, 100) == hours;
    Phases(RoundHalfUp(hours * p.0, 100), RoundHalfUp(hours * p.1, 100), RoundHalfUp(hours * p.2, 100))
  }

  // ---------------------------------------------------------------------------------------------
  // computeEstimate
  // ---------------------------------------------------------------------------------------------

  datatype Estimate = Estimate(
    baseScore: nat,
    complexity: nat,
    tier: string,
    team: string,
    devHours: nat,
    totalHours: nat,
    sprints: nat,
    weeks: nat,
    costLow: nat,
    costHigh: nat,
    stack: seq<string>,
    phases: Phases,
    rush: bool)

  /** The rushed total in hundredths of a dollar: `(basePrice + addOnPrice) * rushMultiplier`. */
  function RushedTotal(n: Normalized): nat {
    Rushed(PriceBeforeRush(n), n.timeline)
  }

  /** The estimate of a normalised payload (stages 1 to 13). */
  function EstimateOf(n: Normalized): (e: Estimate)
    ensures e.costLow >= 800 && e.costHigh >= e.costLow + 400
    ensures e.baseScore == BaseScore(n)
    ensures e.rush <==> n.timeline == Some("asap") && TotalComplexity(BaseScore(n), FlagsOf(n)) > 80
    ensures e.devHours <= e.totalHours
  {
    var base := BaseScore(n);
    var flags := FlagsOf(n);
    var range := CostRange(RushedTotal(n), VariancePercent(base));
    var tc := TotalComplexity(base, flags);
    var schedule := ScheduleOf(tc, n.timeline);
    var staffing := StaffingOf(tc);
    var hours := TotalHours(tc);
    var dev := RoundHalfUp(hours * 85, 100);
    assert dev <= hours by { DevHoursBound(hours); }
    Estimate(base, base, staffing.tier, staffing.team, dev, hours, schedule.sprints, schedule.weeks,
             range.low, range.high, StackOf(flags), PhasesOf(hours, flags), schedule.rush)
  }

  /**
   * `computeEstimate(payload)`: the range starts at $800 or more and spans at least $400, and only an 'asap'
   * timeline is ever marked as rushed.
   */
  function ComputeEstimate(a: Answers): (e: Estimate)
    ensures e.costLow >= 800 && e.costHigh >= e.costLow + 400
    ensures e.baseScore == BaseScore(Normalize(a))
    ensures e.rush ==> a.timeline == Some("asap")
  {
    EstimateOf(Normalize(a))
  }

  // ---------------------------------------------------------------------------------------------
  // toTitle
  // ---------------------------------------------------------------------------------------------

  /** ASCII `toUpperCase` of one character. */
  function Upper(c: char): char {
    if 'a' <= c <= 'z' then (c as int - 32) as char else c
  }

  /** `replaceAll('_', ' ')`. */
  function Underscores(s: string): (r: string)
    ensures |r| == |s|
    ensures forall i :: 0 <= i < |s| ==> r[i] == if s[i] == '_' then ' ' else s[i]
  {
    if |s| == 0 then [] else [if s[0] == '_' then ' ' else s[0]] + Underscores(s[1..])
  }

  /** `split(' ')`: the words between single spaces, empty ones included; never an empty list. */
  function Split(s: string): (ws: seq<string>)
    ensures |ws| >= 1
  {
    if |s| == 0 then [[]]
    else
      var rest := Split(s[1..]);
      if s[0] == ' ' then [[]] + rest else [[s[0]] + rest[0]] + rest[1..]
  }

  /** `join(' ')`. */
  function Join(ws: seq<string>): string
    requires |ws| >= 1
  {
    if |ws| == 1 then ws[0] else ws[0] + " " + Join(ws[1..])
  }

  /** `s.charAt(0).toUpperCase() + s.slice(1)`. */
  function CapitalizeFirst(w: string): string {
    if |w| == 0 then [] else [Upper(w[0])] + w[1..]
  }

  function CapitalizeAll(ws: seq<string>): (r: seq<string>)
    ensures |r| == |ws|
  {
    seq(|ws|, i requires 0 <= i < |ws| => CapitalizeFirst(ws[i]))
  }

  /**
   * `toTitle(str)`: '' for a missing or empty string; otherwise underscores become spaces and the first
   * letter of every space-separated word is upper-cased.
   */
  function ToTitle(str: Option<string>): (r: string)
    ensures str.None? ==> r == ""
    ensures str.Some? ==> r == TitleScan(Underscores(str.value), true)
  {
    if str.None? || str.value == "" then ""
    else
      var u := Underscores(str.value);
      var ws := Split(u);
      SplitJoinIsScan(u, true);
      assert [CapitalizeFirst(ws[0])] + CapitalizeAll(ws[1..]) == CapitalizeAll(ws);
      Join(CapitalizeAll(ws))
  }

  /** The character-by-character reading of title case: upper-case a character exactly at a word start. */
  function TitleScan(s: string, atStart: bool): (r: string)
    ensures |r| == |s|
  {
    if |s| == 0 then []
    else if s[0] == ' ' then " " + TitleScan(s[1..], true)
    else [if atStart then Upper(s[0]) else s[0]] + TitleScan(s[1..], false)
  }

  // ---------------------------------------------------------------------------------------------
  // Properties
  // ---------------------------------------------------------------------------------------------

  /** dev_hours = round(0.85 * total_hours) never exceeds total_hours. */
  lemma DevHoursBound(hours: nat)
    ensures RoundHalfUp(hours * 85, 100) <= hours
  {
    var r := RoundHalfUp(hours * 85, 100);
    assert 2 * r * 100 <= 2 * hours * 85 + 100;
  }

  /** All table weights are non-negative, so every summed list weighs the sum of its parts. */
  lemma {:induction false} SumWeightsAppend(weight: Option<string> -> nat, xs: seq<string>, ys: seq<string>)
    ensures SumWeights(weight, xs + ys) == SumWeights(weight, xs) + SumWeights(weight, ys)
    decreases |ys|
  {
    if |ys| == 0 {
      assert xs + ys == xs;
    } else {
      SumWeightsAppend(weight, xs, ys[..|ys| - 1]);
      assert (xs + ys)[..|xs + ys| - 1] == xs + ys[..|ys| - 1];
    }
  }

  /** The payload with one more entry `f` at the end of `features` (a missing list reads as empty). */
  function WithFeature(a: Answers, f: string): Answers {
    a.(features := Some(a.features.GetOr([]) + [f]))
  }

  /** The payload with one more entry `p` at the end of `platforms`. */
  function WithPlatform(a: Answers, p: string): Answers {
    a.(platforms := Some(a.platforms.GetOr([]) + [p]))
  }

  lemma KeptSnoc(xs: seq<string>, x: string)
    ensures Kept(xs + [x]) == Kept(xs) + (if x != "" && x != "none" then [x] else [])
  {
    assert (xs + [x])[..|xs|] == xs;
  }

  /**
   * Adding a feature adds exactly its table weight to the base score ('' and 'none' add nothing, unknown
   * keys add 0), so it never lowers the base score.
   */
  lemma AddFeatureBaseScore(a: Answers, f: string)
    ensures BaseScore(Normalize(WithFeature(a, f)))
            == BaseScore(Normalize(a)) + (if f != "" && f != "none" then FeatureWeight(Some(f)) else 0)
  {
    var xs := a.features.GetOr([]);
    KeptSnoc(xs, f);
    assert ListOf(a.features) == Kept(xs);
    if f != "" && f != "none" {
      SumWeightsAppend(FeatureWeight, Kept(xs), [f]);
      assert SumWeights(FeatureWeight, [f]) == FeatureWeight(Some(f)) by {
        assert [f][..0] == [];
      }
    }
  }

  /** Adding a platform adds exactly its table weight to the base score. */
  lemma AddPlatformBaseScore(a: Answers, p: string)
    ensures BaseScore(Normalize(WithPlatform(a, p)))
            == BaseScore(Normalize(a)) + (if p != "" && p != "none" then PlatformWeight(Some(p)) else 0)
  {
    var xs := a.platforms.GetOr([]);
    KeptSnoc(xs, p);
    assert ListOf(a.platforms) == Kept(xs);
    if p != "" && p != "none" {
      SumWeightsAppend(PlatformWeight, Kept(xs), [p]);
      assert SumWeights(PlatformWeight, [p]) == PlatformWeight(Some(p)) by {
        assert [p][..0] == [];
      }
    }
  }

  /** The price band never falls as the base score rises. */
  lemma BasePriceMonotone(b: nat, b': nat)
    requires b <= b'
    ensures BasePrice(b) <= BasePrice(b')
  {
  }

  lemma CeilDivMonotone(a: nat, a': nat, b: nat)
    requires b > 0 && a <= a'
    ensures CeilDiv(a, b) <= CeilDiv(a', b)
  {
    var q, q' := CeilDiv(a, b), CeilDiv(a', b);
    if q > q' {
      assert q' * b <= (q - 1) * b by { MulMonotone(q', q - 1, b); }
    }
  }

  lemma MulMonotone(x: nat, y: nat, b: nat)
    requires x <= y
    ensures x * b <= y * b
  {
  }

  /**
   * The rounded low bound never falls when both the total and the low amount grow, even when the
   * rounding increment switches from 100 to 250 at a total of $2000. It needs the low amount to be at most
   * 80% of the old total and at least 75% of the new one, which variances of 20% and 25% guarantee.
   */
  lemma RoundedLowMonotone(t: nat, x: nat, t': nat, x': nat)
    requires t <= t' && x <= x'
    requires x <= 80 * t && x' >= 75 * t'
    ensures RoundUp(x, RoundTo(t)) <= RoundUp(x', RoundTo(t'))
  {
    var step, step' := RoundTo(t), RoundTo(t');
    if step == step' {
      CeilDivMonotone(x, x', 10000 * step);
    } else {
      // t < $2000 <= t': the old bound is at most 1600 and the new one at least 1500.
      assert step == 100 && step' == 250;
      var r, r' := RoundUp(x, 100), RoundUp(x', 250);
      assert x < 16000000;
      assert r <= 1600;
      assert x' >= 15000000;
      assert r' >= 1500;
      if r' == 1500 {
        assert x' <= 15000000;
        assert r <= 1500;
      }
    }
  }

  /** The normalised features of `WithFeature(a, f)`, everything else unchanged. */
  lemma NormalizeWithFeature(a: Answers, f: string)
    ensures Normalize(WithFeature(a, f))
            == Normalize(a).(features := ListOf(a.features) + (if f != "" && f != "none" then [f] else []))
  {
    var xs := a.features.GetOr([]);
    KeptSnoc(xs, f);
    assert ListOf(a.features) == Kept(xs);
  }

  /**
   * Band plus add-ons never falls when the base score rises and flags only switch on. When the variance
   * widens from 20% to 25%, the band jump from 7500 to 18000 keeps 75% of the new price above 80% of the
   * old one.
   */
  lemma BandMonotone(b: nat, b': nat, fl: Flags, fl': Flags)
    requires b <= b'
    requires (fl.ai ==> fl'.ai) && (fl.voice ==> fl'.voice) && (fl.multiTenant ==> fl'.multiTenant)
    requires fl.compliance == fl'.compliance && fl.ghl == fl'.ghl && fl.scaleUsers == fl'.scaleUsers
    ensures BasePrice(b) + AddOnPrice(fl) <= BasePrice(b') + AddOnPrice(fl')
    ensures VariancePercent(b) < VariancePercent(b') ==> 75 * (BasePrice(b') + AddOnPrice(fl')) >= 80 * (BasePrice(b) + AddOnPrice(fl))
  {
    BasePriceMonotone(b, b');
  }

  /**
   * The pre-rush price never falls when only the features change, growing, and the base score rises,
   * provided the larger payload is not a basic setup (the clamped 800 is below every band).
   */
  lemma PriceMonotone(n: Normalized, n': Normalized)
    requires !IsBasicSetup(n') && BaseScore(n) <= BaseScore(n')
    requires (forall x :: x in n.features ==> x in n'.features) && n' == n.(features := n'.features)
    ensures PriceBeforeRush(n) <= PriceBeforeRush(n')
    ensures VariancePercent(BaseScore(n)) < VariancePercent(BaseScore(n')) ==> 75 * PriceBeforeRush(n') >= 80 * PriceBeforeRush(n)
  {
    var flags, flags' := FlagsOf(n), FlagsOf(n');
    assert "ai" in n.features ==> "ai" in n'.features;
    assert "realtime_voice" in n.features ==> "realtime_voice" in n'.features;
    assert "multi_tenant" in n.features ==> "multi_tenant" in n'.features;
    BandMonotone(BaseScore(n), BaseScore(n'), flags, flags');
  }

  /** The rush multiplier keeps both the order of two prices and the 75%-over-80% margin between them. */
  lemma RushedMonotone(p: nat, p': nat, timeline: Option<string>)
    requires p <= p'
    ensures Rushed(p, timeline) <= Rushed(p', timeline)
    ensures 75 * p' >= 80 * p ==> 75 * Rushed(p', timeline) >= 80 * Rushed(p, timeline)
  {
  }

  /** The quoted range is the cost range of the rushed total under the variance of the base score. */
  lemma CostRangeOf(n: Normalized)
    ensures EstimateOf(n).costLow == CostRange(RushedTotal(n), VariancePercent(BaseScore(n))).low
    ensures EstimateOf(n).costHigh == CostRange(RushedTotal(n), VariancePercent(BaseScore(n))).high
  {
  }

  /** What adding a kept feature does to the normalised payload: it grows the features and nothing else. */
  lemma FeatureStep(a: Answers, f: string)
    requires f != "" && f != "none"
    ensures var n, n' := Normalize(a), Normalize(WithFeature(a, f));
            && BaseScore(n) <= BaseScore(n') && !IsBasicSetup(n')
            && (forall x :: x in n.features ==> x in n'.features) && n' == n.(features := n'.features)
  {
    NormalizeWithFeature(a, f);
    AddFeatureBaseScore(a, f);
    assert f in Normalize(WithFeature(a, f)).features;
  }

  /**
   * The quoted low end never falls when the rushed total and the base score both rise, as long as a
   * widening of the variance comes with enough growth of the total (75% of the new total at least 80% of
   * the old one).
   */
  lemma CostLowMonotone(t: nat, t': nat, b: nat, b': nat)
    requires t <= t' && b <= b'
    requires VariancePercent(b) < VariancePercent(b') ==> 75 * t' >= 80 * t
    ensures CostRange(t, VariancePercent(b)).low <= CostRange(t', VariancePercent(b')).low
  {
    var v, v' := VariancePercent(b), VariancePercent(b');
    var x, x' := LowAmount(t, v), LowAmount(t', v');
    assert x <= x';
    RoundedLowMonotone(t, x, t', x');
  }

  /**
   * Adding any single feature never lowers the low end of the quoted range. Flags only switch on, the band
   * and add-ons only grow, a basic setup stops being basic, and the rush multiplier is the same for both.
   */
  lemma AddFeatureCostLowMonotone(a: Answers, f: string)
    ensures ComputeEstimate(WithFeature(a, f)).costLow >= ComputeEstimate(a).costLow
  {
    var n, n' := Normalize(a), Normalize(WithFeature(a, f));
    if f == "" || f == "none" {
      NormalizeWithFeature(a, f);
      assert n' == n;
    } else {
      FeatureStep(a, f);
      PriceMonotone(n, n');
      RushedMonotone(PriceBeforeRush(n), PriceBeforeRush(n'), n.timeline);
      CostLowMonotone(RushedTotal(n), RushedTotal(n'), BaseScore(n), BaseScore(n'));
      CostRangeOf(n);
      CostRangeOf(n');
    }
  }

  /** Every normalised basic setup scores at most 34: no list, integration or volume weight can contribute. */
  lemma BasicSetupScore(n: Normalized)
    requires IsBasicSetup(n)
    ensures BaseScore(n) <= 34
  {
    assert SumWeights(FeatureWeight, n.features) == 0;
    assert SumWeights(PlatformWeight, n.platforms) == 0;
  }

  /**
   * A basic setup is always quoted $800 to $1200, whatever its project type, stage, design scope,
   * migration and timeline: the clamped price 800, rushed by at most 25%, stays under the $2000 rounding
   * threshold and inside the floor and spread.
   */
  lemma BasicSetupQuote(a: Answers)
    requires IsBasicSetup(Normalize(a))
    ensures ComputeEstimate(a).costLow == 800
    ensures ComputeEstimate(a).costHigh == 1200
  {
    var n := Normalize(a);
    BasicSetupScore(n);
    var t := RushedTotal(n);
    assert t == 80000 || t == 88000 || t == 100000;
    BasicRange(t);
    CostRangeOf(n);
  }

  /** The three rushed totals of the $800 clamp all round to the same $800 to $1200 range. */
  lemma BasicRange(t: nat)
    requires t == 80000 || t == 88000 || t == 100000
    ensures CostRange(t, 20) == Range(800, 1200)
  {
    assert RoundTo(t) == 100;
    assert RoundUp(LowAmount(t, 20), 100) <= 800;
    assert RoundUp(HighAmount(t, 20), 100) <= 1200;
  }

  /**
   * Both ends of every range sit on the rounding increment of their total: the low end's floor of 800 only
   * applies under $2000, where the increment is 100, and from $2000 on the rounded bounds are already more
   * than 400 apart.
   */
  lemma CostRangeOnIncrement(t: nat, v: nat)
    requires t >= 80000 && (v == 20 || v == 25)
    ensures CostRange(t, v).low % RoundTo(t) == 0
    ensures CostRange(t, v).high % RoundTo(t) == 0
  {
    var step := RoundTo(t);
    if step == 250 {
      var lowRaw := RoundUp(LowAmount(t, v), step);
      var highRaw := RoundUp(HighAmount(t, v), step);
      assert LowAmount(t, v) >= 15000000;
      assert lowRaw >= 1500;
      assert HighAmount(t, v) >= LowAmount(t, v) + 8000000;
      assert highRaw >= lowRaw + 400;
    }
  }

  /** Every estimate's range sits on the increment of its rushed total. */
  lemma EstimateOnIncrement(a: Answers)
    ensures ComputeEstimate(a).costLow % RoundTo(RushedTotal(Normalize(a))) == 0
    ensures ComputeEstimate(a).costHigh % RoundTo(RushedTotal(Normalize(a))) == 0
  {
    var n := Normalize(a);
    CostRangeOnIncrement(RushedTotal(n), VariancePercent(BaseScore(n)));
  }

  /**
   * Switching only the timeline of a payload whose weeks exceed 8 to 'asap' yields
   * `max(4, ceil(0.7 * weeks))` weeks and sets the rush note.
   */
  lemma SwitchToRush(a: Answers)
    requires a.timeline != Some("asap")
    requires ComputeEstimate(a).weeks > 8
    ensures ComputeEstimate(a.(timeline := Some("asap"))).weeks == Max(4, CeilDiv(7 * ComputeEstimate(a).weeks, 10))
    ensures ComputeEstimate(a.(timeline := Some("asap"))).rush
  {
    var n := Normalize(a);
    var n' := Normalize(a.(timeline := Some("asap")));
    assert n' == n.(timeline := Some("asap"));
    assert BaseScore(n') == BaseScore(n) && FlagsOf(n') == FlagsOf(n);
  }

  /**
   * A `null` user volume is not the `undefined` the clamp tests for: a CRM portal at the idea stage with a
   * prototype design scope (base score 26) and nothing else selected is quoted from the $1200 band.
   */
  lemma NullUserVolumeNotClamped()
    ensures var a := Answers(Some("crm_portal"), None, Some("idea_only"), None, JsonNull, Some("basic"),
                             Some("6_plus_mo"), Some("prototype_testing"), None, None);
            && !IsBasicSetup(Normalize(a))
            && IsBasicSetup(Normalize(a.(userVolume := Undefined)))
            && ComputeEstimate(a).costLow == 1000 && ComputeEstimate(a).costHigh == 1500
  {
    var a := Answers(Some("crm_portal"), None, Some("idea_only"), None, JsonNull, Some("basic"),
                     Some("6_plus_mo"), Some("prototype_testing"), None, None);
    var n := Normalize(a);
    assert BaseScore(n) == 26;
    assert FlagsOf(n) == Flags(false, false, false, false, false, false);
    assert RushedTotal(n) == 120000;
    CostRangeOf(n);
    assert CostRange(120000, 20) == Range(1000, 1500);
  }

  /** Rush compression never lengthens the schedule. */
  lemma RushNeverLengthens(tc: nat, timeline: Option<string>)
    ensures ScheduleOf(tc, Some("asap")).weeks <= ScheduleOf(tc, timeline).weeks
  {
  }

  /** Rounding each phase separately keeps their sum within one hour of the total. */
  lemma PhasesNearTotal(hours: nat, f: Flags)
    ensures var ph := PhasesOf(hours, f);
            hours - 1 <= ph.core + ph.integrations + ph.hardening <= hours + 1
  {
    var p := PhaseRatios(f);
    var ph := PhasesOf(hours, f);
    var s := ph.core + ph.integrations + ph.hardening;
    assert hours * p.0 + hours * p.1 + hours * p.2 == hours * 100;
    assert 200 * s <= 2 * hours * 100 + 300;
    assert 200 * s > 2 * hours * 100 - 300;
  }

  /** The phases need not add up to total_hours: 28 total hours split into 13 + 10 + 6 = 29. */
  lemma PhasesCanMissTotal()
    ensures TotalHours(11) == 28
    ensures var ph := PhasesOf(28, Flags(false, false, false, false, false, false));
            ph == Phases(13, 10, 6) && ph.core + ph.integrations + ph.hardening == 29
  {
  }

  /** Splitting on spaces, capitalising each word and joining again is the character-wise title scan. */
  lemma {:induction false} SplitJoinIsScan(s: string, atStart: bool)
    ensures var ws := Split(s);
            Join([if atStart then CapitalizeFirst(ws[0]) else ws[0]] + CapitalizeAll(ws[1..])) == TitleScan(s, atStart)
  {
    if |s| > 0 {
      SplitJoinIsScan(s[1..], s[0] == ' ');
      if s[0] == ' ' {
        SpaceStep(s, atStart);
      } else {
        CharStep(s, atStart);
      }
    }
  }

  /** A leading space starts an empty word and makes the next word's first letter upper-case. */
  lemma SpaceStep(s: string, atStart: bool)
    requires |s| > 0 && s[0] == ' '
    requires var rest := Split(s[1..]);
             Join([CapitalizeFirst(rest[0])] + CapitalizeAll(rest[1..])) == TitleScan(s[1..], true)
    ensures var ws := Split(s);
            Join([if atStart then CapitalizeFirst(ws[0]) else ws[0]] + CapitalizeAll(ws[1..])) == TitleScan(s, atStart)
  {
    var rest := Split(s[1..]);
    var ws := Split(s);
    assert ws[0] == [] && ws[1..] == rest by {
      assert ws == [[]] + rest;
    }
    var head: string := if atStart then CapitalizeFirst(ws[0]) else ws[0];
    assert head == [];
    CapitalizeAllCons(rest);
    JoinEmptyHead(CapitalizeAll(rest));
  }

  lemma CapitalizeAllCons(ws: seq<string>)
    requires |ws| >= 1
    ensures CapitalizeAll(ws) == [CapitalizeFirst(ws[0])] + CapitalizeAll(ws[1..])
  {
  }

  lemma JoinEmptyHead(ws: seq<string>)
    requires |ws| >= 1
    ensures Join([[]] + ws) == " " + Join(ws)
  {
    assert ([[]] + ws)[1..] == ws;
  }

  /** Any other leading character joins the first word, upper-cased only at the start. */
  lemma CharStep(s: string, atStart: bool)
    requires |s| > 0 && s[0] != ' '
    requires var rest := Split(s[1..]);
             Join([rest[0]] + CapitalizeAll(rest[1..])) == TitleScan(s[1..], false)
    ensures var ws := Split(s);
            Join([if atStart then CapitalizeFirst(ws[0]) else ws[0]] + CapitalizeAll(ws[1..])) == TitleScan(s, atStart)
  {
    var rest := Split(s[1..]);
    var ws := Split(s);
    var c := if atStart then Upper(s[0]) else s[0];
    assert ws == [[s[0]] + rest[0]] + rest[1..];
    assert ws[1..] == rest[1..];
    var head := if atStart then CapitalizeFirst(ws[0]) else ws[0];
    assert head == [c] + rest[0];
    JoinConsChar(c, rest[0], CapitalizeAll(rest[1..]));
  }

  lemma JoinConsChar(c: char, w: string, ws: seq<string>)
    ensures Join([[c] + w] + ws) == [c] + Join([w] + ws)
  {
    if |ws| > 0 {
      assert ([[c] + w] + ws)[1..] == ws;
      assert ([w] + ws)[1..] == ws;
    }
  }

  lemma {:induction false} TitleScanAt(s: string, atStart: bool, i: nat)
    requires i < |s|
    ensures TitleScan(s, atStart)[i] == if (i == 0 && atStart) || (i > 0 && s[i - 1] == ' ') then Upper(s[i]) else s[i]
  {
    if i > 0 {
      TitleScanAt(s[1..], s[0] == ' ', i - 1);
    }
  }

  /**
   * `toTitle` keeps the length of its input, turns every underscore into a space, and upper-cases
   * exactly the first character and every character that follows a space or underscore.
   */
  lemma ToTitleChars(s: string)
    ensures |ToTitle(Some(s))| == |s|
    ensures forall i :: 0 <= i < |s| ==>
              ToTitle(Some(s))[i] == (var c := if s[i] == '_' then ' ' else s[i];
                                      if i == 0 || s[i - 1] == '_' || s[i - 1] == ' ' then Upper(c) else c)
  {
    if s != "" {
      var u := Underscores(s);
      var ws := Split(u);
      SplitJoinIsScan(u, true);
      assert [CapitalizeFirst(ws[0])] + CapitalizeAll(ws[1..]) == CapitalizeAll(ws);
      forall i | 0 <= i < |s|
        ensures ToTitle(Some(s))[i] == (var c := if s[i] == '_' then ' ' else s[i];
                                        if i == 0 || s[i - 1] == '_' || s[i - 1] == ' ' then Upper(c) else c)
      {
        TitleScanAt(u, true, i);
      }
    }
  }
}

/**
 * The cost estimator's wizard (src/pages/CostEstimate.jsx): eleven steps over the answer payload, a
 * multi-select toggle, a single-select commit, clamped forward and backward navigation gated by
 * `canProceed`, and reset. The component's `payload` and `currentStep` state are the fields of `Wizard`.
 */
module EstimateWizard {
  import opened Wrappers
  import opened Seqs
  import opened EstimateEngine

  /** The payload fields answered by a single-select step. */
  datatype ScalarField = ProjectType | Stage | IntegrationsCount | UserVolume | Compliance | Timeline | DesignScope | Migration

  /** The payload fields answered by a multi-select step. */
  datatype ListField = Features | Platforms

  datatype Step = Single(field: ScalarField, options: seq<string>) | Multi(list: ListField, options: seq<string>) | Review

  const PROJECT_TYPE_OPTIONS: seq<string> := ["new_saas_mvp", "automation_tool", "crm_portal", "ghl_app"]
  const STAGE_OPTIONS: seq<string> := ["idea_only", "nocode_mvp", "backend_exists", "scaling_automation"]
  const INTEGRATIONS_OPTIONS: seq<string> := ["0", "1_2", "3_5", "6_plus"]
  const USER_VOLUME_OPTIONS: seq<string> := ["lt_100", "100_1k", "1k_10k", "gt_10k"]
  const COMPLIANCE_OPTIONS: seq<string> := ["basic", "pii_audit", "industry"]
  const TIMELINE_OPTIONS: seq<string> := ["6_plus_mo", "3_6_mo", "asap"]
  const DESIGN_OPTIONS: seq<string> := ["basic_ui_kit", "design_system", "prototype_testing"]
  const MIGRATION_OPTIONS: seq<string> := ["none", "csv_simple", "complex_multi"]

  /** The option values a single-select step offers for `f`. */
  function ScalarOptions(f: ScalarField): seq<string> {
    match f
    case ProjectType => PROJECT_TYPE_OPTIONS
    case Stage => STAGE_OPTIONS
    case IntegrationsCount => INTEGRATIONS_OPTIONS
    case UserVolume => USER_VOLUME_OPTIONS
    case Compliance => COMPLIANCE_OPTIONS
    case Timeline => TIMELINE_OPTIONS
    case DesignScope => DESIGN_OPTIONS
    case Migration => MIGRATION_OPTIONS
  }

  /** The option values a multi-select step offers: the keys of the matching weight table. */
  function ListOptions(l: ListField): seq<string> {
    match l
    case Features => FEATURE_KEYS
    case Platforms => PLATFORM_KEYS
  }

  /** The eleven steps, in order; the last one is the review. */
  const STEPS: seq<Step> := [
    Single(ProjectType, PROJECT_TYPE_OPTIONS),
    Multi(Features, FEATURE_KEYS),
    Single(Stage, STAGE_OPTIONS),
    Single(IntegrationsCount, INTEGRATIONS_OPTIONS),
    Single(UserVolume, USER_VOLUME_OPTIONS),
    Single(Compliance, COMPLIANCE_OPTIONS),
    Single(Timeline, TIMELINE_OPTIONS),
    Single(DesignScope, DESIGN_OPTIONS),
    Single(Migration, MIGRATION_OPTIONS),
    Multi(Platforms, PLATFORM_KEYS),
    Review]

  /** `steps.length - 1`. */
  const LAST_STEP: int := 10

  /** The payload the wizard starts from and `reset` restores. */
  const INITIAL: Answers := Answers(
    Some("new_saas_mvp"), Some([]), Some("idea_only"), Some("0"), Given("lt_100"), Some("basic"),
    Some("6_plus_mo"), Some("basic_ui_kit"), Some("none"), Some(["web"]))

  /** `payload[field]` for a single-select field. */
  function GetScalar(a: Answers, f: ScalarField): Option<string> {
    match f
    case ProjectType => a.projectType
    case Stage => a.stage
    case IntegrationsCount => a.integrationsCount
    case UserVolume => a.userVolume.AsOption()
    case Compliance => a.compliance
    case Timeline => a.timeline
    case DesignScope => a.designScope
    case Migration => a.migration
  }

  /** `{ ...p, [field]: value }` for a single-select field: that field changes and nothing else. */
  function SetScalar(a: Answers, f: ScalarField, v: string): (r: Answers)
    ensures GetScalar(r, f) == Some(v)
    ensures forall g :: g != f ==> GetScalar(r, g) == GetScalar(a, g)
    ensures forall l :: GetList(r, l) == GetList(a, l)
  {
    match f
    case ProjectType => a.(projectType := Some(v))
    case Stage => a.(stage := Some(v))
    case IntegrationsCount => a.(integrationsCount := Some(v))
    case UserVolume => a.(userVolume := Given(v))
    case Compliance => a.(compliance := Some(v))
    case Timeline => a.(timeline := Some(v))
    case DesignScope => a.(designScope := Some(v))
    case Migration => a.(migration := Some(v))
  }

  /** `payload[field]` for a multi-select field. */
  function GetList(a: Answers, l: ListField): Option<seq<string>> {
    match l
    case Features => a.features
    case Platforms => a.platforms
  }

  /** `{ ...p, [field]: xs }` for a multi-select field: that list changes and nothing else. */
  function SetList(a: Answers, l: ListField, xs: seq<string>): (r: Answers)
    ensures GetList(r, l) == Some(xs)
    ensures forall m :: m != l ==> GetList(r, m) == GetList(a, m)
    ensures forall g :: GetScalar(r, g) == GetScalar(a, g)
  {
    match l
    case Features => a.(features := Some(xs))
    case Platforms => a.(platforms := Some(xs))
  }

  /**
   * `Array.from(set)` after `new Set(list)` and one `delete` or `add` of `key`: the membership of `key`
   * flips, every other key keeps its membership, and nothing occurs twice.
   */
  function Toggled(xs: seq<string>, key: string): (r: seq<string>)
    ensures NoDup(r)
    ensures key in r <==> key !in xs
    ensures forall k :: k != key ==> (k in r <==> k in xs)
  {
    var d := Distinct(xs);
    if key in d then Without(d, key) else d + [key]
  }

  /** The payloads the wizard's own steps build: single-select fields hold one of their options, lists hold distinct options. */
  ghost predicate FromOptions(a: Answers) {
    && (forall f :: GetScalar(a, f).Some? && GetScalar(a, f).value in ScalarOptions(f))
    && (forall l :: GetList(a, l).Some? && NoDup(GetList(a, l).value)
                    && forall x :: x in GetList(a, l).value ==> x in ListOptions(l))
  }

  /**
   * `canProceed` at a step: out-of-range and multi-select or review steps may always proceed; a
   * single-select step only when its field holds a non-empty string.
   */
  function CanProceedAt(a: Answers, step: int): (ok: bool)
    ensures !ok ==> 0 <= step < |STEPS| && STEPS[step].Single?
    ensures 0 <= step < |STEPS| && STEPS[step].Single? ==>
              (ok <==> GetScalar(a, STEPS[step].field).Some? && GetScalar(a, STEPS[step].field).value != "")
  {
    if !(0 <= step < |STEPS|) then true
    else match STEPS[step]
      case Single(f, _) => GetScalar(a, f).Some? && GetScalar(a, f).value != ""
      case _ => true
  }

  function Min(a: int, b: int): int {
    if a <= b then a else b
  }

  class Wizard {
    var payload: Answers
    var currentStep: int

    ghost predicate Valid()
      reads this
    {
      0 <= currentStep <= LAST_STEP && FromOptions(payload)
    }

    /** The wizard starts at step 0 with the initial payload. */
    constructor ()
      ensures Valid()
      ensures payload == INITIAL && currentStep == 0
    {
      payload := INITIAL;
      currentStep := 0;
      new;
      InitialFromOptions();
    }

    /** `canProceed` for the current step. */
    function CanProceed(): (ok: bool)
      reads this
      ensures !ok ==> 0 <= currentStep < |STEPS| && STEPS[currentStep].Single?
      ensures 0 <= currentStep < |STEPS| && STEPS[currentStep].Single? ==>
                (ok <==> GetScalar(payload, STEPS[currentStep].field).Some?
                         && GetScalar(payload, STEPS[currentStep].field).value != "")
    {
      CanProceedAt(payload, currentStep)
    }

    /** The live preview: `computeEstimate(payload)`, recomputed from the payload alone. */
    function LiveEstimate(): (e: Estimate)
      reads this
      ensures e.costLow >= 800 && e.costHigh >= e.costLow + 400
      ensures e.rush ==> payload.timeline == Some("asap")
    {
      ComputeEstimate(payload)
    }

    /** `toggleMulti(key, field)`: flips `key` in one list field and leaves everything else as it was. */
    method ToggleMulti(key: string, field: ListField)
      requires Valid()
      requires key in ListOptions(field)
      modifies this
      ensures Valid()
      ensures payload == SetList(old(payload), field, Toggled(GetList(old(payload), field).GetOr([]), key))
      ensures currentStep == old(currentStep)
    {
      var current := GetList(payload, field).GetOr([]);
      ToggleKeepsOptions(payload, field, key);
      payload := SetList(payload, field, Toggled(current, key));
    }

    /**
     * `handleSelect(field, value, { autoAdvance })` once its deferred commit has run: only
     * `payload[field]` changes, and with `autoAdvance` the step moves forward, clamped to the last step.
     */
    method HandleSelect(field: ScalarField, value: string, autoAdvance: bool)
      requires Valid()
      requires value in ScalarOptions(field)
      modifies this
      ensures Valid()
      ensures payload == SetScalar(old(payload), field, value)
      ensures currentStep == if autoAdvance then Min(old(currentStep) + 1, LAST_STEP) else old(currentStep)
    {
      SelectKeepsOptions(payload, field, value);
      payload := SetScalar(payload, field, value);
      if autoAdvance {
        currentStep := Min(currentStep + 1, LAST_STEP);
      }
    }

    /** `goNext`: one step forward, clamped to the last step. */
    method GoNext()
      requires Valid()
      modifies this
      ensures Valid()
      ensures currentStep == Min(old(currentStep) + 1, LAST_STEP)
      ensures payload == old(payload)
    {
      currentStep := Min(currentStep + 1, LAST_STEP);
    }

    /** `goPrev`: one step back, clamped at 0. */
    method GoPrev()
      requires Valid()
      modifies this
      ensures Valid()
      ensures currentStep == if old(currentStep) > 0 then old(currentStep) - 1 else 0
      ensures payload == old(payload)
    {
      currentStep := if currentStep - 1 >= 0 then currentStep - 1 else 0;
    }

    /** The footer's Next button: `if (canProceed) goNext()`. */
    method Next()
      requires Valid()
      modifies this
      ensures Valid()
      ensures currentStep == if CanProceedAt(old(payload), old(currentStep))
                             then Min(old(currentStep) + 1, LAST_STEP) else old(currentStep)
      ensures payload == old(payload)
    {
      if CanProceed() {
        GoNext();
      }
    }

    /** `reset`: the initial payload at step 0. */
    method Reset()
      requires Valid()
      modifies this
      ensures Valid()
      ensures payload == INITIAL && currentStep == 0
    {
      payload := INITIAL;
      currentStep := 0;
      InitialFromOptions();
    }

    /** The review step's "Back to edit": step 0 with the payload kept. */
    method BackToEdit()
      requires Valid()
      modifies this
      ensures Valid()
      ensures currentStep == 0 && payload == old(payload)
    {
      currentStep := 0;
    }
  }

  // ---------------------------------------------------------------------------------------------
  // Properties
  // ---------------------------------------------------------------------------------------------

  /** The initial payload is one the wizard's steps could have built. */
  lemma InitialFromOptions()
    ensures FromOptions(INITIAL)
  {
    forall f ensures GetScalar(INITIAL, f).Some? && GetScalar(INITIAL, f).value in ScalarOptions(f) {
      match f
      case ProjectType =>
      case Stage =>
      case IntegrationsCount =>
      case UserVolume =>
      case Compliance =>
      case Timeline =>
      case DesignScope =>
      case Migration =>
    }
    assert "web" in PLATFORM_KEYS;
  }

  /** Toggling preserves wizard-built payloads: the flipped key is an option and the list stays duplicate-free. */
  lemma ToggleKeepsOptions(a: Answers, l: ListField, key: string)
    requires FromOptions(a) && key in ListOptions(l)
    ensures FromOptions(SetList(a, l, Toggled(GetList(a, l).GetOr([]), key)))
  {
  }

  /** Committing an offered option preserves wizard-built payloads. */
  lemma SelectKeepsOptions(a: Answers, f: ScalarField, v: string)
    requires FromOptions(a) && v in ScalarOptions(f)
    ensures FromOptions(SetScalar(a, f, v))
  {
  }

  /**
   * Toggling the same key twice restores its membership and every other key's; on a duplicate-free list
   * that lacked the key it restores the list itself.
   */
  lemma ToggleTwice(xs: seq<string>, key: string)
    ensures forall k :: k in Toggled(Toggled(xs, key), key) <==> k in xs
    ensures NoDup(xs) && key !in xs ==> Toggled(Toggled(xs, key), key) == xs
  {
    if NoDup(xs) && key !in xs {
      DistinctOfNoDup(xs);
      var once := Toggled(xs, key);
      assert once == xs + [key];
      DistinctOfNoDup(once);
      WithoutSnoc(xs, key);
      WithoutAbsent(xs, key);
    }
  }

  /**
   * Every option value of every single-select step is a non-empty string, so on any payload the wizard
   * builds (the initial one included) `canProceed` holds at every step and Next is never blocked.
   */
  lemma WizardPayloadsProceed(a: Answers, step: int)
    requires FromOptions(a)
    ensures CanProceedAt(a, step)
  {
    if 0 <= step < |STEPS| && STEPS[step].Single? {
      var f := STEPS[step].field;
      assert GetScalar(a, f).value in ScalarOptions(f);
      assert "" !in ScalarOptions(f);
    }
  }

  /**
   * The basic-setup clamp never fires for a payload the wizard builds: it needs a user volume of 'lt_1k'
   * or none at all, no step offers 'lt_1k', and the user-volume field always holds an option.
   */
  lemma WizardNeverBasic(a: Answers)
    requires FromOptions(a)
    ensures !IsBasicSetup(Normalize(a))
  {
    assert GetScalar(a, UserVolume).value in USER_VOLUME_OPTIONS;
  }

  /** The initial payload after normalisation: no features, only the web platform. */
  lemma InitialNormalized()
    ensures Normalize(INITIAL) == Normalized(Some("new_saas_mvp"), [], Some("idea_only"), "0", Given("lt_100"), Some("basic"),
                                             Some("6_plus_mo"), Some("basic_ui_kit"), Some("none"), ["web"])
  {
    assert Kept([]) == [];
    assert Kept(["web"]) == Kept([]) + ["web"] by {
      assert ["web"][..0] == [];
    }
  }

  /** The initial payload is therefore priced by the tiers: $900 band, quoted $800 to $1200, three weeks, tier A. */
  lemma InitialEstimate()
    ensures ComputeEstimate(INITIAL).baseScore == 17
    ensures ComputeEstimate(INITIAL).costLow == 800 && ComputeEstimate(INITIAL).costHigh == 1200
    ensures ComputeEstimate(INITIAL).weeks == 3 && ComputeEstimate(INITIAL).sprints == 2
    ensures ComputeEstimate(INITIAL).tier == "A"
  {
    var n := Normalize(INITIAL);
    InitialScore();
    CostRangeOf(n);
    assert CostRange(90000, 20) == Range(800, 1200);
  }

  /** The initial payload scores 17, sets no flag and is priced at the $900 band with no rush premium. */
  lemma InitialScore()
    ensures BaseScore(Normalize(INITIAL)) == 17
    ensures FlagsOf(Normalize(INITIAL)) == Flags(false, false, false, false, false, false)
    ensures RushedTotal(Normalize(INITIAL)) == 90000
  {
    var n := Normalize(INITIAL);
    InitialNormalized();
    assert SumWeights(PlatformWeight, ["web"]) == 0 by {
      assert ["web"][..0] == [];
    }
    assert BaseScore(n) == 17;
    assert !IsBasicSetup(n);
  }
}

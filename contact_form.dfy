/**
 * The six-step contact form of src/components/Contact.jsx: per-step validation, step navigation,
 * draft persistence with a two-hour time-to-live, restoration on mount (URL step first, stored step second),
 * submission and clearing. The form's state is a class whose methods are the handlers and effects;
 * the browser store, the `step` search parameter and the clock are explicit state and parameters.
 */
module ContactForm {
  import opened Wrappers
  import opened Text
  import opened TtlStorage

  const STORAGE_KEY: string := "contactFormDataTTL"
  const STEP_KEY: string := "contactFormStepTTL"
  /** Two hours in milliseconds. */
  const TTL_MS: int := 7200000
  const LAST_STEP: int := 6

  /** The eleven fields of the form. */
  datatype Field = FirstName | LastName | CountryCode | Phone | Email | CompanyName
                 | BusinessType | LookingToBuild | MonthlyRevenue | TechTeam | StartTimeline

  /** The key a field has in the form data (and in the stored record). */
  function Name(f: Field): string {
    match f
    case FirstName => "firstName"
    case LastName => "lastName"
    case CountryCode => "countryCode"
    case Phone => "phone"
    case Email => "email"
    case CompanyName => "companyName"
    case BusinessType => "businessType"
    case LookingToBuild => "lookingToBuild"
    case MonthlyRevenue => "monthlyRevenue"
    case TechTeam => "techTeam"
    case StartTimeline => "startTimeline"
  }

  /** The empty form the component starts with, and resets to after a submit or a clear. */
  const BLANK_FORM: map<string, string> :=
    map["firstName" := "", "lastName" := "", "countryCode" := "", "phone" := "", "email" := "", "companyName" := "",
        "businessType" := "", "lookingToBuild" := "", "monthlyRevenue" := "", "techTeam" := "", "startTimeline" := ""]

  /** A form holds every field of the contact form (it may hold more keys, merged in from storage). */
  predicate Complete(form: map<string, string>) {
    forall f: Field :: Name(f) in form
  }

  function FieldText(form: map<string, string>, f: Field): string {
    if Name(f) in form then form[Name(f)] else ""
  }

  // ---------------------------------------------------------------------------------------------
  // Validation
  // ---------------------------------------------------------------------------------------------

  /**
   * The email pattern `\S+@\S+\.\S+` matches somewhere in `s` with its `@` at `at` and its `.` at `dot`:
   * a non-space before the `@`, at least one non-space between the `@` and the `.`, and a non-space after it.
   */
  predicate EmailMatchAt(s: string, at: int, dot: int) {
    1 <= at && at + 2 <= dot && dot + 1 < |s|
    && !IsSpace(s[at - 1]) && s[at] == '@' && s[dot] == '.' && !IsSpace(s[dot + 1])
    && forall i :: at < i < dot ==> !IsSpace(s[i])
  }

  /** `/\S+@\S+\.\S+/.test(s)`: the pattern is searched for, not matched against the whole string. */
  predicate MatchesEmailPattern(s: string)
    ensures MatchesEmailPattern(s) ==> |s| >= 5 && '@' in s && '.' in s
  {
    exists at, dot | 0 <= at < |s| && 0 <= dot < |s| :: EmailMatchAt(s, at, dot)
  }

  /**
   * The message a field's rule produces when it fails; the company name has no rule. A blank value is one
   * whose `trim()` is empty (see `FieldRules`).
   */
  function FieldError(form: map<string, string>, f: Field): Option<string> {
    RuleError(f, FieldText(form, f))
  }

  /** The rule of field `f` applied to its text `v`. */
  function RuleError(f: Field, v: string): (r: Option<string>)
    ensures f == CompanyName ==> r.None?
    ensures f != CompanyName && v == "" ==> r.Some?
    ensures r.Some? ==> r.value != ""
  {
    match f
    case FirstName => if IsBlank(v) then Some("First name is required") else None
    case LastName => if IsBlank(v) then Some("Last name is required") else None
    case CountryCode => if v == "" then Some("Country code is required") else None
    case Phone => if IsBlank(v) then Some("Phone number is required") else None
    case Email =>
      if IsBlank(v) then Some("Email is required")
      else if !MatchesEmailPattern(v) then Some("Please enter a valid email address")
      else None
    case CompanyName => None
    case BusinessType => if v == "" then Some("Please select a business type") else None
    case LookingToBuild => if IsBlank(v) then Some("Please describe what you want to build") else None
    case MonthlyRevenue => if v == "" then Some("Please select your monthly revenue") else None
    case TechTeam => if v == "" then Some("Please select your team status") else None
    case StartTimeline => if v == "" then Some("Please select your timeline") else None
  }

  /** The fields each step validates; steps outside 1..6 validate nothing. */
  function StepFields(step: int): (fs: seq<Field>)
    ensures CompanyName !in fs
    ensures fs == [] <==> !(1 <= step <= LAST_STEP)
  {
    if step == 1 then [FirstName, LastName, CountryCode, Phone, Email]
    else if step == 2 then [BusinessType]
    else if step == 3 then [LookingToBuild]
    else if step == 4 then [MonthlyRevenue]
    else if step == 5 then [TechTeam]
    else if step == 6 then [StartTimeline]
    else []
  }

  /** Records field `f`'s message in `errs` when its rule fails. */
  function AddError(errs: map<Field, string>, form: map<string, string>, f: Field): map<Field, string> {
    var e := FieldError(form, f);
    if e.Some? then errs[f := e.value] else errs
  }

  /** The errors of checking the fields `fs` one after the other: one message per failing field, and no other key. */
  function Collect(form: map<string, string>, fs: seq<Field>): map<Field, string> {
    if fs == [] then map[] else AddError(Collect(form, fs[..|fs| - 1]), form, fs[|fs| - 1])
  }

  /** Checking fields in order records exactly the failing ones, each with its rule's message. */
  lemma {:induction false} CollectSpec(form: map<string, string>, fs: seq<Field>)
    ensures forall f :: f in Collect(form, fs) <==> f in fs && FieldError(form, f).Some?
    ensures forall f :: f in Collect(form, fs) ==> Collect(form, fs)[f] == FieldError(form, f).value
  {
    if fs != [] {
      var init := fs[..|fs| - 1];
      CollectSpec(form, init);
      assert fs == init + [fs[|fs| - 1]];
    }
  }

  /** The errors `validateStep(step)` records. */
  function StepErrors(form: map<string, string>, step: int): (errs: map<Field, string>)
    ensures forall f :: f in errs <==> f in StepFields(step) && FieldError(form, f).Some?
    ensures forall f :: f in errs ==> errs[f] == FieldError(form, f).value
  {
    CollectSpec(form, StepFields(step));
    Collect(form, StepFields(step))
  }

  // ---------------------------------------------------------------------------------------------
  // Restoration on mount
  // ---------------------------------------------------------------------------------------------

  /** The state the mount effect leaves: step, `step` search parameter, form, toast flag and store. */
  datatype Restoration = Restoration(step: int, url: Option<string>, form: map<string, string>, toast: bool, storage: Storage)

  /**
   * The mount effect as a function of the state before it. A URL step that parses into 1..6 wins; otherwise a
   * stored numeric step in 1..6 is taken and written back to the URL; a stored form record is merged over the
   * current form (stored fields win) and raises the restore toast.
   */
  function Restored(url: Option<string>, st: Storage, now: int, step: int, form: map<string, string>, toast: bool): (r: Restoration)
    ensures !r.toast ==> r.form == form
  {
    var (step', url') := RestoredStep(url, st, now, step);
    var dataLoad := Load(Load(st, STEP_KEY, now).storage, STORAGE_KEY, now);
    if dataLoad.value.Record? then Restoration(step', url', form + dataLoad.value.fields, true, dataLoad.storage)
    else Restoration(step', url', form, toast, dataLoad.storage)
  }

  /** The mount effect is the step restoration followed by the load and merge of the stored form. */
  lemma RestoredParts(url: Option<string>, st: Storage, now: int, step: int, form: map<string, string>, toast: bool)
    ensures var r := Restored(url, st, now, step, form, toast);
            var d := Load(Load(st, STEP_KEY, now).storage, STORAGE_KEY, now);
            && (r.step, r.url) == RestoredStep(url, st, now, step)
            && r.storage == d.storage
            && r.form == (if d.value.Record? then form + d.value.fields else form)
            && r.toast == (d.value.Record? || toast)
  {
  }

  /** Mount keeps the step in 1..6 and the form complete, and at most removes the two keys from the store. */
  lemma RestoredBounds(url: Option<string>, st: Storage, now: int, step: int, form: map<string, string>, toast: bool)
    ensures var r := Restored(url, st, now, step, form, toast);
            && (1 <= step <= LAST_STEP ==> 1 <= r.step <= LAST_STEP)
            && (Complete(form) ==> Complete(r.form))
            && (r.storage == st - {STEP_KEY, STORAGE_KEY} || r.storage == st - {STEP_KEY} || r.storage == st - {STORAGE_KEY} || r.storage == st)
  {
    var r := Restored(url, st, now, step, form, toast);
    var d2 := Load(Load(st, STEP_KEY, now).storage, STORAGE_KEY, now);
    assert r.step == RestoredStep(url, st, now, step).0;
    assert r.form == form || (d2.value.Record? && r.form == form + d2.value.fields);
    LoadsShrinkStore(st, now);
  }

  /** Loading the step key and then the form key removes at most those two keys. */
  lemma LoadsShrinkStore(st: Storage, now: int)
    ensures var d := Load(Load(st, STEP_KEY, now).storage, STORAGE_KEY, now).storage;
            d == st - {STEP_KEY, STORAGE_KEY} || d == st - {STEP_KEY} || d == st - {STORAGE_KEY} || d == st
  {
    var d1 := Load(st, STEP_KEY, now);
    var d2 := Load(d1.storage, STORAGE_KEY, now);
    if d1.storage == st - {STEP_KEY} && d2.storage == d1.storage - {STORAGE_KEY} {
      assert d2.storage == st - {STEP_KEY, STORAGE_KEY};
    }
  }

  /** The step and `step` search parameter after the mount effect. */
  function RestoredStep(url: Option<string>, st: Storage, now: int, step: int): (r: (int, Option<string>))
    ensures 1 <= step <= LAST_STEP ==> 1 <= r.0 <= LAST_STEP
    ensures r.0 != step ==> r.1.Some? && ParseInt(r.1.value) == Some(r.0)
  {
    var fromUrl := ParseInt(url.GetOr(""));
    var stored := Load(st, STEP_KEY, now).value;
    if fromUrl.Some? && 1 <= fromUrl.value <= LAST_STEP then (fromUrl.value, url)
    else if stored.Num? && 1 <= stored.n <= LAST_STEP then
      ParseIntOfDecimal(stored.n);
      (stored.n, Some(NatToDecimal(stored.n)))
    else (step, url)
  }

  /** The store after the two effects that follow a change of step and of form data. */
  function Persisted(st: Storage, step: int, form: map<string, string>, now: int): (r: Storage)
    ensures STEP_KEY in r && STORAGE_KEY in r
    ensures forall k :: k !in {STEP_KEY, STORAGE_KEY} ==> (k in r <==> k in st)
  {
    Save(Save(st, STEP_KEY, Num(step), TTL_MS, now), STORAGE_KEY, Record(form), TTL_MS, now)
  }

  /** Step 1's errors, field by field in the order the form checks them. */
  lemma ContactDetailsChain(form: map<string, string>)
    ensures Collect(form, [FirstName, LastName, CountryCode, Phone, Email])
         == AddError(AddError(AddError(AddError(AddError(map[], form, FirstName), form, LastName), form, CountryCode), form, Phone), form, Email)
  {
    var f1 := [FirstName];
    var f2 := [FirstName, LastName];
    var f3 := [FirstName, LastName, CountryCode];
    var f4 := [FirstName, LastName, CountryCode, Phone];
    var f5 := [FirstName, LastName, CountryCode, Phone, Email];
    assert f1[..0] == [] && f2[..1] == f1 && f3[..2] == f2 && f4[..3] == f3 && f5[..4] == f4;
    assert Collect(form, f1) == AddError(map[], form, FirstName);
    assert Collect(form, f2) == AddError(Collect(form, f1), form, LastName);
    assert Collect(form, f3) == AddError(Collect(form, f2), form, CountryCode);
    assert Collect(form, f4) == AddError(Collect(form, f3), form, Phone);
    assert Collect(form, f5) == AddError(Collect(form, f4), form, Email);
  }

  /** One `if (...) newErrors.<field> = '<message>'` check of `validateStep`. */
  method CheckField(errs: map<Field, string>, form: map<string, string>, f: Field) returns (r: map<Field, string>)
    ensures r == AddError(errs, form, f)
  {
    if f in StepFields(1) {
      r := CheckContactDetail(errs, form, f);
    } else {
      r := CheckProjectField(errs, form, f);
    }
  }

  /** The checks of step 1's fields: name, country code, phone and email. */
  method CheckContactDetail(errs: map<Field, string>, form: map<string, string>, f: Field) returns (r: map<Field, string>)
    requires f in StepFields(1)
    ensures r == AddError(errs, form, f)
  {
    var v := FieldText(form, f);
    r := errs;
    if f == FirstName {
      if IsBlank(v) { r := r[f := "First name is required"]; }
    } else if f == LastName {
      if IsBlank(v) { r := r[f := "Last name is required"]; }
    } else if f == CountryCode {
      if v == "" { r := r[f := "Country code is required"]; }
    } else if f == Phone {
      if IsBlank(v) { r := r[f := "Phone number is required"]; }
    } else {
      if IsBlank(v) {
        r := r[f := "Email is required"];
      } else if !MatchesEmailPattern(v) {
        r := r[f := "Please enter a valid email address"];
      }
    }
  }

  /** The checks of the fields of steps 2 to 6, and the company name, which has none. */
  method CheckProjectField(errs: map<Field, string>, form: map<string, string>, f: Field) returns (r: map<Field, string>)
    requires f !in StepFields(1)
    ensures r == AddError(errs, form, f)
  {
    var v := FieldText(form, f);
    r := errs;
    if f == BusinessType {
      if v == "" { r := r[f := "Please select a business type"]; }
    } else if f == LookingToBuild {
      if IsBlank(v) { r := r[f := "Please describe what you want to build"]; }
    } else if f == MonthlyRevenue {
      if v == "" { r := r[f := "Please select your monthly revenue"]; }
    } else if f == TechTeam {
      if v == "" { r := r[f := "Please select your team status"]; }
    } else if f == StartTimeline {
      if v == "" { r := r[f := "Please select your timeline"]; }
    }
  }

  /** The checks of step 1 (name, country code, phone, email), in the order the form makes them. */
  method ContactDetailsErrors(form: map<string, string>) returns (newErrors: map<Field, string>)
    ensures newErrors == StepErrors(form, 1)
  {
    newErrors := map[];
    newErrors := CheckField(newErrors, form, FirstName);
    newErrors := CheckField(newErrors, form, LastName);
    newErrors := CheckField(newErrors, form, CountryCode);
    newErrors := CheckField(newErrors, form, Phone);
    newErrors := CheckField(newErrors, form, Email);
    ContactDetailsChain(form);
  }

  /**
   * The store after a clear (or a successful submit) on step `step` and the effects of the re-render it
   * causes: the persist effect saves the blank form again, and the sync effect saves step 1 again unless the
   * clear happened on step 1.
   */
  function ClearedStore(st: Storage, step: int, now: int): (r: Storage)
    ensures STORAGE_KEY in r && r[STORAGE_KEY] == Envelope(Record(BLANK_FORM), At(now + TTL_MS))
    ensures STEP_KEY in r <==> step != 1
    ensures step != 1 ==> r[STEP_KEY] == Envelope(Num(1), At(now + TTL_MS))
    ensures forall k :: k != STEP_KEY && k != STORAGE_KEY ==> (k in r <==> k in st) && (k in st ==> r[k] == st[k])
  {
    var cleared := Clear(st, {STORAGE_KEY, STEP_KEY});
    var synced := if step != 1 then Save(cleared, STEP_KEY, Num(1), TTL_MS, now) else cleared;
    Save(synced, STORAGE_KEY, Record(BLANK_FORM), TTL_MS, now)
  }

  /**
   * The saves of the first render's two effects, followed by the re-render's saves of the step if it changed
   * and of the form if it was replaced, leave the two effects' saves of the final step and form.
   */
  lemma EffectsSettle(st: Storage, step0: int, form0: map<string, string>, step: int, form: map<string, string>, now: int,
                      stepChanged: bool, formReplaced: bool)
    requires stepChanged || step == step0
    requires formReplaced || form == form0
    ensures var s1 := Save(Save(st, STEP_KEY, Num(step0), TTL_MS, now), STORAGE_KEY, Record(form0), TTL_MS, now);
            var s2 := if stepChanged then Save(s1, STEP_KEY, Num(step), TTL_MS, now) else s1;
            var s3 := if formReplaced then Save(s2, STORAGE_KEY, Record(form), TTL_MS, now) else s2;
            s3 == Persisted(st, step, form, now)
  {
    var s1 := Save(Save(st, STEP_KEY, Num(step0), TTL_MS, now), STORAGE_KEY, Record(form0), TTL_MS, now);
    var s2 := if stepChanged then Save(s1, STEP_KEY, Num(step), TTL_MS, now) else s1;
    var s3 := if formReplaced then Save(s2, STORAGE_KEY, Record(form), TTL_MS, now) else s2;
    var p := Persisted(st, step, form, now);
    assert s3.Keys == p.Keys;
    forall k | k in p
      ensures s3[k] == p[k]
    {
    }
  }

  // ---------------------------------------------------------------------------------------------
  // The component
  // ---------------------------------------------------------------------------------------------

  class ContactForm {
    var currentStep: int
    var formData: map<string, string>
    var errors: map<Field, string>
    var showRestoreToast: bool
    /** The browser's key-value store. */
    var storage: Storage
    /** The `step` search parameter of the page URL. */
    var urlStep: Option<string>

    ghost predicate Valid()
      reads this
    {
      1 <= currentStep <= LAST_STEP && Complete(formData)
    }

    /** The first render, before any effect has run. */
    constructor (url: Option<string>, st: Storage)
      ensures Valid()
      ensures currentStep == 1 && formData == BLANK_FORM && errors == map[] && !showRestoreToast
      ensures storage == st && urlStep == url
    {
      currentStep := 1;
      formData := BLANK_FORM;
      errors := map[];
      showRestoreToast := false;
      storage := st;
      urlStep := url;
    }

    method SaveWithTTL(key: string, value: Value, ttl: int, now: int)
      modifies this`storage
      ensures storage == Save(old(storage), key, value, ttl, now)
    {
      storage := storage[key := Envelope(value, At(now + ttl))];
    }

    method LoadWithTTL(key: string, now: int) returns (v: Value)
      modifies this`storage
      ensures v == Load(old(storage), key, now).value
      ensures storage == Load(old(storage), key, now).storage
    {
      v := Null;
      if key in storage {
        match storage[key]
        case Unreadable =>
        case Envelope(value, expiry) =>
          if expiry.At? && now > expiry.ms {
            storage := storage - {key};
          } else {
            v := value;
          }
      }
    }

    method ClearStored()
      modifies this`storage
      ensures storage == Clear(old(storage), {STORAGE_KEY, STEP_KEY})
    {
      storage := storage - {STORAGE_KEY};
      storage := storage - {STEP_KEY};
    }

    /** The mount effect: restore the step (URL over store) and the form data. */
    method Mount(now: int) returns (restoredData: bool)
      requires Valid()
      modifies this`currentStep, this`urlStep, this`formData, this`showRestoreToast, this`storage
      ensures Valid()
      ensures (currentStep, urlStep) == RestoredStep(old(urlStep), old(storage), now, old(currentStep))
      ensures var d := Load(Load(old(storage), STEP_KEY, now).storage, STORAGE_KEY, now);
              && storage == d.storage
              && formData == (if d.value.Record? then old(formData) + d.value.fields else old(formData))
              && showRestoreToast == (d.value.Record? || old(showRestoreToast))
      ensures Restoration(currentStep, urlStep, formData, showRestoreToast, storage)
           == Restored(old(urlStep), old(storage), now, old(currentStep), old(formData), old(showRestoreToast))
      ensures restoredData <==> Load(Load(old(storage), STEP_KEY, now).storage, STORAGE_KEY, now).value.Record?
    {
      RestoreStep(now);
      var stored := LoadWithTTL(STORAGE_KEY, now);
      MergeStored(stored);
      restoredData := stored.Record?;
      RestoredParts(old(urlStep), old(storage), now, old(currentStep), old(formData), old(showRestoreToast));
    }

    /** The second half of the mount effect: a stored form record is merged over the form and raises the toast. */
    method MergeStored(stored: Value)
      requires Valid()
      modifies this`formData, this`showRestoreToast
      ensures Valid()
      ensures formData == if stored.Record? then old(formData) + stored.fields else old(formData)
      ensures showRestoreToast == (stored.Record? || old(showRestoreToast))
    {
      if stored.Record? {
        formData := formData + stored.fields;
        showRestoreToast := true;
      }
    }

    /** The first half of the mount effect: the step from the URL, or else from the store. */
    method RestoreStep(now: int)
      requires Valid()
      modifies this`currentStep, this`urlStep, this`storage
      ensures Valid()
      ensures (currentStep, urlStep) == RestoredStep(old(urlStep), old(storage), now, old(currentStep))
      ensures storage == Load(old(storage), STEP_KEY, now).storage
    {
      var fromUrl := ParseInt(urlStep.GetOr(""));
      var fromStore := LoadWithTTL(STEP_KEY, now);
      if fromUrl.Some? && 1 <= fromUrl.value <= LAST_STEP {
        currentStep := fromUrl.value;
      } else if fromStore.Num? && 1 <= fromStore.n <= LAST_STEP {
        currentStep := fromStore.n;
        urlStep := Some(NatToDecimal(fromStore.n));
      }
    }

    /**
     * The effect that runs whenever the step changes: mirror it into the URL and the store. `step` is the
     * step of the render the effect belongs to.
     */
    method SyncStep(step: int, now: int)
      requires 1 <= step <= LAST_STEP
      modifies this`urlStep, this`storage
      ensures urlStep == Some(NatToDecimal(step))
      ensures storage == Save(old(storage), STEP_KEY, Num(step), TTL_MS, now)
    {
      urlStep := Some(NatToDecimal(step));
      SaveWithTTL(STEP_KEY, Num(step), TTL_MS, now);
    }

    /** The effect that runs whenever the form data changes; `form` is the form of its render. */
    method PersistForm(form: map<string, string>, now: int)
      modifies this`storage
      ensures storage == Save(old(storage), STORAGE_KEY, Record(form), TTL_MS, now)
    {
      SaveWithTTL(STORAGE_KEY, Record(form), TTL_MS, now);
    }

    /** The restore toast's timer running out. */
    method DismissToast()
      modifies this`showRestoreToast
      ensures !showRestoreToast
    {
      showRestoreToast := false;
    }

    method HandleInputChange(field: Field, value: string)
      requires Valid()
      modifies this`formData, this`errors
      ensures Valid()
      ensures formData == old(formData)[Name(field) := value]
      ensures errors == if field in old(errors) && old(errors)[field] != "" then old(errors)[field := ""] else old(errors)
    {
      formData := formData[Name(field) := value];
      if field in errors && errors[field] != "" {
        errors := errors[field := ""];
      }
    }

    /** Records the step's errors (replacing all earlier ones) and answers whether there are none. */
    method ValidateStep(step: int) returns (ok: bool)
      modifies this`errors
      ensures errors == StepErrors(formData, step)
      ensures ok <==> errors == map[]
    {
      var newErrors: map<Field, string> := map[];
      var form := formData;
      if step == 1 {
        newErrors := ContactDetailsErrors(form);
      } else if 2 <= step <= LAST_STEP {
        var field := if step == 2 then BusinessType else if step == 3 then LookingToBuild
                     else if step == 4 then MonthlyRevenue else if step == 5 then TechTeam else StartTimeline;
        newErrors := CheckField(newErrors, form, field);
        assert StepFields(step) == [field];
        assert Collect(form, [field]) == AddError(map[], form, field) by {
          assert [field][..0] == [];
        }
      }
      assert newErrors == StepErrors(form, step);
      errors := newErrors;
      ok := |newErrors| == 0;
    }

    /** Moves forward only when the current step validates, and never past the last step. */
    method NextStep()
      requires Valid()
      modifies this`errors, this`currentStep
      ensures Valid()
      ensures errors == StepErrors(formData, old(currentStep))
      ensures currentStep == if errors == map[] && old(currentStep) < LAST_STEP then old(currentStep) + 1 else old(currentStep)
    {
      var ok := ValidateStep(currentStep);
      if ok && currentStep < LAST_STEP {
        currentStep := currentStep + 1;
      }
    }

    method PrevStep()
      requires Valid()
      modifies this`currentStep
      ensures Valid()
      ensures currentStep == if old(currentStep) > 1 then old(currentStep) - 1 else old(currentStep)
    {
      if currentStep > 1 {
        currentStep := currentStep - 1;
      }
    }

    /**
     * Submission validates the final step only; when that passes and the post goes out (`delivered` is the
     * outcome of the request), the form, errors, step and both stored keys are reset.
     */
    method HandleSubmit(delivered: bool) returns (sent: bool)
      requires Valid()
      modifies this`errors, this`formData, this`currentStep, this`storage
      ensures Valid()
      ensures sent <==> StepErrors(old(formData), LAST_STEP) == map[] && delivered
      ensures sent ==> formData == BLANK_FORM && errors == map[] && currentStep == 1
                       && storage == Clear(old(storage), {STORAGE_KEY, STEP_KEY})
      ensures !sent ==> formData == old(formData) && currentStep == old(currentStep) && storage == old(storage)
                        && errors == StepErrors(old(formData), LAST_STEP)
    {
      var ok := ValidateStep(LAST_STEP);
      if !ok || !delivered {
        sent := false;
        return;
      }
      formData := BLANK_FORM;
      errors := map[];
      currentStep := 1;
      ClearStored();
      sent := true;
    }

    /** Enter is suppressed on every step but the last, so it cannot submit early. */
    method HandleFormKeyDown(key: string) returns (suppressed: bool)
      requires Valid()
      ensures suppressed <==> key == "Enter" && currentStep != LAST_STEP
    {
      suppressed := key == "Enter" && currentStep < LAST_STEP;
    }

    method HandleClearForm()
      requires Valid()
      modifies this`errors, this`formData, this`currentStep, this`storage
      ensures Valid()
      ensures formData == BLANK_FORM && errors == map[] && currentStep == 1
      ensures storage == Clear(old(storage), {STORAGE_KEY, STEP_KEY})
    {
      formData := BLANK_FORM;
      errors := map[];
      currentStep := 1;
      ClearStored();
    }

    /**
     * The first render and the re-render the restoration causes, with their effects in React's order: the
     * mount effect; the sync and persist effects of the first commit, which see the first render's step and
     * form; then the sync effect again if the step changed, and the persist effect again if stored data was
     * merged (the merge always makes a new object).
     */
    method FirstRender(now: int)
      requires Valid()
      modifies this`currentStep, this`urlStep, this`formData, this`showRestoreToast, this`storage
      ensures Valid()
      ensures var r := Restored(old(urlStep), old(storage), now, old(currentStep), old(formData), old(showRestoreToast));
              && currentStep == r.step && formData == r.form && showRestoreToast == r.toast
              && urlStep == Some(NatToDecimal(r.step))
              && storage == Persisted(r.storage, r.step, r.form, now)
    {
      RestoredParts(urlStep, storage, now, currentStep, formData, showRestoreToast);
      var step0, form0 := currentStep, formData;
      var restoredData := Mount(now);
      CommitEffects(step0, form0, restoredData, now);
    }

    /**
     * The sync and persist effects of the first commit, with the first render's `step0` and `form0`, then of
     * the re-render: sync if the step changed, persist if the form was replaced.
     */
    method CommitEffects(step0: int, form0: map<string, string>, formReplaced: bool, now: int)
      requires Valid() && 1 <= step0 <= LAST_STEP
      requires formReplaced || formData == form0
      modifies this`urlStep, this`storage
      ensures urlStep == Some(NatToDecimal(currentStep))
      ensures storage == Persisted(old(storage), currentStep, formData, now)
    {
      ghost var st := storage;
      SyncStep(step0, now);
      PersistForm(form0, now);
      var stepChanged := currentStep != step0;
      if stepChanged {
        SyncStep(currentStep, now);
      }
      if formReplaced {
        PersistForm(formData, now);
      }
      EffectsSettle(st, step0, form0, currentStep, formData, now, stepChanged, formReplaced);
    }

    /** `handleClearForm` and the effects of the re-render it causes. */
    method ClearAndCommit(now: int)
      requires Valid()
      modifies this`errors, this`formData, this`currentStep, this`storage, this`urlStep
      ensures Valid()
      ensures formData == BLANK_FORM && errors == map[] && currentStep == 1
      ensures storage == ClearedStore(old(storage), old(currentStep), now)
      ensures urlStep == if old(currentStep) != 1 then Some(NatToDecimal(1)) else old(urlStep)
    {
      var step0 := currentStep;
      HandleClearForm();
      if currentStep != step0 {
        SyncStep(currentStep, now);
      }
      PersistForm(formData, now);
    }

    /** `handleSubmit` and, when the form was sent, the effects of the re-render its reset causes. */
    method SubmitAndCommit(delivered: bool, now: int) returns (sent: bool)
      requires Valid()
      modifies this`errors, this`formData, this`currentStep, this`storage, this`urlStep
      ensures Valid()
      ensures sent <==> StepErrors(old(formData), LAST_STEP) == map[] && delivered
      ensures sent ==> formData == BLANK_FORM && errors == map[] && currentStep == 1
                       && storage == ClearedStore(old(storage), old(currentStep), now)
                       && urlStep == if old(currentStep) != 1 then Some(NatToDecimal(1)) else old(urlStep)
      ensures !sent ==> formData == old(formData) && currentStep == old(currentStep) && storage == old(storage)
                        && urlStep == old(urlStep) && errors == StepErrors(old(formData), LAST_STEP)
    {
      var step0 := currentStep;
      sent := HandleSubmit(delivered);
      if sent {
        if currentStep != step0 {
          SyncStep(currentStep, now);
        }
        PersistForm(formData, now);
      }
    }
  }

  // ---------------------------------------------------------------------------------------------
  // Properties
  // ---------------------------------------------------------------------------------------------

  lemma BlankFormComplete()
    ensures Complete(BLANK_FORM)
  {
  }

  /** Merging a complete form over the blank one gives that form back: the blank form has no key of its own. */
  lemma MergeOverBlank(form: map<string, string>)
    requires Complete(form)
    ensures BLANK_FORM + form == form
  {
    assert Name(FirstName) in form && Name(LastName) in form && Name(CountryCode) in form && Name(Phone) in form;
    assert Name(Email) in form && Name(CompanyName) in form && Name(BusinessType) in form && Name(LookingToBuild) in form;
    assert Name(MonthlyRevenue) in form && Name(TechTeam) in form && Name(StartTimeline) in form;
    assert BLANK_FORM.Keys <= form.Keys;
  }

  /**
   * The rules: names, phone and project description must be non-blank after trimming; the country code and
   * the four selections must be non-empty; the email must be non-blank and contain the pattern; the company
   * name is optional.
   */
  lemma FieldRules(form: map<string, string>, f: Field)
    ensures f == CompanyName ==> FieldError(form, f).None?
    ensures f in {FirstName, LastName, Phone, LookingToBuild} ==> (FieldError(form, f).Some? <==> Trim(FieldText(form, f)) == "")
    ensures f in {CountryCode, BusinessType, MonthlyRevenue, TechTeam, StartTimeline} ==> (FieldError(form, f).Some? <==> FieldText(form, f) == "")
    ensures f == Email ==> (FieldError(form, f).Some? <==> Trim(FieldText(form, f)) == "" || !MatchesEmailPattern(FieldText(form, f)))
  {
    var t := Trim(FieldText(form, f));
  }

  /** Validation of a step looks only at that step's own fields: forms that agree there get the same errors. */
  lemma StepErrorsLocal(form: map<string, string>, form': map<string, string>, step: int)
    requires forall f :: f in StepFields(step) ==> FieldText(form, f) == FieldText(form', f)
    ensures StepErrors(form, step) == StepErrors(form', step)
  {
    forall f | f in StepFields(step)
      ensures FieldError(form, f) == FieldError(form', f)
    {
    }
  }

  /** Every field but the company name is checked by exactly one step; the company name by none. */
  lemma StepsPartitionFields(f: Field)
    ensures f == CompanyName ==> forall s :: f !in StepFields(s)
    ensures f != CompanyName ==> exists s :: 1 <= s <= LAST_STEP && f in StepFields(s)
    ensures forall s, s' :: f in StepFields(s) && f in StepFields(s') ==> s == s'
  {
    if f == CompanyName {
    } else if f in StepFields(1) {
    } else if f == BusinessType {
      assert f in StepFields(2);
    } else if f == LookingToBuild {
      assert f in StepFields(3);
    } else if f == MonthlyRevenue {
      assert f in StepFields(4);
    } else if f == TechTeam {
      assert f in StepFields(5);
    } else {
      assert f in StepFields(6);
    }
  }

  /** Submitting checks only the timeline: the form goes out with any other field still empty. */
  lemma SubmitChecksOnlyTimeline(form: map<string, string>)
    ensures StepErrors(form, LAST_STEP) == map[] <==> FieldText(form, StartTimeline) != ""
  {
    if FieldText(form, StartTimeline) == "" {
      assert StartTimeline in StepErrors(form, LAST_STEP);
    }
  }

  /** The email check searches for the pattern: text around an address, or a bare `a@b.c`, passes. */
  lemma EmailPatternExamples()
    ensures MatchesEmailPattern("a@b.c")
    ensures MatchesEmailPattern("mail me: a@b.c please")
    ensures !MatchesEmailPattern("a@b")
    ensures !MatchesEmailPattern("@b.c")
    ensures !MatchesEmailPattern("a@.c")
  {
    assert EmailMatchAt("a@b.c", 1, 3);
    assert EmailMatchAt("mail me: a@b.c please", 10, 12);
  }

  /** A reload whose URL step parses to a number in 1..6 opens that step, whatever the store holds. */
  lemma ParsedUrlStepWins(st: Storage, now: int, u: string, k: int, step: int, form: map<string, string>, toast: bool)
    requires ParseInt(u) == Some(k) && 1 <= k <= LAST_STEP
    ensures Restored(Some(u), st, now, step, form, toast).step == k
    ensures Restored(Some(u), st, now, step, form, toast).url == Some(u)
  {
    assert RestoredStep(Some(u), st, now, step) == (k, Some(u));
  }

  /** In particular the step the sync effect wrote into the URL is the one a reload opens. */
  lemma UrlStepWins(st: Storage, now: int, k: int, step: int, form: map<string, string>, toast: bool)
    requires 1 <= k <= LAST_STEP
    ensures Restored(Some(NatToDecimal(k)), st, now, step, form, toast).step == k
    ensures Restored(Some(NatToDecimal(k)), st, now, step, form, toast).url == Some(NatToDecimal(k))
  {
    ParseIntOfDecimal(k);
    ParsedUrlStepWins(st, now, NatToDecimal(k), k, step, form, toast);
  }

  /**
   * A session saved at `t` (step and form, as the two effects store them) and reopened at `t'` within the
   * time-to-live without a URL step comes back on the same step with the same form, the URL rewritten to it,
   * and the restore toast raised.
   */
  lemma ReloadWithinTtl(st: Storage, step: int, form: map<string, string>, t: int, t': int)
    requires 1 <= step <= LAST_STEP && Complete(form)
    requires t' <= t + TTL_MS
    ensures var r := Restored(None, Persisted(st, step, form, t), t', 1, BLANK_FORM, false);
            r.step == step && r.url == Some(NatToDecimal(step)) && r.form == form && r.toast
            && r.storage == Persisted(st, step, form, t)
  {
    var p := Persisted(st, step, form, t);
    PersistedLoadsBack(st, step, form, t, t');
    assert ParseInt("") == None;
    assert RestoredStep(None, p, t', 1) == (step, Some(NatToDecimal(step)));
    MergeOverBlank(form);
  }

  /** Within the time-to-live both saved keys load back what the effects stored, and the store is unchanged. */
  lemma PersistedLoadsBack(st: Storage, step: int, form: map<string, string>, t: int, t': int)
    requires t' <= t + TTL_MS
    ensures var p := Persisted(st, step, form, t);
            Load(p, STEP_KEY, t') == Loaded(Num(step), p) && Load(p, STORAGE_KEY, t') == Loaded(Record(form), p)
  {
    var p := Persisted(st, step, form, t);
    assert p[STEP_KEY] == Envelope(Num(step), At(t + TTL_MS));
    assert p[STORAGE_KEY] == Envelope(Record(form), At(t + TTL_MS));
  }

  /** The same session reopened after the time-to-live starts over on step 1 with a blank form, and both keys are gone. */
  lemma ReloadAfterTtl(st: Storage, step: int, form: map<string, string>, t: int, t': int)
    requires 1 <= step <= LAST_STEP
    requires t' > t + TTL_MS
    ensures var r := Restored(None, Persisted(st, step, form, t), t', 1, BLANK_FORM, false);
            r.step == 1 && r.url == None && r.form == BLANK_FORM && !r.toast
            && r.storage == st - {STEP_KEY, STORAGE_KEY}
  {
    var p := Persisted(st, step, form, t);
    assert p[STEP_KEY] == Envelope(Num(step), At(t + TTL_MS));
    assert p[STORAGE_KEY] == Envelope(Record(form), At(t + TTL_MS));
    assert ParseInt("") == None;
    assert p - {STEP_KEY} - {STORAGE_KEY} == st - {STEP_KEY, STORAGE_KEY};
  }

  /**
   * The persist effect stores the form even when it is blank (on first render and right after a clear), so a
   * reload within the time-to-live raises the restore toast although nothing the visitor typed was restored.
   */
  lemma BlankFormRaisesToast(st: Storage, t: int, t': int)
    requires t' <= t + TTL_MS
    ensures Restored(None, Persisted(st, 1, BLANK_FORM, t), t', 1, BLANK_FORM, false).toast
    ensures Restored(None, Persisted(st, 1, BLANK_FORM, t), t', 1, BLANK_FORM, false).form == BLANK_FORM
  {
    BlankFormComplete();
    ReloadWithinTtl(st, 1, BLANK_FORM, t, t');
  }

  /**
   * A clear on any step, reopened later: the visitor lands on step 1 with a blank form either way, and the
   * restore toast shows exactly when the reload comes within the time-to-live of the clear.
   */
  lemma ClearThenReload(st: Storage, step: int, t: int, t': int)
    requires 1 <= step <= LAST_STEP
    ensures var r := Restored(None, ClearedStore(st, step, t), t', 1, BLANK_FORM, false);
            r.step == 1 && r.form == BLANK_FORM && (r.toast <==> t' <= t + TTL_MS)
  {
    var c := ClearedStore(st, step, t);
    assert ParseInt("") == None;
    BlankFormComplete();
    MergeOverBlank(BLANK_FORM);
    var l1 := Load(c, STEP_KEY, t');
    assert STORAGE_KEY in l1.storage && l1.storage[STORAGE_KEY] == c[STORAGE_KEY];
  }

  /**
   * A session reopened after the time-to-live ends its first render with both keys saved again, holding
   * step 1 and the blank form, whatever it held before.
   */
  lemma ReopenAfterTtl(st: Storage, step: int, form: map<string, string>, t: int, t': int)
    requires 1 <= step <= LAST_STEP
    requires t' > t + TTL_MS
    ensures var r := Restored(None, Persisted(st, step, form, t), t', 1, BLANK_FORM, false);
            Persisted(r.storage, r.step, r.form, t') == Persisted(st, 1, BLANK_FORM, t')
  {
    ReloadAfterTtl(st, step, form, t, t');
    var q := st - {STEP_KEY, STORAGE_KEY};
    assert Persisted(q, 1, BLANK_FORM, t') == Persisted(st, 1, BLANK_FORM, t');
  }
}

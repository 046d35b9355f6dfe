# Build With Stack site — verified model of the interactive core

This project is a Dafny model of the logic behind four parts of the agency's marketing site, with proofs of
what each promises:

- **Cost estimator** (`src/pages/CostEstimate.jsx`).
  - `computeEstimate` turns the wizard's answers into a quote: base score, price band, add-ons, rush premium,
    a rounded cost range, weeks and sprints, tier and team, stack and phase hours. It is modelled as pure
    functions in `estimate_engine.dfy`.
  - `toTitle` is modelled there too.
  - The eleven-step wizard (toggle, select, next/previous, reset) is the class `EstimateWizard.Wizard` in
    `estimate_wizard.dfy`.
- **Contact form** (`src/components/Contact.jsx`).
  - The form has six steps with per-step validation. Its draft is kept in the browser store under a two-hour
    time-to-live.
  - On mount it restores the step from the URL, or else from the store, and restores the form data.
    Submission and clearing reset it and remove the draft; the effects of the re-render then save the
    blank form again, and step 1 unless the form was already on step 1.
  - The store envelope is `ttl_storage.dfy`; the component is the class `ContactForm.ContactForm` in
    `contact_form.dfy`.
- **Blog index** (`src/pages/BlogList.jsx`).
  - It builds page-request parameters and merges fetched posts by slug.
  - It keeps the offset and "has more" flag, resets on a new search or category, and loads more pages.
  - All of this is in `blog_list.dfy`.
- **Testimonials carousel** (`src/components/Testimonials.jsx`).
  - It has cyclic next/previous, dot selection, card positions and the autoplay flag.
  - All of this is in `testimonials.dfy`.

Shared pieces:

- `wrappers.dfy` holds `Option`.
- `seqs.dfy` holds first-occurrence deduplication, which is what a JavaScript `Set` or insertion-ordered
  `Map` produces.
- `text.dfy` holds ASCII `trim`, `parseInt` and decimal rendering.

Money is exact:

- Quote totals are carried in hundredths of a dollar, so the ×1.25/×1.10 rush multipliers and the 20%/25%
  variance stay integral.
- `Math.ceil` and `Math.round` are written out as integer division.
- Time is a parameter in milliseconds.
- The browser store, the URL's `step` parameter, network responses and timer firings are explicit state or
  method calls.

Where the code and its design notes differ, the model follows the code:

- The estimator keeps no draft in the browser store; only the contact form does.
- The estimator's `TIMELINE` weight table (`src/pages/CostEstimate.jsx:58-62`) is never added to the base
  score. The timeline acts only through the rush premium and the schedule compression.
- The three phase hours are each rounded separately, so they need not add up to `total_hours`
  (`EstimateEngine.PhasesCanMissTotal`).

Some behaviours of the code as written are stated as lemmas:

- The "basically nothing selected" price clamp cannot be reached from the wizard.
  - No user-volume option is `lt_1k`, and the wizard starts with `web` selected (`EstimateWizard.WizardNeverBasic`).
  - It applies only to payloads built some other way (`EstimateEngine.BasicSetupQuote`).
- "Load more" requests further pages without the search term (`BlogList.LoadMoreDropsSearch`).
- A blank draft raises the contact form's restore toast. The draft is stored on the first render and
  again after a clear (`ContactForm.BlankFormRaisesToast`).

## Model

| member | source | states |
|---|---|---|
| EstimateEngine.ProjectTypeWeight | src/pages/CostEstimate.jsx:11-16 | the project-type points, 0 for an unknown or missing key, at most 10 |
| EstimateEngine.FeatureWeight | src/pages/CostEstimate.jsx:18-29 | the feature points, 0 for an unknown key, at most 10 |
| EstimateEngine.StageWeight | src/pages/CostEstimate.jsx:31-36 | the stage points, at most 6 |
| EstimateEngine.IntegrationsWeight | src/pages/CostEstimate.jsx:38-43 | the integrations points, at most 14, and 0 for "0" and for the unknown key "none" |
| EstimateEngine.UserVolumeWeight | src/pages/CostEstimate.jsx:45-50 | the user-volume points, at most 10, and 0 when missing or "lt_1k" |
| EstimateEngine.ComplianceWeight | src/pages/CostEstimate.jsx:52-56 | the compliance points, at most 10, and 0 for "basic" |
| EstimateEngine.DesignWeight | src/pages/CostEstimate.jsx:64-68 | the design-scope points, at most 10 |
| EstimateEngine.MigrationWeight | src/pages/CostEstimate.jsx:70-74 | the migration points, at most 8 |
| EstimateEngine.PlatformWeight | src/pages/CostEstimate.jsx:76-81 | the platform points, at most 6 |
| EstimateEngine.Kept | src/pages/CostEstimate.jsx:90-96 | the list filter keeps exactly the entries that are neither empty nor "none" and is never longer |
| EstimateEngine.Normalize | src/pages/CostEstimate.jsx:89-102 | features and platforms hold exactly the non-empty, non-"none" entries of a list answer (none when missing); a missing integrations count becomes "0" |
| EstimateEngine.BaseScore | src/pages/CostEstimate.jsx:104-114 | the sum of the table weights; the single answers add at most 68, each feature at most 10 and each platform at most 6 (exact per feature and platform: `AddFeatureBaseScore`, `AddPlatformBaseScore`) |
| EstimateEngine.FlagsOf | src/pages/CostEstimate.jsx:116-122 | compliance is needed exactly when compliance is not "basic"; scale users exactly for "1k_10k" or "gt_10k" |
| EstimateEngine.IsBasicSetup | src/pages/CostEstimate.jsx:128-133 | a basic setup adds nothing for features, platforms, integrations, compliance or user volume (its score bound: `BasicSetupScore`; its quote: `BasicSetupQuote`) |
| EstimateEngine.BasePrice | src/pages/CostEstimate.jsx:135-141 | the price band is between $900 and $18000 |
| EstimateEngine.AddOnPrice | src/pages/CostEstimate.jsx:143-150 | the add-ons sum to the listed fixed amounts, at most $11000 |
| EstimateEngine.PriceBeforeRush | src/pages/CostEstimate.jsx:124-156 | a basic setup (user volume `lt_1k` or `undefined`, but not `null`) is clamped to $800 with no add-ons; otherwise band plus add-ons, at least $900 |
| EstimateEngine.Rushed | src/pages/CostEstimate.jsx:158-164 | the total is ×1.25 for "asap", ×1.10 for "3_6_mo", unchanged otherwise (in hundredths) |
| EstimateEngine.VariancePercent | src/pages/CostEstimate.jsx:166-169 | the variance is 25% exactly when the base score exceeds 80, else 20% |
| EstimateEngine.RoundTo | src/pages/CostEstimate.jsx:171 | costs are rounded to $100 exactly below a $2000 total, else to $250 |
| EstimateEngine.CeilDiv | src/pages/CostEstimate.jsx:173-174 | `Math.ceil(a / b)`: the least multiple count that reaches `a` |
| EstimateEngine.RoundUp | src/pages/CostEstimate.jsx:173-174 | the least multiple of the step at or above the amount |
| EstimateEngine.CostRange | src/pages/CostEstimate.jsx:166-178 | low is the rounded-up low amount but at least $800; high is the rounded-up high amount but at least low + $400 |
| EstimateEngine.Max | src/pages/CostEstimate.jsx:177-178 | `Math.max`: an upper bound equal to one argument |
| EstimateEngine.TotalComplexity | src/pages/CostEstimate.jsx:182-186 | the complexity is the base score plus at most 47 for AI, voice and multi-tenant |
| EstimateEngine.LadderWeeks | src/pages/CostEstimate.jsx:188-200 | 3 weeks exactly up to complexity 25, 5 exactly in (25, 50], 8 exactly in (50, 80], 12 exactly above 80 |
| EstimateEngine.LadderMonotone | src/pages/CostEstimate.jsx:188-200 | a higher complexity never gets fewer weeks or fewer sprints |
| EstimateEngine.ScheduleOf | src/pages/CostEstimate.jsx:188-242 | without "asap" the ladder applies; "asap" compresses weeks above 4 to max(4, ceil(0.7·weeks)) with sprints ceil(weeks/2), never lengthens, and flags rush exactly when "asap" and complexity > 80 |
| EstimateEngine.StaffingOf | src/pages/CostEstimate.jsx:207-221 | tier A/B/C/D exactly for complexity ≤30, ≤60, ≤100, above |
| EstimateEngine.StackOf | src/pages/CostEstimate.jsx:223-227 | the baseline stack first, then the AI, voice and GHL additions in that order, each present exactly when its flag is set |
| EstimateEngine.RoundHalfUp | src/pages/CostEstimate.jsx:230 | `Math.round` of a non-negative fraction: the nearest integer, halves up |
| EstimateEngine.PhaseRatios | src/pages/CostEstimate.jsx:231-237 | the phase split is 40/40/20 with AI or voice, else 45/35/20, always summing to 100 |
| EstimateEngine.TotalHours | src/pages/CostEstimate.jsx:230 | two and a half hours per complexity point, a half hour rounded up |
| EstimateEngine.PhasesOf | src/pages/CostEstimate.jsx:231-240 | hardening ≤ integrations ≤ core ≤ total hours (their sum is within one hour of the total: `PhasesNearTotal`) |
| EstimateEngine.EstimateOf | src/pages/CostEstimate.jsx:244-262 | the quote's range has low ≥ $800 and high ≥ low + $400, reports the base score, flags rush exactly for "asap" above complexity 80, and dev hours never exceed total hours |
| EstimateEngine.ComputeEstimate | src/pages/CostEstimate.jsx:88-262 | `computeEstimate`: the range starts at $800 or more and spans at least $400, the base score is that of the normalised payload, and only an asap timeline is rushed (ends on the rounding step: `EstimateOnIncrement`; monotone in features: `AddFeatureCostLowMonotone`) |
| EstimateEngine.ToTitle | src/pages/CostEstimate.jsx:83-86 | empty for a missing answer; otherwise the one-pass title scan of the underscore-to-space image (character by character: `ToTitleChars`) |
| EstimateEngine.Underscores | src/pages/CostEstimate.jsx:85 | every underscore becomes a space, nothing else changes |
| EstimateEngine.Split | src/pages/CostEstimate.jsx:85 | splitting on spaces yields at least one word |
| EstimateEngine.CapitalizeAll | src/pages/CostEstimate.jsx:85 | capitalizing keeps the number of words |
| EstimateEngine.TitleScan | src/pages/CostEstimate.jsx:85 | the one-pass title scan keeps the length |
| EstimateEngine.DevHoursBound | src/pages/CostEstimate.jsx:251 | `round(hours · 0.85)` never exceeds the hours |
| EstimateEngine.SumWeightsAppend | src/pages/CostEstimate.jsx:104-114 | the `reduce` sum over a concatenation is the sum of the sums |
| EstimateEngine.KeptSnoc | src/pages/CostEstimate.jsx:90-96 | filtering a list with one more entry appends that entry exactly when it is kept |
| EstimateEngine.AddFeatureBaseScore | src/pages/CostEstimate.jsx:107 | selecting one more feature adds exactly its weight to the base score |
| EstimateEngine.AddPlatformBaseScore | src/pages/CostEstimate.jsx:114 | selecting one more platform adds exactly its weight to the base score |
| EstimateEngine.BasePriceMonotone | src/pages/CostEstimate.jsx:135-141 | a higher base score never lowers the price band |
| EstimateEngine.BandMonotone | src/pages/CostEstimate.jsx:135-150 | a higher base score and a superset of the AI, voice and multi-tenant flags never lower band plus add-ons; when the variance widens to 25%, 75% of the new price is at least 80% of the old |
| EstimateEngine.PriceMonotone | src/pages/CostEstimate.jsx:124-156 | outside the basic clamp, more features and a higher score never lower the price before rush, with the same 75%-over-80% margin when the variance widens |
| EstimateEngine.RushedMonotone | src/pages/CostEstimate.jsx:158-164 | for each timeline the rush premium keeps the order of two prices and a 75%-over-80% margin between them |
| EstimateEngine.CeilDivMonotone | src/pages/CostEstimate.jsx:173 | ceiling division is monotone in the dividend |
| EstimateEngine.RoundedLowMonotone | src/pages/CostEstimate.jsx:166-174 | a larger total never rounds to a smaller low cost, across the $100→$250 and 20%→25% switches |
| EstimateEngine.NormalizeWithFeature | src/pages/CostEstimate.jsx:89-102 | adding a feature to the answers only extends the normalized feature list |
| EstimateEngine.CostLowMonotone | src/pages/CostEstimate.jsx:166-178 | a larger total with at least the same base score never gives a smaller low cost, provided a wider variance comes with a 75%-over-80% larger total |
| EstimateEngine.CostRangeOf | src/pages/CostEstimate.jsx:166-178 | the quote's low and high are the cost range of its rushed total and variance |
| EstimateEngine.FeatureStep | src/pages/CostEstimate.jsx:89-114 | adding a feature other than "" or "none" never lowers the base score, leaves the payload outside the basic clamp, only extends the feature list and changes nothing else |
| EstimateEngine.AddFeatureCostLowMonotone | src/pages/CostEstimate.jsx:104-178 | selecting one more feature never lowers the quoted low cost |
| EstimateEngine.BasicSetupScore | src/pages/CostEstimate.jsx:124-133 | a basic setup scores at most 34 |
| EstimateEngine.BasicRange | src/pages/CostEstimate.jsx:166-178 | each of the three clamped totals $800, $880 and $1000 gives the range $800 to $1200 |
| EstimateEngine.BasicSetupQuote | src/pages/CostEstimate.jsx:152-178 | a basic setup is quoted exactly $800–$1200 whatever its timeline |
| EstimateEngine.NullUserVolumeNotClamped | src/pages/CostEstimate.jsx:128-133 | a `null` user volume is not clamped: the payload that would be basic with `undefined` (base score 26) is quoted $1000–$1500 |
| EstimateEngine.CostRangeOnIncrement | src/pages/CostEstimate.jsx:171-178 | from $800 up, both ends of the range are multiples of the rounding step |
| EstimateEngine.EstimateOnIncrement | src/pages/CostEstimate.jsx:171-178 | every quote's low and high are multiples of its rounding step |
| EstimateEngine.SwitchToRush | src/pages/CostEstimate.jsx:202-242 | switching a schedule longer than 8 weeks to "asap" gives max(4, ceil(0.7·weeks)) weeks and raises the rush flag |
| EstimateEngine.RushNeverLengthens | src/pages/CostEstimate.jsx:202-205 | "asap" never gives more weeks than any other timeline |
| EstimateEngine.PhasesNearTotal | src/pages/CostEstimate.jsx:229-240 | the three rounded phases add up to within one hour of the total |
| EstimateEngine.PhasesCanMissTotal | src/pages/CostEstimate.jsx:229-240 | at complexity 11 the total is 28 hours but the phases are 13 + 10 + 6 = 29 |
| EstimateEngine.SplitJoinIsScan | src/pages/CostEstimate.jsx:85 | split, capitalize and join equals the one-pass scan |
| EstimateEngine.JoinConsChar | src/pages/CostEstimate.jsx:85 | joining words commutes with a leading character |
| EstimateEngine.TitleScanAt | src/pages/CostEstimate.jsx:85 | the scan upper-cases exactly the characters at the start or after a space |
| EstimateEngine.ToTitleChars | src/pages/CostEstimate.jsx:83-86 | `toTitle` keeps the length; each character is the underscore-to-space image, upper-cased exactly at a word start |
| EstimateWizard.SetScalar | src/pages/CostEstimate.jsx:367 | a single-select commit sets that field and leaves every other field and both lists unchanged |
| EstimateWizard.SetList | src/pages/CostEstimate.jsx:360 | a list update sets that list and leaves everything else unchanged |
| EstimateWizard.Toggled | src/pages/CostEstimate.jsx:356-360 | toggling yields a duplicate-free list in which the key is present exactly when it was absent, every other key unchanged |
| EstimateWizard.Wizard.constructor | src/pages/CostEstimate.jsx:266-280 | the wizard starts at step 0 with the initial payload |
| EstimateWizard.Wizard.ToggleMulti | src/pages/CostEstimate.jsx:354-361 | the payload's list becomes its toggle and the step is unchanged; wizard-built payloads stay wizard-built |
| EstimateWizard.Wizard.HandleSelect | src/pages/CostEstimate.jsx:363-371 | the field is set; with auto-advance the step moves one forward clamped at the last |
| EstimateWizard.Wizard.GoNext | src/pages/CostEstimate.jsx:380 | one step forward clamped to the last step; payload unchanged |
| EstimateWizard.Wizard.GoPrev | src/pages/CostEstimate.jsx:381 | one step back clamped at 0; payload unchanged |
| EstimateWizard.Wizard.Next | src/pages/CostEstimate.jsx:373-378 | moves forward only when the current step can proceed |
| EstimateWizard.Wizard.CanProceed | src/pages/CostEstimate.jsx:373-378 | a single-choice current step lets the wizard proceed exactly when its answer is a non-empty string; every other step always proceeds |
| EstimateWizard.Wizard.LiveEstimate | src/pages/CostEstimate.jsx:383 | the preview of the current payload starts at $800 or more, spans at least $400, and is rushed only for asap |
| EstimateWizard.Wizard.Reset | src/pages/CostEstimate.jsx:406-410 | back to the initial payload at step 0 |
| EstimateWizard.Wizard.BackToEdit | src/pages/CostEstimate.jsx:526 | step 0 with the payload kept |
| EstimateWizard.InitialFromOptions | src/pages/CostEstimate.jsx:266-347 | the initial payload holds only offered options |
| EstimateWizard.ToggleKeepsOptions | src/pages/CostEstimate.jsx:354-361 | toggling an offered key keeps the payload wizard-built |
| EstimateWizard.SelectKeepsOptions | src/pages/CostEstimate.jsx:363-371 | selecting an offered option keeps the payload wizard-built |
| EstimateWizard.ToggleTwice | src/pages/CostEstimate.jsx:354-361 | toggling twice restores membership, and restores the list itself when the key was absent and the list duplicate-free |
| EstimateWizard.CanProceedAt | src/pages/CostEstimate.jsx:373-378 | at a single-choice step, proceed exactly when its answer is a non-empty string; any other step, or one out of range, always proceeds (never blocked on a wizard-built payload: `WizardPayloadsProceed`) |
| EstimateWizard.WizardPayloadsProceed | src/pages/CostEstimate.jsx:373-378 | on a wizard-built payload every step can proceed |
| EstimateWizard.WizardNeverBasic | src/pages/CostEstimate.jsx:124-133 | no wizard-built payload is a basic setup |
| EstimateWizard.InitialNormalized | src/pages/CostEstimate.jsx:266-277 | the initial payload normalizes to a new SaaS MVP at the idea stage with no features, integrations "0", under 100 users, basic compliance, 6+ months, a basic UI kit, no migration and the web platform |
| EstimateWizard.InitialScore | src/pages/CostEstimate.jsx:104-164 | the initial payload scores 17, sets no flag and has a rushed total of $900 |
| EstimateWizard.InitialEstimate | src/pages/CostEstimate.jsx:266-277 | the initial payload scores 17 and is quoted $800–$1200, 3 weeks, 2 sprints, tier A |
| Seqs.Distinct | src/pages/BlogList.jsx:72-74 | first-occurrence deduplication: duplicate-free, same members |
| Seqs.DistinctAppendPrefix | src/pages/BlogList.jsx:71-74 | appending never reorders the elements already seen |
| Seqs.DistinctOfNoDup | src/pages/CostEstimate.jsx:356 | a duplicate-free list is its own deduplication |
| Seqs.Without | src/pages/CostEstimate.jsx:357 | `Set.delete`: removes exactly that element, order kept |
| Seqs.WithoutAbsent | src/pages/CostEstimate.jsx:357 | deleting an absent element changes nothing |
| Seqs.WithoutSnoc | src/pages/CostEstimate.jsx:357-358 | deleting a just-added element undoes the add |
| Text.TrimStart | src/components/Contact.jsx:121 | removes exactly the leading white space |
| Text.TrimEnd | src/components/Contact.jsx:121 | removes exactly the trailing white space |
| Text.Trim | src/components/Contact.jsx:121 | `trim()` is empty exactly for blank strings and otherwise has non-space ends |
| Text.DigitValue | src/components/Contact.jsx:70 | a digit's value is below 10 |
| Text.DigitChar | src/components/Contact.jsx:97 | a digit below 10 renders as a digit character |
| Text.NatToDecimal | src/components/Contact.jsx:97 | `String(n)` is a non-empty digit string without a leading zero |
| Text.LeadingDigits | src/components/Contact.jsx:70 | the longest digit prefix |
| Text.DecimalValueOfNatToDecimal | src/components/Contact.jsx:97 | rendering a number then reading the digits gives it back |
| Text.LeadingDigitsOfDigits | src/components/Contact.jsx:70 | an all-digit string is its own digit prefix |
| Text.ParseInt | src/components/Contact.jsx:70 | `parseInt(s, 10)`: NaN when the string holds no digit; an all-digit string reads as its decimal value; a negative result needs a minus sign (round trip with `String`: `ParseIntOfDecimal`) |
| Text.ParseIntOfDecimal | src/components/Contact.jsx:70-97 | `parseInt(String(n), 10) == n` |
| TtlStorage.Save | src/components/Contact.jsx:37-42 | the key holds the value with expiry now + ttl; other keys unchanged |
| TtlStorage.Load | src/components/Contact.jsx:44-57 | null for a missing key and for an unreadable one (text that is empty, does not parse, or parses to null), store unchanged; null and removed when strictly expired; otherwise the value, store unchanged |
| TtlStorage.Clear | src/components/Contact.jsx:59-64 | exactly the given keys are removed |
| TtlStorage.LoadAfterSave | src/components/Contact.jsx:37-57 | a saved value loads back until its expiry inclusive; afterwards null and the key is gone |
| TtlStorage.LoadIdempotent | src/components/Contact.jsx:44-57 | loading twice at the same moment gives the same value and store |
| TtlStorage.KeysIndependent | src/components/Contact.jsx:37-57 | saving or loading one key never changes what another key loads |
| ContactForm.StepFields | src/components/Contact.jsx:119-148 | steps 1–6 validate their fields, never the company name; other steps validate nothing |
| ContactForm.CollectSpec | src/components/Contact.jsx:117-148 | checking fields in order records exactly the failing ones with their rule's message |
| ContactForm.StepErrors | src/components/Contact.jsx:116-152 | a step's errors are exactly its failing fields with their messages |
| ContactForm.Restored | src/components/Contact.jsx:67-90 | the form changes only when the toast is raised (step bounds, completeness and removed keys: `RestoredBounds`; reloads: `ReloadWithinTtl`, `ReloadAfterTtl`) |
| ContactForm.RestoredStep | src/components/Contact.jsx:70-77 | a step in 1..6 stays in 1..6, and a changed step is one the URL parameter parses back to |
| ContactForm.RestoredBounds | src/components/Contact.jsx:67-93 | mount keeps the step in 1..6 and the form complete, and at most removes the two keys from the store |
| ContactForm.Persisted | src/components/Contact.jsx:96-106 | after the two effects both keys are stored and no other key changes |
| ContactForm.CheckField | src/components/Contact.jsx:121-144 | one field check records the field's message exactly when its rule fails |
| ContactForm.CheckContactDetail | src/components/Contact.jsx:121-129 | the checks of step 1's fields, with their literal messages |
| ContactForm.CheckProjectField | src/components/Contact.jsx:132-144 | the checks of steps 2 to 6, with their literal messages; the company name has none |
| ContactForm.ContactDetailsChain | src/components/Contact.jsx:120-130 | step 1's errors are its five checks applied in order |
| ContactForm.ContactDetailsErrors | src/components/Contact.jsx:120-130 | step 1's field-by-field checks give its errors |
| ContactForm.ContactForm.constructor | src/components/Contact.jsx:13-29 | step 1, blank form, no errors, no toast |
| ContactForm.ContactForm.SaveWithTTL | src/components/Contact.jsx:37-42 | the store becomes its save |
| ContactForm.ContactForm.LoadWithTTL | src/components/Contact.jsx:44-57 | returns the load's value and leaves its store |
| ContactForm.ContactForm.ClearStored | src/components/Contact.jsx:59-64 | both form keys are removed |
| ContactForm.ContactForm.Mount | src/components/Contact.jsx:67-93 | the state becomes the restoration of URL, store and form; the result says whether stored data was merged |
| ContactForm.ContactForm.RestoreStep | src/components/Contact.jsx:70-77 | the step comes from the URL when it parses to 1..6, else from a stored step in 1..6, which is written back to the URL |
| ContactForm.ContactForm.MergeStored | src/components/Contact.jsx:79-88 | a stored record is merged over the form, stored fields winning, and raises the toast; otherwise nothing changes |
| ContactForm.ContactForm.SyncStep | src/components/Contact.jsx:96-100 | the URL shows the step of the effect's render and that step is saved for two hours |
| ContactForm.ContactForm.PersistForm | src/components/Contact.jsx:103-106 | the form of the effect's render is saved for two hours |
| ContactForm.ContactForm.FirstRender | src/components/Contact.jsx:67-106 | after the mount effect, the first commit's sync and persist effects and the re-render's, the state is the restoration and the store holds the restored step and form for two hours |
| ContactForm.ContactForm.CommitEffects | src/components/Contact.jsx:96-106 | the first commit's saves then the re-render's (step if changed, form if replaced) leave the URL on the final step and the store holding the final step and form |
| ContactForm.EffectsSettle | src/components/Contact.jsx:96-106 | saving the first step and form and then re-saving whichever changed gives the same store as saving the final step and form once |
| ContactForm.ContactForm.DismissToast | src/components/Contact.jsx:89 | the toast is hidden |
| ContactForm.ContactForm.HandleInputChange | src/components/Contact.jsx:108-114 | only that field changes; its error is blanked only if one was showing; other errors untouched |
| ContactForm.ContactForm.ValidateStep | src/components/Contact.jsx:116-152 | the errors become the step's errors, and the result says whether there are none |
| ContactForm.ContactForm.NextStep | src/components/Contact.jsx:154-160 | records the step's errors; advances by one only when there are none and the step is below 6 |
| ContactForm.ContactForm.PrevStep | src/components/Contact.jsx:162-166 | goes back one only above step 1 |
| ContactForm.ContactForm.HandleSubmit | src/components/Contact.jsx:168-234 | the handler's own updates, before any effect runs: sends exactly when step 6 validates and the post goes out; then resets form, errors, step and removes both keys, otherwise changes nothing but the errors (the effects: `SubmitAndCommit`) |
| ContactForm.ContactForm.HandleFormKeyDown | src/components/Contact.jsx:237-241 | Enter is suppressed exactly before step 6 |
| ContactForm.ContactForm.HandleClearForm | src/components/Contact.jsx:243-260 | the handler's own updates, before any effect runs: blank form, no errors, step 1, both keys removed (the effects: `ClearAndCommit`) |
| ContactForm.ClearedStore | src/components/Contact.jsx:243-260 | after a clear and its effects the blank form is saved for two hours; the step key holds step 1 exactly when the clear was not on step 1, and is absent otherwise; other keys unchanged |
| ContactForm.ContactForm.ClearAndCommit | src/components/Contact.jsx:243-260 | a clear followed by the re-render's effects: blank form, step 1, and the store is the cleared store; the URL changes only if the step did |
| ContactForm.ContactForm.SubmitAndCommit | src/components/Contact.jsx:168-234 | a submission followed by the re-render's effects: when sent, as a clear; otherwise form, step, URL and store unchanged and the errors are step 6's |
| ContactForm.BlankFormComplete | src/components/Contact.jsx:14-26 | the blank form holds every field |
| ContactForm.MergeOverBlank | src/components/Contact.jsx:81 | merging a complete stored form over the blank one gives the stored form |
| ContactForm.MatchesEmailPattern | src/components/Contact.jsx:127 | a string the pattern is found in has at least five characters, an `@` and a `.` (examples: `EmailPatternExamples`) |
| ContactForm.RuleError | src/components/Contact.jsx:121-144 | the company name has no rule; every other field rejects an empty value with a non-empty message (each rule: `FieldRules`) |
| ContactForm.FieldRules | src/components/Contact.jsx:119-148 | names, phone and description fail exactly when blank after trim; country code and selections exactly when empty; email when blank or not matching `\S+@\S+\.\S+`; company name never |
| ContactForm.StepErrorsLocal | src/components/Contact.jsx:116-152 | a step's errors depend only on that step's fields |
| ContactForm.StepsPartitionFields | src/components/Contact.jsx:119-148 | each field except the company name is checked by exactly one step |
| ContactForm.SubmitChecksOnlyTimeline | src/components/Contact.jsx:171-174 | submission passes validation exactly when a timeline is selected |
| ContactForm.EmailPatternExamples | src/components/Contact.jsx:127 | the pattern is searched for: "a@b.c" and text around it pass, "a@b", "@b.c", "a@.c" fail |
| ContactForm.UrlStepWins | src/components/Contact.jsx:70-73 | a URL step in 1..6 is restored whatever the store holds |
| ContactForm.ParsedUrlStepWins | src/components/Contact.jsx:70-73 | a URL parameter that parses to a step in 1..6 decides the step and stays in the URL |
| ContactForm.ReloadWithinTtl | src/components/Contact.jsx:67-106 | a session reopened within two hours comes back on the same step with the same form and the toast |
| ContactForm.ReloadAfterTtl | src/components/Contact.jsx:44-93 | the mount effect alone: after two hours it restores step 1 and a blank form with no toast, and both keys have been removed (the effects then save them again: `ReopenAfterTtl`) |
| ContactForm.ReopenAfterTtl | src/components/Contact.jsx:67-106 | after two hours the first render ends with the store holding step 1 and the blank form, saved again for two hours |
| ContactForm.ClearThenReload | src/components/Contact.jsx:67-106 | after a clear on any step, a reload comes back on step 1 with a blank form, with the toast exactly within two hours |
| ContactForm.BlankFormRaisesToast | src/components/Contact.jsx:80-106 | a stored blank form still raises the restore toast |
| BlogList.SearchPattern | src/pages/BlogList.jsx:43 | the pattern is empty exactly for a missing or blank term, else the trimmed term followed by `*` |
| BlogList.BuildParams | src/pages/BlogList.jsx:41-47 | offset is the start, end is start + 8 (the query's `...` range excludes the end, so a page has at most eight posts), no category exactly for "All" |
| BlogList.Slugs | src/pages/BlogList.jsx:73 | the slugs, position by position |
| BlogList.LastWith | src/pages/BlogList.jsx:73 | the post kept under a slug has that slug |
| BlogList.LastWithIsLast | src/pages/BlogList.jsx:73 | the post kept under a slug is one of its posts, and no later post has that slug |
| BlogList.Deduped | src/pages/BlogList.jsx:70-75 | slugs in first-occurrence order, each with its last post |
| BlogList.MergeStep | src/pages/BlogList.jsx:73 | one more `map.set` appends a new slug or keeps the order, and replaces that slug's value |
| BlogList.MergeBySlug | src/pages/BlogList.jsx:71-74 | the merge loop computes the deduplicated list |
| BlogList.IndexBySlug | src/pages/BlogList.jsx:72-73 | after the `set` loop the keys in insertion order are the distinct slugs and each holds its last post |
| BlogList.SetBySlug | src/pages/BlogList.jsx:73 | one `set` keeps the map the index of the posts seen so far, one post further on |
| BlogList.ValuesInOrder | src/pages/BlogList.jsx:74 | the map's values in key insertion order |
| BlogList.DedupedUnique | src/pages/BlogList.jsx:70-75 | merged posts have unique slugs |
| BlogList.DedupedSameSlugs | src/pages/BlogList.jsx:70-75 | merging loses and invents no slug |
| BlogList.AppendKeepsOrder | src/pages/BlogList.jsx:71-74 | appending a page keeps the listed posts in front, in order |
| BlogList.DedupedOfUnique | src/pages/BlogList.jsx:70-75 | pages without shared slugs concatenate unchanged |
| BlogList.BlogListPage.constructor | src/pages/BlogList.jsx:8-15 | no posts, loading, offset 0, no more, category "All" |
| BlogList.BlogListPage.StartFetch | src/pages/BlogList.jsx:38-47 | raises the loading flag matching append and builds the request |
| BlogList.BlogListPage.FinishFetch | src/pages/BlogList.jsx:68-83 | on success posts are merged, offset = start + number of posts returned, has-more exactly when that is below the total; on failure unchanged; only the matching flag is lowered |
| BlogList.BlogListPage.Mount | src/pages/BlogList.jsx:87-89 | the first request has offset 0 and end 8 with no pattern and no category |
| BlogList.BlogListPage.SetSearchTerm | src/pages/BlogList.jsx:156 | the term is recorded |
| BlogList.BlogListPage.HandleCategoryChange | src/pages/BlogList.jsx:104-108 | category set, offset 0, has more |
| BlogList.BlogListPage.SearchSettled | src/pages/BlogList.jsx:92-102 | offset 0, has more, and a fresh first-page request with the term and category |
| BlogList.BlogListPage.LoadMore | src/pages/BlogList.jsx:300-305 | only when idle with posts and more to load; requests from the offset in the category with an empty pattern |
| BlogList.LoadMoreDropsSearch | src/pages/BlogList.jsx:300-305 | a searched first page uses the pattern while later pages use none |
| Testimonials.NextIndex | src/components/Testimonials.jsx:157 | the next index stays in range and wraps from the last to 0 |
| Testimonials.PrevIndex | src/components/Testimonials.jsx:162 | the previous index stays in range and wraps from 0 to the last |
| Testimonials.Advance | src/components/Testimonials.jsx:139-141 | repeated steps stay in range |
| Testimonials.NextPrevInverse | src/components/Testimonials.jsx:155-163 | previous undoes next and next undoes previous |
| Testimonials.AdvanceAdd | src/components/Testimonials.jsx:139-141 | stepping a + b times is stepping a then b times |
| Testimonials.AdvanceLinear | src/components/Testimonials.jsx:139-141 | before wrapping, k steps add k |
| Testimonials.FullRound | src/components/Testimonials.jsx:139-157 | n steps return to the start |
| Testimonials.ModNext | src/components/Testimonials.jsx:157 | one step from x mod 3 lands on (x + 1) mod 3 |
| Testimonials.AdvanceModCount | src/components/Testimonials.jsx:139-141 | with three testimonials, k steps from i land on (i + k) mod 3 |
| Testimonials.CardPosition | src/components/Testimonials.jsx:146-153 | `getPosition`: centre exactly for the current card, and with at most three cards no card is hidden (neighbours: `NeighboursFlank`) |
| Testimonials.CenterIffCurrent | src/components/Testimonials.jsx:146-149 | a card is centred exactly when it is the current one |
| Testimonials.NeighboursFlank | src/components/Testimonials.jsx:146-153 | with three or more cards the next is on the right and the previous on the left |
| Testimonials.ThreeCardsAllVisible | src/components/Testimonials.jsx:146-153 | with three cards none is hidden: next right, the one after left |
| Testimonials.TwoCardsNoLeft | src/components/Testimonials.jsx:146-153 | with two cards the other is always on the right |
| Testimonials.Carousel.constructor | src/components/Testimonials.jsx:133-134 | index 0, autoplay on |
| Testimonials.Carousel.PositionOf | src/components/Testimonials.jsx:146-153 | no card is hidden and only the current one is centred |
| Testimonials.Carousel.Tick | src/components/Testimonials.jsx:136-144 | the interval advances the index only while autoplay is on |
| Testimonials.Carousel.HandleNext | src/components/Testimonials.jsx:155-158 | autoplay off, index advanced |
| Testimonials.Carousel.HandlePrev | src/components/Testimonials.jsx:160-163 | autoplay off, index moved back |
| Testimonials.Carousel.SelectDot | src/components/Testimonials.jsx:307-313 | autoplay off, index set to the dot's |
| Testimonials.Carousel.MouseEnter | src/components/Testimonials.jsx:208 | autoplay off |
| Testimonials.Carousel.MouseLeave | src/components/Testimonials.jsx:209 | autoplay on |

## Left out

- `exportPDF` (src/pages/CostEstimate.jsx:385-404) opens a window, writes HTML and prints. It is browser I/O.
- The estimator's `result` state is only ever cleared by `reset` and is never read, so it is not modelled.
- The 420 ms deferred commit in `handleSelect` is modelled as an immediate commit. The `pendingSelection`
  highlight is presentation and is not modelled.
- Timers are atomic method calls:
  - the toast's 2500 ms timeout is `ContactForm.ContactForm.DismissToast`;
  - the blog's 400 ms debounce is `BlogList.BlogListPage.SearchSettled`;
  - the carousel's 4000 ms interval is `Testimonials.Carousel.Tick`.
- `HandleSubmit` has the network outcome as a parameter (`delivered`). The Google Forms field IDs, the
  `FormData` body and the alerts are I/O.
- The content store is left out:
  - the GROQ query text and its filtering, ordering and slicing;
  - the Sanity client;
  - the category list fetch.
  
  The model receives a response as a page of posts and a total, or a failure. Post images, categories and
  tags are not modelled.
- Store failures are not modelled: write failures that are swallowed and quota errors. Two kinds of stored
  value are not modelled either:
  - a non-integer number under the step key, which passes the `typeof === 'number'` test
    (src/components/Contact.jsx:74) and would become the step;
  - a stored record with non-string fields, which is merged (src/components/Contact.jsx:81) and later makes
    `.trim()` throw (src/components/Contact.jsx:121).
  - `TtlStorage.Load`: an envelope whose expiry is not a number never expires, as in the code. Text that
    does not parse, and a stored `null`, read as null.
- React's scheduling is not modelled. `ContactForm.ContactForm.FirstRender`, `ClearAndCommit` and
  `SubmitAndCommit` run the sync and persist effects in declaration order after each commit, and the
  re-render runs an effect only when its dependency changed.
- `Text.Trim`: `trim` and `\s` are modelled on ASCII white space only. Unicode spaces are not treated as
  blank.
- `Text.ParseInt`: only ASCII white space is skipped before the sign. `parseInt` also skips Unicode white
  space and line terminators there; the model reads such a string as NaN.
- `EstimateEngine.ToTitle`: upper-casing is modelled on ASCII letters only.
- `EstimateEngine.EstimateOf`: prices are exact rationals, in hundredths of a dollar, where the code uses
  IEEE doubles. Rare double-rounding differences at `Math.ceil` and `Math.round` boundaries are not
  reproduced.
- `EstimateEngine.EstimateOf`: the `complexity` field is the base score itself. `Math.round(base * 10) / 10`
  of an integer is that integer.
- Arbitrary payload keys are not modelled. The wizard writes only its own field names, so unknown keys and
  `Object.prototype` names in the weight tables are not modelled.
- Non-string answer values are not modelled. A non-string `integrations_count` is passed through `String`;
  the model takes it as a string.
- Presentational components, the FAQ and pricing toggles, and the Meta Pixel loader are not part of this
  model.

# Salary predictor: scoring engine, skill chips, prompts and advice panel

A Dafny model of the logic inside the single React component of the salary
predictor (`public/src/App.js`). The screen estimates a data scientist's
annual salary from a seniority, a location, an industry and a list of skills.
It uses a fixed additive coefficient table. It can also ask an external
text-generation service for a negotiation script or a skills roadmap.

Modules:

- `Coefficients`: the coefficient table (`SalaryTable`, base 65000), the
  form state `Selection`, the default selection, and the tolerant lookup
  `Lookup` (`table[key] || 0`).
- `Scoring`: `calculateSalary`. The method `CalculateSalary` keeps the
  source's running total, growing list of breakdown rows and skill loop. It
  is proved equal to the specification functions `Total` and `Breakdown`.
  Lemmas state the breakdown's shape, when it reconciles with the total,
  and two concrete estimates.
- `Skills`: `toggleSkill`'s list update (`Toggle`, with `Without` for
  `filter`) and its membership, no-duplicate and double-toggle lemmas.
- `Prompts`: the two prompt templates, as the ordered pieces of each
  template literal. The skills are joined by `", "`, with a per-kind
  fallback phrase. `toLocaleString` is a function parameter `format`.
- `Text`: `Array.prototype.join`, the decimal rendering of a count inside a
  template literal, and substring containment.
- `App`: the class `SalaryPredictor`. Its fields are the screen's state
  cells (`formData`, `prediction`, `breakdown`, `aiAdvice`, `aiLoading`,
  `adviceType`). Its methods are the event handlers that write them. The
  awaited HTTP call is split into `StartAdvice` (the code before `await`)
  and `CompleteAdvice(outcome)` (the code after it). The outcome is an
  abstract `Reply(text?) | ConnectionError` value. The invariant `Valid()`
  says three things: the rows shown add up to the estimate shown, no
  advice text is shown while loading, and no skill is selected twice.

One might expect a set of skills, a skills row whenever the skill sum is
non-zero, a `Failed` advice state, a "dismiss" that resets the panel, and a
request token that keeps an outdated reply from being shown. The code has
none of these, and the model follows the code:

- The skills row is emitted when the skill sum is `> 0`, not when it is
  non-zero. `Scoring.Reconciliation` shows the consequence: rows and total
  agree exactly when the skill sum is not negative. The shipped table has no
  negative skill amount, so for it they always agree
  (`Scoring.SalaryTableReconciles`).
- Skills are a list in click order, not a set. The list starts empty, and
  only chip clicks and Reset, which empties it, change it, so it never holds
  a skill twice; the screen's
  invariant `Valid()` records this.
- There is no request token. A completion writes its text and clears
  `aiLoading` unconditionally, so a late reply overwrites a newer request's
  state (`App.LateReplyOverwrites`, `App.ReplyAfterReset`).
- There is no separate `Failed` state. A failure only sets `aiAdvice` to a
  fixed message.
- "Back" clears only `adviceType`. It neither clears the advice nor stops
  loading.

## Model

| member | source | states |
|---|---|---|
| `Scoring.CalculateSalary` | public/src/App.js:106-161 | The running total equals `Total` of the selection (base + seniority + location + industry amounts + the skill sum, a missing key adding 0). The rows built up are exactly `Breakdown` of the selection. |
| `Scoring.BreakdownShape` | public/src/App.js:110-157 | The breakdown has 4 or 5 rows. The first four are always base, seniority, location and industry, in that order, with their labels and amounts. A fifth row exists iff the skill sum is > 0. It is labelled `Skills Bonus (n)` with n the number of selected skills, and carries that sum. |
| `Scoring.Reconciliation` | public/src/App.js:145-157 | For any table, the rows add up to the total iff the skill sum is not negative. A negative sum is added to the total without a row. |
| `Scoring.ReconciliationNonNegative` | public/src/App.js:145-157 | When no skill amount is negative, the rows always add up to the total. |
| `Scoring.SkillSumNonNegative` | public/src/App.js:145-149 | Non-negative skill amounts give a non-negative skill bonus for any list of skills. |
| `Scoring.SkillSumAppend` | public/src/App.js:146-149 | Adding one more skill to the loop adds exactly its looked-up amount to the bonus. |
| `Coefficients.SalaryTableSkillsNonNegative` | public/src/App.js:58-68 | Every skill amount in the shipped table is non-negative. |
| `Scoring.SalaryTableReconciles` | public/src/App.js:34-69 | With the shipped table, the breakdown always adds up to the estimate. |
| `Scoring.UnknownChoiceContributesNothing` | public/src/App.js:127 | A location missing from the table gets a row of amount 0 and leaves the total as base + seniority + industry + skills. |
| `Scoring.SeniorRemoteExample` | public/src/App.js:34-69 | Senior / Remote / Technology / [SQL] is estimated at 160000, with 5 rows. |
| `Scoring.DefaultSelectionExample` | public/src/App.js:71-76 | The initial selection Mid-Level / United States / Technology / [] is estimated at 150000, with 4 rows. |
| `Scoring.ToggleMovesTotal` | public/src/App.js:87-94 | For a duplicate-free list, clicking a skill chip changes the estimate by exactly that skill's amount: minus when it was selected, plus when it was not. |
| `Scoring.SkillSumWithoutOnce` | public/src/App.js:90 | Filtering a skill that occurs once out of the list removes exactly its amount from the bonus. |
| `Skills.WithoutMembers` | public/src/App.js:90 | The filtered list holds exactly the old entries that differ from the clicked skill. |
| `Skills.WithoutAbsent` | public/src/App.js:90 | Filtering out a skill that is not listed leaves the list unchanged. |
| `Skills.WithoutAppend` | public/src/App.js:90 | Filtering a concatenation filters each part. |
| `Skills.WithoutNoDuplicates` | public/src/App.js:90 | Filtering keeps a duplicate-free list duplicate-free. |
| `Skills.ToggleFlips` | public/src/App.js:87-94 | After a click, the skill is selected iff it was not selected before. |
| `Skills.ToggleKeepsOthers` | public/src/App.js:87-94 | A click leaves every other skill's membership unchanged. |
| `Skills.ToggleNoDuplicates` | public/src/App.js:87-94 | A duplicate-free list stays duplicate-free after a click. |
| `Skills.ToggleTwiceAbsent` | public/src/App.js:87-94 | Clicking an unselected skill twice gives back exactly the original list. |
| `Skills.ToggleTwicePresent` | public/src/App.js:87-94 | Clicking a selected skill twice gives the list with every copy of that skill removed and one copy appended at the end, so its position is not restored. |
| `Text.DecimalString` | public/src/App.js:153 | A count is rendered as a non-empty string of decimal digits without a leading zero. |
| `Text.DecimalRoundTrip` | public/src/App.js:153 | Reading the rendered count back gives the count, so the skills row label names the real number of skills. |
| `Text.JoinContainsEach` | public/src/App.js:189 | Every element of a list joined by a separator occurs in the joined text. |
| `Text.ConcatContainsEach` | public/src/App.js:183-193 | Every piece of a filled-in template occurs in the resulting text. |
| `Prompts.SkillsTextContents` | public/src/App.js:188-190 | The skills text names every selected skill, and is the fallback phrase when none is selected. |
| `Prompts.NegotiationPromptContents` | public/src/App.js:183-193 | The negotiation prompt contains the seniority, the industry, the location, the formatted estimate and the skills text. |
| `Prompts.RoadmapPromptContents` | public/src/App.js:195-203 | The roadmap prompt contains the seniority, the industry and the skills text. |
| `Prompts.RoadmapIgnoresLocationAndEstimate` | public/src/App.js:195-203 | The roadmap prompt is the same text whatever the location, the estimate or the number format. |
| `Prompts.PromptMentionsSkills` | public/src/App.js:181-204 | Either prompt names every selected skill. With none selected it names "general data science skills" (negotiation) or "basic proficiency" (roadmap). |
| `App.AdviceTextCases` | public/src/App.js:220-229 | A finished request never leaves the advice empty. A non-empty reply text is shown as is. A missing or empty text gives the "couldn't generate" apology. A failure gives the connection message, which a reply shows only if that is its literal text. |
| `App.SalaryPredictor.constructor` | public/src/App.js:71-85 | The screen starts with the default form, estimate 0 and no rows, no advice, not loading, and no advice kind. |
| `App.SalaryPredictor.ToggleSkill` | public/src/App.js:87-94 | A chip click replaces only the form's skill list, with its toggled version. |
| `App.SalaryPredictor.SelectSeniority` | public/src/App.js:283 | The seniority drop-down replaces only the form's seniority. |
| `App.SalaryPredictor.SelectLocation` | public/src/App.js:304 | The location drop-down replaces only the form's location. |
| `App.SalaryPredictor.SelectIndustry` | public/src/App.js:325 | The industry drop-down replaces only the form's industry. |
| `App.SalaryPredictor.Recalculate` | public/src/App.js:96-104 | After recalculation, the estimate and the rows shown are those of the current form, and they add up. |
| `App.SalaryPredictor.Reset` | public/src/App.js:163-172 | Reset restores the default form, empties the advice and clears the advice kind. The estimate, the rows and the loading flag are unchanged. |
| `App.SalaryPredictor.StartAdvice` | public/src/App.js:174-204 | Starting a request sets loading, sets the advice kind and empties the advice. It returns the prompt built from the current form and estimate. Nothing else changes. |
| `App.SalaryPredictor.CompleteAdvice` | public/src/App.js:220-232 | A completion stores the outcome's advice text and stops loading, unconditionally. The advice kind and the form are unchanged. |
| `App.SalaryPredictor.Back` | public/src/App.js:491 | "Back" clears only the advice kind. |
| `App.LateReplyOverwrites` | public/src/App.js:174-232 | Negotiation is started, the user goes Back and starts roadmap, then the negotiation reply lands. The roadmap panel shows that reply and loading has stopped. |
| `App.ReplyAfterReset` | public/src/App.js:163-232 | Reset during loading leaves loading on. The reply that lands afterwards still fills the advice. |
| `App.FirstScreen` | public/src/App.js:71-204 | After the first recalculation, the default form shows 150000 over 4 rows. Its negotiation prompt contains the formatted 150000 and the generic skills phrase. |
| `Coefficients.SalaryTable` | public/src/App.js:31-69 | The base amount 65000 and the four category tables, entry for entry. Its properties are stated by `Coefficients.SalaryTableSkillsNonNegative`, `Scoring.SeniorRemoteExample` and `Scoring.DefaultSelectionExample`. |
| `Coefficients.DefaultSelection` | public/src/App.js:71-76 | Mid-Level / United States / Technology with no skills: the initial form and the one Reset restores. Its estimate is stated by `Scoring.DefaultSelectionExample`. |
| `Coefficients.Lookup` | public/src/App.js:118 | `category[key] \|\| 0`: the key's amount when the table has it, 0 otherwise, never an error. Its consequence for the total is stated by `Scoring.UnknownChoiceContributesNothing`. |
| `Skills.Without` | public/src/App.js:90 | `filter((s) => s !== skill)`: the entries different from `skill`, in order. Its properties are stated by the `Skills.Without*` lemmas. |
| `Skills.Toggle` | public/src/App.js:87-94 | The updater of `toggleSkill`: the filtered list when the skill is present, the list with the skill appended otherwise. Its properties are stated by the `Skills.Toggle*` lemmas. |
| `Text.Join` | public/src/App.js:189 | `join(", ")`: the elements in order with the separator between neighbours. `Text.JoinContainsEach` states that every element occurs in the result. |
| `Prompts.SkillsText` | public/src/App.js:188-190 | The skills joined by ", " when the list is non-empty, the kind's fallback phrase otherwise. Stated by `Prompts.SkillsTextContents`. |
| `Prompts.Pieces` | public/src/App.js:181-204 | The two template literals, as their fixed text and filled-in values in order; "negotiation" uses seniority, industry, location, the formatted estimate and the skills text, "roadmap" only seniority, industry and the skills text. |
| `Prompts.Prompt` | public/src/App.js:181-204 | The prompt text: the pieces glued together. Stated by `Prompts.NegotiationPromptContents`, `Prompts.RoadmapPromptContents`, `Prompts.RoadmapIgnoresLocationAndEstimate` and `Prompts.PromptMentionsSkills`. |
| `App.AdviceText` | public/src/App.js:221-229 | The advice a finished request stores: the reply's non-empty text, else the "couldn't generate" apology; the connection message after an exception. Stated by `App.AdviceTextCases`. |
| `App.ClickMovesEstimate` | public/src/App.js:87-161 | On the first screen, a chip click followed by recalculation moves the estimate from 150000 by exactly the skill's amount, and the rows still add up to it. |
| `Scoring.SkillSum` | public/src/App.js:145-149 | The `forEach` sum: the looked-up amounts of the selected skills, one term per listed skill, 0 for an unknown skill. Stated by `Scoring.SkillSumAppend`, `Scoring.SkillSumNonNegative` and `Scoring.SkillSumWithoutOnce`. |
| `Scoring.Total` | public/src/App.js:107-150 | The estimate: base + seniority + location + industry amounts + the skill sum. `Scoring.CalculateSalary` computes it with an accumulator; `Scoring.Reconciliation` relates it to the rows. |
| `Scoring.Breakdown` | public/src/App.js:108-157 | The `details` list: four fixed rows, then the skills row when the skill sum is > 0. Stated by `Scoring.BreakdownShape` and `Scoring.Reconciliation`. |
| `Scoring.SkillsLabel` | public/src/App.js:153 | The label `Skills Bonus (n)` with n written in decimal digits. `Text.DecimalRoundTrip` states that the digits read back as n. |
| `App.ClickOnAnyScreen` | public/src/App.js:87-161 | On any screen whose estimate is up to date, a chip click followed by recalculation toggles that skill in the form and leaves the other form fields alone. It moves the estimate by minus or plus the skill's amount, and the screen stays valid and up to date. Only the form, the estimate and the rows may change, so the advice panel (text, loading flag, kind) is kept. |

## Left out

- Rendering, layout and CSS classes, including each breakdown row's
  `color` field: presentation only.
- The Tailwind script injector: DOM manipulation at mount.
- The `fetch` call to the generation endpoint and `response.json()`: network
  I/O. Only its outcome enters the model, as the `Outcome` argument of
  `CompleteAdvice`. A JSON body lacking `candidates[0].content.parts[0].text`
  is `Reply(None)`. A thrown error is `ConnectionError`.
- The animation flag and its `setTimeout`: timing and UI only.
- `console.error` in the failure path: logging.
- `toLocaleString`: locale-dependent. It enters the prompt through the
  `format` parameter, with no assumption about its output.
- The `prediction * EUR_TO_PHP` display conversion and the sign rendering of
  row amounts: display only.
- `fetchGeminiAdvice` compares its argument with `"negotiation"` and builds
  the roadmap prompt for any other string. The screen only passes
  `"negotiation"` or `"roadmap"`, so the model uses the two-valued
  `AdviceKind`.
- Keys such as `constructor` that a JavaScript object inherits from its
  prototype: the lookup would find a function instead of a number. The
  drop-downs and chips only offer table keys, and `Lookup` treats every key
  missing from the table as 0.
- JavaScript numbers are doubles. The model uses unbounded integers, which
  agree for every sum this table can produce.
- React's scheduling: the recalculation effect is the separate method
  `Recalculate`, which the caller runs after each form change. A reply
  landing is a call to `CompleteAdvice` at any point.

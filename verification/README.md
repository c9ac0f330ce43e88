# Retirement scenario engine — a verified Dafny model

This project models the computational core of a financial-planning application for advisers:

- **Retirement projection.** Each scenario's retirement account is projected year by year. Before retirement it compounds growth and adds a contribution. After retirement it compounds growth and withdraws a spending level inflated from the current age.
- **Maximum-spending solver.** A bisection searches for the largest spending level that still leaves a positive final balance.
- **Link registry.** Three scenarios (conservative, moderate, aggressive) share their inputs through per-field, per-scenario link flags. An edit fans out to linked scenarios. Re-linking a field copies this scenario's value to every other scenario.
- **Asset totals.** Totals over a client's asset categories: total, nest egg, managed and unmanaged. The balance-sheet table (one row per category) and the net worth figures are modelled too.
- **Input validators.** Character-class checks on names and client ids, and the sign check on numbers.
- **Age calculation.** The birthday-aware age arithmetic.

Money and rates are `real`, and ages are `int`. `(1 + r/100) ** t` is the recursive `Pow`.

The Streamlit session entry that holds the scenarios and their flags is the class `ScenarioLinks.ScenarioSet`. Its methods change its fields in place. Its invariant `Valid()` says that, for every linkable field, all scenarios linked for that field hold one value. A flag that has never been created counts as linked. `Valid()` holds along the modelled edit paths: creating a flag, toggling a link, editing a field and setting a growth rate. Storing a solved maximum spending (`StoreMaxSpending`) does not keep it (see "## Left out").

The starting balance of every scenario is read as `client['assets'].get('retirement_accounts', 0)` (sections/retirement_scenarios.py:64). The application never creates an asset category with that key. The defaults come from config/settings.py:48-53, and added categories are named `category_N` (sections/assets_liabilities.py:59). So for a client created in the app, every scenario starts from a balance of 0. A category of that name would hold a list of assets, not a number. The constructor takes this value as an optional parameter. In the same way, the current age is read as `client['personal_info'].get('age', 40)` (sections/retirement_scenarios.py:57), but the application never stores an `age` key. It stores `client_dob` (sections/client_information.py:48-54), and a new client gets no age (app.py:72-78). So for a client created in the app, every scenario starts at current age 40. A client file loaded as stored (app.py:25-30) may hold other keys; what such files contain is not part of this model.

The model of a projection is `ProjectScenario`, a loop that appends balances. It is proved against the recursive specification `BalanceAt`. The solver `CalculateMaxSpending` is the source's `while` loop, with bisection invariants. The asset totals are the source's nested loops, proved equal to sums over all assets. The validators and the age calculation are pure functions.

Behaviour worth knowing:

- **Re-linking a field.** The code (sections/retirement_scenarios.py:145-151) copies the toggling scenario's own value into every other scenario, whatever their flags. It does not pull a group value into the toggling scenario.
- **The solver.** It is a `while` loop that stops once the bracket is at most 100 wide. It does not run a fixed number of iterations.
- **Scenario validation.** Nothing validates a scenario before projecting it. A final age below the current age gives an empty list of years and a single balance.

## Model

| member | source | states |
|---|---|---|
| RetirementScenarios.ProjectScenario | sections/retirement_scenarios.py:22-43 | `years` is exactly `current_age..final_age`, or empty when the final age is smaller. `balances` starts at the starting balance and has one entry per step plus one; it is as long as `years` whenever `final_age >= current_age`. Every balance is the recursive projection `BalanceAt`, and the final balance is the last balance. |
| RetirementScenarios.TrajectoryFollowsStepRule | sections/retirement_scenarios.py:27-37 | Before retirement a step is growth plus the annual contribution. From retirement on, a step is growth minus spending × (1 + inflation/100)^t, with t counted from the current age. |
| RetirementScenarios.CalculateMaxSpending | sections/retirement_scenarios.py:5-20 | The result is never negative, and it is at most the starting balance when that is non-negative. It is 0 when the starting balance is at most 100, negative balances included. It is 0 or leaves a positive final balance. When the starting balance is non-negative, some value within 100 above it is the starting balance or leaves no positive final balance. With non-negative growth and inflation factors: when the result is positive, every spending up to it leaves a positive final balance, and every spending from result + 100 to below the starting balance leaves none. |
| RetirementScenarios.BalanceAntitone | sections/retirement_scenarios.py:27-37 | With non-negative growth and inflation factors, the balance after every step is non-increasing in the spending level. |
| RetirementScenarios.FinalBalanceAntitone | sections/retirement_scenarios.py:5-18 | With non-negative growth and inflation factors, spending more never leaves a larger final balance, which is the monotonicity the bisection relies on. The inflation input has no lower bound, and a factor below 0 can break it. |
| RetirementScenarios.AccumulationIgnoresSpending | sections/retirement_scenarios.py:31-32 | Up to retirement the balance does not depend on the spending level. |
| RetirementScenarios.AccumulationIsCompounding | sections/retirement_scenarios.py:29-32 | Up to retirement the projection is plain compounding with a fixed contribution. |
| RetirementScenarios.AccumulationClosedForm | sections/retirement_scenarios.py:29-32 | Up to retirement, balance(t) = start·g^t + contribution·(g^(t-1) + … + 1). |
| RetirementScenarios.FirstWithdrawalInflatedFromStart | sections/retirement_scenarios.py:31-35 | The first withdrawal is already inflated by the number of accumulation years. |
| ScenarioLinks.With | sections/retirement_scenarios.py:162 | After `scenario[field] = value` the field reads the value, and the name, growth rate and starting balance are unchanged. |
| ScenarioLinks.WithKeepsOtherFields | sections/retirement_scenarios.py:162 | Setting one field leaves every other linkable field unchanged. |
| ScenarioLinks.FanOutEffect | sections/retirement_scenarios.py:161-170 | After an edit, the edited scenario holds the value. If it is linked, every linked scenario (absent flags read as linked) holds the value too. Otherwise no other scenario changes, and an unlinked scenario never changes. No other field, growth rate or name changes. |
| ScenarioLinks.SyncAllEffect | sections/retirement_scenarios.py:147-151 | Re-linking gives every scenario the toggling scenario's value of the field. The toggling scenario is unchanged, and no other field changes. |
| ScenarioLinks.FanOutKeepsAgreement | sections/retirement_scenarios.py:161-170 | An edit keeps the linked scenarios of any field holding one value. |
| ScenarioLinks.FanOutKeepsEveryAgreement | sections/retirement_scenarios.py:161-170 | An edit keeps agreement on all fields at once. |
| ScenarioLinks.SyncAllKeepsAgreement | sections/retirement_scenarios.py:145-151 | After re-linking, all scenarios agree on the field, and agreement on other fields is kept. |
| ScenarioLinks.FlagChangeKeepsAgreement | sections/retirement_scenarios.py:123-126 | Creating or clearing a flag keeps agreement on its field. Setting any flag keeps agreement on the other fields. |
| ScenarioLinks.RelinkKeepsEveryAgreement | sections/retirement_scenarios.py:145-151 | Setting a flag on and synchronising keeps every field in agreement. |
| ScenarioLinks.UnlinkKeepsEveryAgreement | sections/retirement_scenarios.py:145-146 | Setting a flag off keeps every field in agreement. |
| ScenarioLinks.ScenarioSet.constructor | sections/retirement_scenarios.py:49-91 | Creates the three scenarios with growth rates 6, 7 and 8. They share the client's age (default 40) and retirement accounts (default 0), final age 95, retirement age 65, no contribution, inflation 3 and spending 50000. No flags exist yet, and the invariant holds. |
| ScenarioLinks.ScenarioSet.EnsureFlag | sections/retirement_scenarios.py:123-126 | A missing flag is created as linked. An existing flag and all scenarios are left as they are. |
| ScenarioLinks.ScenarioSet.ToggleLink | sections/retirement_scenarios.py:144-151 | The flag takes the checkbox state. Only an off-to-on change rewrites the scenarios, and then exactly as the re-link synchronisation does. The invariant is kept. |
| ScenarioLinks.ScenarioSet.CopyToOthers | sections/retirement_scenarios.py:147-151 | Every other scenario takes this scenario's value of the field. |
| ScenarioLinks.ScenarioSet.UpdateField | sections/retirement_scenarios.py:161-170 | The scenarios become the fan-out of the edit under the current flags. The flags are unchanged and the invariant is kept. |
| ScenarioLinks.ScenarioSet.SetGrowthRate | sections/retirement_scenarios.py:104-113 | Only this scenario's growth rate changes, to a value in [0, 15]. No other scenario and no flag changes. |
| ScenarioLinks.ScenarioSet.EditField | sections/retirement_scenarios.py:119-170 | After the flag is created, the checkbox applied and the number stored, the flag equals the checkbox and the edited scenario holds the value. When linked, every linked scenario holds it. The scenarios become exactly the fan-out of the edit, applied after the re-link copy when the checkbox turned the flag on, and to the unchanged scenarios otherwise. The invariant is kept. |
| ScenarioLinks.ScenarioSet.StoreMaxSpending | sections/retirement_scenarios.py:173-176 | Only the solved scenario's retirement spending changes, to the solver's result. That result is non-negative, at most a non-negative starting balance, and 0 or leaving a positive final balance. The flags are unchanged. |
| ScenarioLinks.ScenarioSet.ProjectAll | sections/retirement_scenarios.py:188-193 | Every scenario is projected at its own retirement spending. The years are `current_age..final_age` (empty when the final age is smaller), and each balance is the recursive projection. |
| ClientAssets.ManagedPlusUnmanaged | sections/assets_liabilities.py:42-45 | Every asset is counted as managed or unmanaged, so those two totals add up to the total. |
| ClientAssets.PartWithinWhole | sections/assets_liabilities.py:36-45 | With no negative values, the nest egg, managed and unmanaged totals each lie between 0 and the total. |
| ClientAssets.SumOfCategoryTotals | sections/balance_sheet.py:25-27 | Adding the category totals gives the sum over all assets of all categories. |
| AssetsLiabilities.CalculateTotals | sections/assets_liabilities.py:27-47 | The four totals are the sums over all assets of the value (missing values count as 0). The nest egg counts assets whose flag is missing or true, managed those whose flag is true, unmanaged the rest. Total = managed + unmanaged. All four are 0 without `assets`. With no negative values each part is at most the total. |
| BalanceSheet.LabelFrom | sections/balance_sheet.py:29 | Character by character: an underscore becomes a space, a letter is upper-cased after a non-letter and lower-cased after a letter, and anything else is kept. |
| BalanceSheet.DisplayLabel | sections/balance_sheet.py:29 | `replace('_', ' ').title()` keeps the length and turns underscores into spaces. Each run of letters starts upper-case and continues lower-case, and other characters are kept. |
| BalanceSheet.DisplayLabelIdempotent | sections/balance_sheet.py:29 | Formatting a label a second time changes nothing. |
| BalanceSheet.AssetsSummary | sections/balance_sheet.py:18-37 | There is one row per category, in order, with its display label and the sum of its asset values. The total is the sum of the rows and equals the sum over all assets. Without `assets` there are no rows and the total is 0. |
| BalanceSheet.NetWorthAnalysis | sections/balance_sheet.py:45-62 | Total assets is the sum over all assets, the same figure as the other two totals. Liabilities are 0, and net worth is assets minus liabilities. |
| Validators.LeadingRun | utils/validators.py:8 | The greedy run of class characters from the start: all its characters are in the class, and the character after it is not. |
| Validators.FullMatchIsPattern | utils/validators.py:8 | The greedy match followed by Python's `$` accepts exactly the strings that have a non-empty class prefix ending at the end or before a final newline. |
| Validators.NameMatchIsAllNameChars | utils/validators.py:8 | A name matches iff it is non-empty and every character is an ASCII letter, a `\s` whitespace character, `-` or `'`. |
| Validators.IdMatchAllowsFinalNewline | utils/validators.py:34 | An id matches iff it is non-empty letters, digits, `-` and `_`, optionally followed by one final newline. |
| Validators.ValidateName | utils/validators.py:4-10 | An empty name gives "Name cannot be empty". Otherwise the name is accepted iff all its characters are in the name class, else the character-class message. The message is empty iff accepted. |
| Validators.ValidateClientId | utils/validators.py:30-36 | An empty id gives "Client ID cannot be empty". Otherwise the id is accepted iff the pattern describes it, else the character-class message. The message is empty iff accepted. |
| Validators.ValidateNumeric | utils/validators.py:20-28 | No parsed number gives "Must be a valid number". A number is accepted iff negatives are allowed or it is non-negative, else "Value cannot be negative". The message is empty iff accepted. |
| AgeCalculator.CalculateAge | utils/age_calculator.py:3-9 | With no birth date the age is 0. Otherwise it is the year difference, or one less exactly when (month, day) of today comes before that of the birth date. |
| AgeCalculator.AgeOnBirthday | utils/age_calculator.py:7 | On the birthday the age is the exact year difference. |
| AgeCalculator.AgeMonotone | utils/age_calculator.py:7 | The age never decreases as today moves forward. |
| AgeCalculator.AgeStepsOnBirthday | utils/age_calculator.py:7 | Reaching the birthday adds exactly one to the age held earlier in that year. |
| AgeCalculator.NegativeAgeIffBornLater | utils/age_calculator.py:7 | The age is negative exactly when the birth date is after today; it is not clamped. |

## Left out

- **The maximum-spending write-back** (sections/retirement_scenarios.py:177-182). Line 176 stores the solved value into its own scenario first, and `StoreMaxSpending` models that store. The propagation loop after it applies `in` to a boolean flag (line 181) and raises, so no fan-out of the solved value is modelled. The store stays in the session entry. With `retirement_spending` linked (the default), the linked scenarios then hold different values and `Valid()` no longer holds. `ToggleLink`, `UpdateField` and `EditField` require `Valid()`, so the model does not represent the renders that follow such a state.
- **The analysis mode.** The `'maximum_spending'` skip at line 120 never fires, because the radio returns "Maximum Spending", so every linkable field is edited in every mode.
- **Rendering.** Streamlit widgets, columns, labels and metrics, and the Plotly chart (sections/retirement_scenarios.py:184-215) are left out. So are the scenario colour field and the `$…:,.2f` currency formatting. `ProjectAll` computes what the chart draws.
- **Session-entry repair.** A session entry without `field_states` gets an empty flag map (sections/retirement_scenarios.py:92-93). The class always holds its flags, so this repair is not modelled.
- **Flag keys.** The flags' string keys `"{scenario}_{field}_linked"` are modelled as (scenario key, field) pairs. With the fixed scenario keys, these strings never collide.
- **Floating point.** Every amount is an exact `real`, so IEEE rounding, NaN and infinities are not modelled.
- **Parsing.** `datetime.strptime` and `float()` are given as an `Option` input (`None` for a failure). `validate_date` consists only of such a parse and is not modelled.
- **The clock.** `date.today()` is a parameter.
- ScenarioLinks.ScenarioSet.EditField: the number the form returns is a parameter, and the checkbox state is another.
- Validators.ValidateNumeric: `float()` can return NaN, which is accepted because `nan < 0` is false. The model has no NaN.
- BalanceSheet.DisplayLabel: only ASCII letters count as cased. `str.title()` on other Unicode letters (and its special title-case mappings) is not modelled; such characters are kept as they are.
- **Other files.** Client storage and backups (utils/client_manager.py), session helpers (utils/components.py, utils/state_manager.py), settings constants, navigation and the other pages (app.py, sections/cash_flow.py, sections/client_information.py, sections/projections.py) are not part of this model.

# HealthCalc in Dafny

HealthCalc is a React Native app. The user fills in a form with name, age, weight,
height, water drunk today, gender, work type and weekly exercise frequency. The app
then computes and stores a health record:

- the body-mass index (BMI) with its band and colour;
- a daily water target;
- the total daily energy expenditure (TDEE): the Harris-Benedict basal rate times an
  activity factor;
- an action plan with a goal, a calorie target, three tips and an exercise list.

This project models two parts of the app:

- The calculator module `src/utils/healthCalculations.js`. Here `calcularIMC`,
  `calcularAgua`, `calcularTDEE` and `gerarPlanoDeAcao` are pure functions
  (module `HealthCalculations`).
- The submission handler `handleCalcular` of `src/screens/Home.js`. It is a method
  of class `Home.HomeScreen`, whose fields are the form's state variables and the
  list of records.

Modules:

- `Wrappers`: an `Option` type. `None` stands for the JavaScript `NaN` that
  `parseFloat` and `parseInt` return on text that is not a number.
- `Numeric`:
  - `Number.prototype.toFixed` as `ToFixed`: round half away from zero to a grid of
    `10^-digits`;
  - `parseInt` applied to a number as `Truncate`: truncation toward zero.
  - Both come with their rounding bounds and monotonicity.
- `HealthCalculations`: the four calculators.
  - They work on exact reals.
  - The Portuguese messages become tags (`Diagnosis`, `Goal`, `CaloricAction`,
    `Tip`, `Exercise`). The colour codes stay literal strings.
  - Gender, work type and exercise frequency stay strings, because the source
    compares strings and any other value falls through to a default branch.
- `Home`: the comma-to-dot replacement, the parsing, the input test, the record
  built from one submission, and class `HomeScreen`.
  - The `parseFloat` and `parseInt` of the JavaScript runtime are parameters of
    `HandleCalcular`.
  - The class invariant `Valid` says that every stored record is what the
    calculators give on its own measurement.

Behaviour of the code worth knowing when reading the model:

- The water target is rounded to one decimal: 70 kg with no exercise gives 2.5 L (`AguaSamples`).
- Frequencies "0" and "1-2" both give 35 mL/kg. Any unknown frequency also gives 35 mL/kg
  and adds nothing to the activity factor.
- The water message compares the intake with the target already rounded to one decimal.
- The TDEE is truncated toward zero (`parseInt`).
- The handler checks that the height is a number, but not that it is positive; it never checks the age (see Findings).

## Model

| member | source | states |
|---|---|---|
| Numeric.ToFixed | src/utils/healthCalculations.js:24 | `toFixed(n)` gives a value on the `10^-n` grid that is within half a step of the input and keeps its sign |
| Numeric.ToFixedMonotone | src/utils/healthCalculations.js:24 | rounding with `toFixed` never reverses the order of two values |
| Numeric.ToFixedOnGrid | src/utils/healthCalculations.js:24 | a value already on the grid is returned unchanged, so applying `toFixed(n)` to its own result changes nothing |
| Numeric.Truncate | src/utils/healthCalculations.js:44 | `parseInt` of a number is the integer toward zero within distance 1 of it |
| Numeric.TruncateMonotone | src/utils/healthCalculations.js:44 | truncation toward zero never reverses the order of two values |
| HealthCalculations.CalcularIMC | src/utils/healthCalculations.js:7-17 | each band holds exactly on its half-open BMI interval (below 18.5, up to 24.9, up to 29.9, above); the colour is the band's colour; the value is the BMI to two decimals, within 0.005 |
| HealthCalculations.ColorIdentifiesBand | src/utils/healthCalculations.js:11-14 | the four colours are distinct, so the colour determines the band |
| HealthCalculations.BandMonotone | src/utils/healthCalculations.js:11-14 | a higher BMI never gives a lower band |
| HealthCalculations.BandMonotoneInWeight | src/utils/healthCalculations.js:7-14 | at a fixed height, more weight never gives a lower band |
| HealthCalculations.BandAntitoneInHeight | src/utils/healthCalculations.js:7-14 | at a fixed non-negative weight, a greater positive height never gives a higher band |
| HealthCalculations.BaseMl | src/utils/healthCalculations.js:21-23 | 38 mL/kg exactly for "3-4", 42 exactly for "5+", 35 for every other value |
| HealthCalculations.CalcularAgua | src/utils/healthCalculations.js:20-25 | the target is weight times the rate over 1000, to one decimal within 0.05, and non-negative for a non-negative weight |
| HealthCalculations.LitrosBrutosMonotone | src/utils/healthCalculations.js:21-24 | the unrounded target grows with the weight and with the rate |
| HealthCalculations.AguaMonotone | src/utils/healthCalculations.js:20-25 | the rounded target never decreases when the weight or the per-kilogram rate grows |
| HealthCalculations.AguaExactOnGrid | src/utils/healthCalculations.js:24 | when weight times rate over 1000 already has one decimal, the target is exactly that value |
| HealthCalculations.AguaSamples | src/utils/healthCalculations.js:20-25 | 70 kg gives 2.5 L for "0" and "1-2", 2.7 L for "3-4" and 2.9 L for "5+" |
| HealthCalculations.FatorAtividade | src/utils/healthCalculations.js:36-42 | the factor lies in [1.2, 1.9]; physical work gives at least 1.4; it is exactly 1.2 iff the work is not physical and the frequency is none of "1-2", "3-4", "5+" |
| HealthCalculations.FrequencyBonusAmounts | src/utils/healthCalculations.js:38-42 | against no exercise, "1-2" adds exactly 0.15, "3-4" 0.30 and "5+" 0.50 to the factor, for any work type |
| HealthCalculations.PhysicalWorkBonus | src/utils/healthCalculations.js:37 | physical work adds exactly 0.2, whatever the frequency |
| HealthCalculations.UnknownFrequencyAddsNothing | src/utils/healthCalculations.js:38-42 | a frequency outside the three cases gives the same factor as "0" |
| HealthCalculations.MaleUsesMaleFormula | src/utils/healthCalculations.js:28-32 | "masculino" gets 88.36 + 13.4·weight + 480·height − 5.7·age (4.8 per centimetre) |
| HealthCalculations.NonMaleUsesFemaleFormula | src/utils/healthCalculations.js:28-33 | any gender other than "masculino" gets 447.6 + 9.2·weight + 310·height − 4.3·age |
| HealthCalculations.CalcularTDEE | src/utils/healthCalculations.js:27-45 | the result is BMR times factor truncated toward zero: within 1 below a non-negative product, within 1 above a negative one |
| HealthCalculations.GastoMonotoneInWeight | src/utils/healthCalculations.js:31-42 | before truncation, the expenditure never drops when the weight grows |
| HealthCalculations.GastoAntitoneInAge | src/utils/healthCalculations.js:31-42 | before truncation, the expenditure never grows with age |
| HealthCalculations.TdeeMonotoneInWeight | src/utils/healthCalculations.js:27-45 | the TDEE never drops when the weight grows, everything else fixed |
| HealthCalculations.TdeeAntitoneInAge | src/utils/healthCalculations.js:27-45 | the TDEE never grows with age, everything else fixed |
| HealthCalculations.TdeeSample | src/utils/healthCalculations.js:27-45 | 70 kg, 1.75 m, 30 years, male, office work, no exercise: BMR 1695.36 and TDEE 2034 |
| HealthCalculations.StatusAgua | src/utils/healthCalculations.js:57-60 | "drink more" iff the intake is a number below the target; the amount shown is the difference to one decimal, within 0.05 and non-negative |
| HealthCalculations.GerarPlanoDeAcao | src/utils/healthCalculations.js:50-112 | goal by the weight's distance to BMI-22 weight (above +2, below −2, else maintain); calories are tdee−500, tdee+350 or tdee, floored at 1200; the calorie message of each branch quotes the tdee and the unfloored target; three tips, the branch's own first two and the water message last; walk plus light lifting for "0"/"1-2" and cardio plus lifting otherwise when losing, heavy training plus rest when gaining, the favourite activity when maintaining; the ideal weight to one decimal |
| HealthCalculations.CaloriesMonotoneInTdee | src/utils/healthCalculations.js:62-102 | a higher TDEE never gives a lower calorie target |
| HealthCalculations.AdviceQuotesUnclampedTarget | src/utils/healthCalculations.js:62-102 | the calorie message matches the goal and quotes the TDEE; in the lose and gain branches its target differs from the plan's exactly when it is below 1200 |
| HealthCalculations.WaterOnTrackAtTarget | src/utils/healthCalculations.js:57-60 | an intake at or above the target gives the "on track" message |
| HealthCalculations.DrinkMoreCanShowZero | src/utils/healthCalculations.js:57-59 | a shortfall under 0.05 L still asks for more water, with the amount shown as 0.0 |
| HealthCalculations.GoalAgreesWithBmi | src/utils/healthCalculations.js:51-81 | for any nonzero height, losing fat is advised only above BMI 22 and gaining mass only below it |
| HealthCalculations.OverweightIsAdvisedToLose | src/utils/healthCalculations.js:7-63 | from 0.85 m up, an overweight or obese band always leads to the lose-fat goal |
| HealthCalculations.UnderweightIsAdvisedToGain | src/utils/healthCalculations.js:7-82 | from 0.76 m up, the underweight band always leads to the gain-mass goal |
| HealthCalculations.PlanSample | src/utils/healthCalculations.js:51-63 | the ideal weight at 1.75 m is 67.375 kg, and 75 kg gives the lose-fat goal |
| Home.ReplaceFirstComma | src/screens/Home.js:54-55 | `replace(',', '.')` keeps the length and changes only the first comma to a dot |
| Home.ParseIntake | src/screens/Home.js:57 | an empty water field counts as 0 L; otherwise the field is parsed as a decimal |
| Home.NormalizarAltura | src/screens/Home.js:60 | a height above 3 is read as centimetres and divided by 100; otherwise it is kept; the sign is preserved |
| Home.ZeroHeightAdmitted | src/screens/Home.js:59 | the source's test admits a height of 0, which stays 0 after normalisation; the corrected test rejects it |
| Home.NegativeHeightAdmitted | src/screens/Home.js:59-60 | the source's test admits a height of -1.75, which stays negative after normalisation and gives the healthy band for 70 kg; the corrected test rejects it |
| Home.UnparsedAgeAdmitted | src/screens/Home.js:56-59 | the source's test admits an age that is not a number; the corrected test rejects it |
| Home.NovoRegistro | src/screens/Home.js:60-84 | for any nonzero height, negative ones included, the record keeps the form's text fields, the parsed weight, the normalised height and the intake; its calories are the TDEE; all its results come from the calculators |
| Home.WellFormedRecordShows | src/screens/Home.js:62-84 | a stored record shows its band's colour, at least 1200 kcal and three tips, and its goal agrees with its BMI |
| Home.AdmittedSubmissionIsWellFormed | src/screens/Home.js:54-84 | a submission the corrected test admits gives a record with positive weight and height, at least 1200 kcal and a matching colour |
| Home.HomeScreen.constructor | src/screens/Home.js:25-37 | the form starts empty, male, office work, no exercise, and with no records |
| Home.HomeScreen.HandleCalcular | src/screens/Home.js:48-89 | empty name, age, weight or height raises the alert and changes nothing; a rejected submission changes nothing; otherwise the new record goes first in the list, name, weight and water are cleared, and every record stays consistent with the calculators |

## Left out

- `obterDataFormatada` (src/utils/healthCalculations.js:47) and the record's `id` and `data` fields read the clock and the locale, so they are not modelled.
- Numbers are exact reals, not IEEE-754 doubles.
  - `toFixed` is rounding half away from zero on the exact value. On binary doubles, a tie such as 1.005 can round the other way.
  - Infinity is not modelled.
  - `toFixed`'s exponent notation for very large values is not modelled.
- Numeric.Truncate: `parseInt(x)` parses `String(x)`, which is exponent notation for 0 < |x| < 1e-6 and |x| ≥ 1e21. There `parseInt(5e-7)` is 5 and `parseInt(2e21)` is 2, while the model truncates toward zero for every value.
- `toFixed` returns a string in the source; the model keeps its numeric value. A record's `imc`, `aguaMeta` and `pesoIdeal` are numbers here, so `parseFloat(aguaMeta)` at src/utils/healthCalculations.js:57 is the identity.
- The Portuguese texts of diagnoses, tips and calorie messages are tags. An exercise's `tempo` and `gasto` texts are not modelled. The calorie message keeps the numbers it quotes.
- `Alert.alert`, `Keyboard.dismiss` and the rendering are not modelled. The alert is the `Incomplete` outcome.
- Other screen state is not modelled: the theme (`escuro`), the details modal, and the record selected for it.
- `parseFloat` and `parseInt` are parameters of `HandleCalcular`: the model assumes nothing about how they read a string.
- Home.HomeScreen.HandleCalcular: it uses the corrected test `Home.Admits`, which also rejects a non-positive height and an age that is not a number. What the source's own test (`Home.AdmitsAsWritten`) lets through is stated in the Findings.
- Home.NovoRegistro: it requires a nonzero height, so the record the source stores for a height of 0 (BMI Infinity, band "Obesidade") is not modelled; numbers here have no Infinity.
- Home.HomeScreen.HandleCalcular: it builds the record through `Home.NovoRegistro`, which runs the four calculators in the source's order. So the calls at src/screens/Home.js:62-65 are not separate statements of the method.

## Findings

| source | as written | input that shows it | evidently intended | confidence | as-written member | corrected member |
|---|---|---|---|---|---|---|
| src/screens/Home.js:59 | the test rejects only a non-numeric weight or height and a non-positive weight; a height of 0 or below passes | weight "70", height "0": `calcularIMC` divides by zero, BMI is Infinity and the band is "Obesidade"; weight "70", height "-1.75": BMI about 22.86, "Peso Saudável", and a record is stored for a negative height | a height must be positive before the calculators run | high (not executed) | Home.AdmitsAsWritten, Home.ZeroHeightAdmitted, Home.NegativeHeightAdmitted | Home.Admits, Home.AdmittedSubmissionIsWellFormed |
| src/screens/Home.js:56-59 | the age is parsed but never checked; an age that is not a number passes | age "-" or ".": `parseInt` gives NaN, the TDEE is NaN, and the 1200 kcal floor at src/utils/healthCalculations.js:102 does not apply because `NaN < 1200` is false | an age that is not a number is rejected like a bad weight | high (not executed) | Home.AdmitsAsWritten, Home.UnparsedAgeAdmitted | Home.Admits, Home.AdmittedSubmissionIsWellFormed |

# BMI calculator (Calculadora de IMC) — a Dafny model

This project models the `App` component of a small React BMI calculator.
The component keeps one session of state: the three input texts (`nome`,
`altura`, `peso`), the displayed result (`imc`, `classificacao`, `emoji`,
`diferenca`), a history of the last five calculations (`historico`), an
alert line (`alerta`) and the per-field error flags (`erros`). Two commands
change it:

- **Calcular** (`calcularIMC`, helped by `validarEntrada`) runs a fixed
  pipeline and stops at the first failure. It checks that no field is
  empty, then that both numbers parse to positive values. It corrects the
  height's unit (above 999 divide by 1000, else above 10 divide by 100,
  then, if still above 3, divide by 100). It checks the height range
  [1.2, 2.3] before the weight range [20, 300]. On success it computes
  BMI = weight / height², picks one of six bands, says whether the weight
  is above or below the ideal weight 22·height², and pushes an entry onto
  the history, keeping five.
- **Limpar** (`limparCampos`) resets every input, result, alert and flag,
  and keeps the history.

Layout:

- `wrappers.dfy` — `Option` (`None` stands for `NaN` or `null`) and `Result`.
- `imc.dfy` — module `Imc`, the pure part. It holds the height corrections,
  the range validation, `Evaluate` (the whole decision of `calcularIMC` as
  one function), the bands, the ideal-weight delta and the history
  operations, with the lemmas about them.
- `app.dfy` — module `App`, class `Session`. Each state cell is a field
  and each setter call is a field assignment. The methods are imperative
  and are proved against the functions of `Imc`. `Session.Valid()` is the
  session invariant. The history has at most five entries, and each entry
  is in range and carries its own BMI and band. The result block is blank
  or shows a BMI between 20/2.3² and 300/1.2² with that BMI's band, emoji
  and a delta message.
  The body of `calcularIMC` is split across three methods to keep each
  proof small. `CalcularIMC` does the presence and numeric checks.
  `ProcessarMedidas` does the unit correction and calls `ValidarEntrada`.
  `MostrarResultado` does the success path.

Three behaviours of the code that a reader might not expect, all kept in
the model:

- The presence check is `!nome`, so only the empty string fails. The text
  is not trimmed, and a name of one space is accepted.
- A range failure raises its own flag and keeps the other flags
  (`prev => ({...prev, ...})`). It does not flag only the offending field.
  A height flag raised by one refused calculation therefore survives a
  later calculation refused for its weight, even when the height is now
  fine (`Imc.HeightFlagSurvivesWeightFailure`).
- The band is chosen from the unrounded BMI `resultado`, not its `toFixed(2)` value. The delta is computed from the height and weight directly, never from the BMI.

## Model

| member | source | states |
|---|---|---|
| App.Session.constructor | src/App.jsx:5-14 | Every state cell starts at its initial value: empty texts, no result, an empty history, no alert, no flags. The session invariant holds. |
| App.Session.ValidarEntrada | src/App.jsx:16-36 | Divides a height above 3 by 100, then checks height before weight. On a pass it returns the corrected height and clears the alert and all flags. On a failure it returns nothing, sets that failure's alert and raises only that flag, keeping the others. |
| App.Session.CalcularIMC | src/App.jsx:38-118 | Proved against `Evaluate`. On any failure, the alert and flags are set as that failure dictates, and the result block and history are unchanged. On success, the alert and flags are cleared, the result block shows the measurement's BMI, band, emoji and delta, and the new entry is pushed onto the history. Keeps the session invariant. |
| App.Session.ProcessarMedidas | src/App.jsx:60-117 | Applies the first unit correction, then behaves as `ValidateRanges` of the corrected height decides. A range failure leaves the result block and history unchanged. A pass shows the new result and pushes its entry. |
| App.Session.MostrarResultado | src/App.jsx:70-117 | For a height and weight in range, shows the unrounded BMI, its band label and emoji, and the delta. Pushes an entry holding exactly these values. Keeps the invariant. |
| App.Session.LimparCampos | src/App.jsx:120-130 | Texts, band, emoji and alert become empty. `imc` becomes `None`, the delta message is cleared and every flag is false. The history is unchanged. |
| Imc.Failure.Alert | src/App.jsx:20-56 | Each kind of failure has its own non-empty alert line, and an alert line identifies its kind: the missing-fields, numeric, height-range and weight-range texts. |
| Imc.FlagsAfter | src/App.jsx:21-57 | A missing-fields failure replaces the flags with its record of empty fields. A numeric failure flags height and weight but not the name. A range failure raises its own flag and keeps the other two flags as they were before the call. |
| Imc.HeightFlagSurvivesWeightFailure | src/App.jsx:21-31 | A height failure followed by a weight failure leaves both flags raised. |
| Imc.NormalizeHeight | src/App.jsx:60-65 | The two height corrections, `CorrectUnits` (60-65) then `CorrectResidual` (17-19), only scale a positive height down and keep it positive. |
| Imc.NormalizeHeightExamples | src/App.jsx:60-65 | 175 gives 1.75, 1780 gives 1.78, 1.75 is unchanged, 80 gives 0.8 and 3.5 gives 0.035. |
| Imc.AcceptedHeights | src/App.jsx:17-21 | A raw height passes the corrections and the range check if and only if it lies in [1.2, 2.3], [120, 230], [1200, 2300] or [120000, 230000]. |
| Imc.ValidateRanges | src/App.jsx:16-35 | Accepts only when both values are in range, returning the corrected height. Fails with HeightOutOfRange if and only if the corrected height is out of range, whatever the weight. Otherwise it fails with WeightOutOfRange if and only if the weight is out of range. |
| Imc.Evaluate | src/App.jsx:38-68 | Fails with MissingFields if and only if some text is empty, flagging exactly the empty ones. Fails with NonNumeric if and only if all texts are present and a parsed value is NaN or not positive. Fails with HeightOutOfRange if and only if the texts are present, both values positive and the normalised height out of range. Fails with WeightOutOfRange if and only if, in addition, that height is in range and the weight is not. Accepts if and only if the texts are present, both values positive and both ranges hold. An accepted measurement is the normalised parsed height and the parsed weight. |
| Imc.InRangeInputsAccepted | src/App.jsx:51-68 | Non-empty texts whose parsed height is in [1.2, 2.3] and weight in [20, 300] are accepted unchanged. |
| Imc.EvaluateExamples | src/App.jsx:39-68 | Concrete inputs reach each failure (empty height, NaN height, height 80, weight 400), and 175 cm with 70 kg is accepted as 1.75 m. |
| Imc.BmiBounds | src/App.jsx:70 | `Bmi`, weight over height squared, for validated inputs lies between 20/2.3² and 300/1.2². |
| Imc.Classify | src/App.jsx:77-95 | The chosen band's interval contains the BMI. The bands are half-open, with lower bounds 18.5, 25, 30, 35 and 40. |
| Imc.BandsDisjoint | src/App.jsx:77-95 | No BMI lies in two bands. With `Classify`, exactly one band covers each value. |
| Imc.ClassifyMonotone | src/App.jsx:77-95 | A larger BMI never gets a lower band. |
| Imc.ThresholdsBelongAbove | src/App.jsx:77-92 | Each boundary value 18.5, 25, 30, 35, 40 falls in the band above it, and everything below it falls in a lower band. |
| Imc.DeltaFor | src/App.jsx:100-105 | With `IdealWeight` = 22·height² (line 100), the message says "acima" if and only if weight − `IdealWeight` > 0. Otherwise it says "abaixo", including at exactly 0. The amount is never negative, and with its polarity it gives back the signed difference. |
| Imc.Shown | src/App.jsx:70-107 | The shown BMI times the height squared gives back the weight. The label and emoji are those of that BMI's band, and the delta message is the one for this weight and height. |
| Imc.ShownCoherent | src/App.jsx:70-107 | A result block shown for a validated measurement is coherent: the BMI is between 20/2.3² and 300/1.2², the label and emoji are those of its band, and a delta message with a non-negative amount is present. |
| Imc.AnaExample | src/App.jsx:70-105 | Ana, 1.70 m and 70 kg is accepted, classified "Peso normal", and 6.42 kg above the ideal weight. |
| Imc.PushHistory | src/App.jsx:117 | Prepending then keeping five gives min(n + 1, 5) entries from a history of n. The head is the new entry and the tail is a prefix of the previous history. |
| Imc.PushKeepsRecorded | src/App.jsx:109-117 | Pushing an entry from a successful calculation keeps every history entry one from a successful calculation. |
| Imc.HistoryKeepsNewest | src/App.jsx:117 | After any run of successful calculations, the history is the new entries newest first, followed by the old history, cut to five. |
| Imc.LastFiveRemain | src/App.jsx:117 | After five or more successful calculations the history holds exactly the last five, newest first. With six, the first is gone. |

## Left out

- Parsing (src/App.jsx:51-52): `parseFloat` and the single `replace(',', '.')` are not modelled. `CalcularIMC` receives the already-parsed height and weight as `Option<real>`, with `None` for `NaN`. The model does not relate them to the texts.
- App.Session.CalcularIMC: `imc` and each history entry's `imc` hold the unrounded BMI, not the `toFixed(2)` string the source stores, because decimal string formatting is not modelled. In the source the shown `toFixed(2)` value can disagree with its band: 72.249 kg at 1.70 m gives a BMI just under 25, shown as "25.00" yet classified "Peso normal". The model's entries, which keep the exact BMI, never show this.
- App.Session.MostrarResultado: the delta message is kept as `Above(kg)` / `Below(kg)` with the exact amount, not the "Você está … kg acima/abaixo do peso ideal." text with `toFixed(1)`, for the same reason.
- Floating point: numbers are exact reals. There is no rounding error, no `Infinity` and no `-0`. The input filter, which removes `e`, and the `maxLength` limits of 5 and 6 make `Infinity` unreachable in the source anyway.
- Input widgets (src/App.jsx:136-158): the `onChange` handlers, the character filter `/[^0-9.,]/g` and the `maxLength` limits of 5 and 6 are presentation. The text fields are plain fields that a caller may set.
- Rendering (src/App.jsx:132-193) and the CSS import: JSX output, list keys and conditional display are presentation only.
- React state machinery: `useState` and the batching of setter calls are not modelled. Each setter is a direct field assignment within one method call. Functional updates read the value from before the call, which is what the source's event handler sees.

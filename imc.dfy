/**
 * The pure part of the BMI calculator of src/App.jsx: height unit correction,
 * range validation, the whole validation pipeline as one function, the six
 * classification bands, the ideal-weight delta and the five-entry history.
 * Numbers are reals; the source's floating-point rounding is not modelled.
 */
module Imc {
  import opened Wrappers

  // ---------------------------------------------------------------------
  // Field flags and alerts
  // ---------------------------------------------------------------------

  /** Which input fields are highlighted as erroneous (the `erros` record). */
  datatype Flags = Flags(nome: bool, altura: bool, peso: bool) {
    predicate Any() { nome || altura || peso }
  }

  const NoErrors: Flags := Flags(false, false, false)

  const AlertaCampos: string := "⚠️ Preencha todos os campos corretamente!"
  const AlertaNumeros: string := "⚠️ Insira apenas valores numéricos válidos!"
  const AlertaAltura: string := "⚠️ Altura fora do intervalo realista (1.2m a 2.3m)"
  const AlertaPeso: string := "⚠️ Peso fora do intervalo realista (20kg a 300kg)"

  /** The four ways a calculation can be refused, in the order they are checked. */
  datatype Failure =
    | MissingFields(empty: Flags)
    | NonNumeric
    | HeightOutOfRange
    | WeightOutOfRange
  {
    /** The alert line shown for this failure; no two kinds of failure share one. */
    function Alert(): (r: string)
      ensures |r| > 0
      ensures this.MissingFields? <==> r == AlertaCampos
      ensures this.NonNumeric? <==> r == AlertaNumeros
      ensures this.HeightOutOfRange? <==> r == AlertaAltura
      ensures this.WeightOutOfRange? <==> r == AlertaPeso
    {
      match this
      case MissingFields(_) => AlertaCampos
      case NonNumeric => AlertaNumeros
      case HeightOutOfRange => AlertaAltura
      case WeightOutOfRange => AlertaPeso
    }
  }

  /**
   * The flags after a refused calculation, given the flags before it.
   * The first two failures replace the record; the two range failures
   * only raise their own flag and keep the others as they were.
   */
  function FlagsAfter(prev: Flags, f: Failure): (r: Flags)
    ensures f.MissingFields? ==> r == f.empty
    ensures f.NonNumeric? ==> !r.nome && r.altura && r.peso
    ensures f.HeightOutOfRange? ==> r.altura && r.nome == prev.nome && r.peso == prev.peso
    ensures f.WeightOutOfRange? ==> r.peso && r.nome == prev.nome && r.altura == prev.altura
  {
    match f
    case MissingFields(empty) => empty
    case NonNumeric => Flags(false, true, true)
    case HeightOutOfRange => prev.(altura := true)
    case WeightOutOfRange => prev.(peso := true)
  }

  /**
   * A height flag raised by one refused calculation survives a following
   * calculation refused for its weight, even when the height is now fine.
   */
  lemma HeightFlagSurvivesWeightFailure(prev: Flags)
    ensures FlagsAfter(FlagsAfter(prev, HeightOutOfRange), WeightOutOfRange) == Flags(prev.nome, true, true)
  {
  }

  // ---------------------------------------------------------------------
  // Height normalisation and range validation
  // ---------------------------------------------------------------------

  /** First correction: above 999 the height is read as millimetres, else above 10 as centimetres. */
  function CorrectUnits(h: real): real {
    if h > 999.0 then h / 1000.0 else if h > 10.0 then h / 100.0 else h
  }

  /** Second correction, done during validation: a height still above 3 is divided by 100. */
  function CorrectResidual(h: real): real {
    if h > 3.0 then h / 100.0 else h
  }

  /** Both corrections in order; they only ever scale a positive height down. */
  function NormalizeHeight(h: real): (r: real)
    ensures 0.0 < h ==> 0.0 < r <= h
  {
    CorrectResidual(CorrectUnits(h))
  }

  lemma NormalizeHeightExamples()
    ensures NormalizeHeight(175.0) == 1.75
    ensures NormalizeHeight(1780.0) == 1.78
    ensures NormalizeHeight(1.75) == 1.75
    ensures NormalizeHeight(80.0) == 0.8
    ensures NormalizeHeight(3.5) == 0.035
  {
  }

  predicate InHeightRange(h: real) { 1.2 <= h <= 2.3 }

  predicate InWeightRange(w: real) { 20.0 <= w <= 300.0 }

  /**
   * The raw heights that survive normalisation and the range check: metres,
   * centimetres, millimetres, and (through both divisions) hundredths of a
   * millimetre. That last interval needs six digits, which the height
   * field's five-character limit never lets through; it is reachable only
   * when the text is set directly.
   */
  lemma AcceptedHeights(h: real)
    ensures InHeightRange(NormalizeHeight(h)) <==>
      || 1.2 <= h <= 2.3
      || 120.0 <= h <= 230.0
      || 1200.0 <= h <= 2300.0
      || 120000.0 <= h <= 230000.0
  {
  }

  /**
   * The range validation of `validarEntrada`, on a unit-corrected height:
   * the height is checked first, the weight only when the height passed.
   */
  function ValidateRanges(alturaNum: real, pesoNum: real): (r: Result<real, Failure>)
    ensures r.Ok? ==> r.value == CorrectResidual(alturaNum) && InHeightRange(r.value) && InWeightRange(pesoNum)
    ensures r == Err(HeightOutOfRange) <==> !InHeightRange(CorrectResidual(alturaNum))
    ensures r == Err(WeightOutOfRange) <==> InHeightRange(CorrectResidual(alturaNum)) && !InWeightRange(pesoNum)
    ensures r.Err? ==> r.error == HeightOutOfRange || r.error == WeightOutOfRange
  {
    var h := CorrectResidual(alturaNum);
    if h < 1.2 || h > 2.3 then Err(HeightOutOfRange)
    else if pesoNum < 20.0 || pesoNum > 300.0 then Err(WeightOutOfRange)
    else Ok(h)
  }

  // ---------------------------------------------------------------------
  // The validation pipeline
  // ---------------------------------------------------------------------

  /** A validated height in metres and weight in kilograms. */
  datatype Measurement = Measurement(altura: real, peso: real)

  /** A parsed number that is not NaN and is above zero. */
  predicate Positive(x: Option<real>) { x.Some? && x.value > 0.0 }

  /**
   * What `calcularIMC` decides from the three texts and their parsed values
   * (`None` for NaN): the first failing check, or the measurement to use.
   */
  function Evaluate(nome: string, altura: string, peso: string, alturaNum: Option<real>, pesoNum: Option<real>)
    : (r: Result<Measurement, Failure>)
    ensures (r.Err? && r.error.MissingFields?) <==> (nome == "" || altura == "" || peso == "")
    ensures r.Err? && r.error.MissingFields? ==> r.error.empty == Flags(nome == "", altura == "", peso == "")
    ensures r == Err(NonNumeric) <==>
      nome != "" && altura != "" && peso != "" && !(Positive(alturaNum) && Positive(pesoNum))
    ensures r.Ok? ==> InHeightRange(r.value.altura) && InWeightRange(r.value.peso)
    ensures r.Ok? ==> Positive(alturaNum) && r.value.altura == NormalizeHeight(alturaNum.value)
    ensures r.Ok? ==> pesoNum == Some(r.value.peso)
    ensures r == Err(HeightOutOfRange) <==>
      && nome != "" && altura != "" && peso != "" && Positive(alturaNum) && Positive(pesoNum)
      && !InHeightRange(NormalizeHeight(alturaNum.value))
    ensures r == Err(WeightOutOfRange) <==>
      && nome != "" && altura != "" && peso != "" && Positive(alturaNum) && Positive(pesoNum)
      && InHeightRange(NormalizeHeight(alturaNum.value)) && !InWeightRange(pesoNum.value)
    ensures r.Ok? <==>
      && nome != "" && altura != "" && peso != "" && Positive(alturaNum) && Positive(pesoNum)
      && InHeightRange(NormalizeHeight(alturaNum.value)) && InWeightRange(pesoNum.value)
  {
    var empty := Flags(nome == "", altura == "", peso == "");
    if empty.Any() then Err(MissingFields(empty))
    else if !Positive(alturaNum) || !Positive(pesoNum) then Err(NonNumeric)
    else
      match ValidateRanges(CorrectUnits(alturaNum.value), pesoNum.value)
      case Err(f) => Err(f)
      case Ok(h) => Ok(Measurement(h, pesoNum.value))
  }

  /** Heights already in metres and weights already in range are accepted unchanged. */
  lemma InRangeInputsAccepted(nome: string, altura: string, peso: string, h: real, w: real)
    requires nome != "" && altura != "" && peso != ""
    requires InHeightRange(h) && InWeightRange(w)
    ensures Evaluate(nome, altura, peso, Some(h), Some(w)) == Ok(Measurement(h, w))
  {
  }

  lemma EvaluateExamples()
    ensures Evaluate("Ana", "", "70", Some(1.7), Some(70.0)) == Err(MissingFields(Flags(false, true, false)))
    ensures Evaluate("Ana", "abc", "70", None, Some(70.0)) == Err(NonNumeric)
    ensures Evaluate("Ana", "80", "70", Some(80.0), Some(70.0)) == Err(HeightOutOfRange)
    ensures Evaluate("Ana", "1.75", "400", Some(1.75), Some(400.0)) == Err(WeightOutOfRange)
    ensures Evaluate("Ana", "175", "70", Some(175.0), Some(70.0)) == Ok(Measurement(1.75, 70.0))
  {
  }

  // ---------------------------------------------------------------------
  // BMI and classification
  // ---------------------------------------------------------------------

  function Bmi(peso: real, altura: real): real
    requires altura > 0.0
  {
    peso / (altura * altura)
  }

  const MinBmi: real := 20.0 / 5.29
  const MaxBmi: real := 300.0 / 1.44

  lemma ScaleMonotone(a: real, b: real, c: real)
    requires a <= b && 0.0 <= c
    ensures a * c <= b * c
  {
  }

  lemma DivideMonotone(a: real, b: real, q: real)
    requires a <= b && 0.0 < q
    ensures a / q <= b / q
  {
  }

  lemma DivideAntitone(a: real, q: real, r: real)
    requires 0.0 <= a && 0.0 < q <= r
    ensures a / r <= a / q
  {
  }

  /** A BMI computed from a validated measurement lies between 20/2.3² and 300/1.2². */
  lemma BmiBounds(peso: real, altura: real)
    requires InHeightRange(altura) && InWeightRange(peso)
    ensures MinBmi <= Bmi(peso, altura) <= MaxBmi
  {
    var q := altura * altura;
    ScaleMonotone(1.2, altura, altura);
    ScaleMonotone(altura, 2.3, altura);
    assert 1.44 <= q <= 5.29;
    DivideMonotone(peso, 300.0, q);
    DivideAntitone(300.0, 1.44, q);
    DivideMonotone(20.0, peso, q);
    DivideAntitone(20.0, q, 5.29);
  }

  /** The six bands, in ascending order of BMI. */
  datatype Band =
    | AbaixoDoPeso
    | PesoNormal
    | Sobrepeso
    | ObesidadeGrauI
    | ObesidadeGrauII
    | ObesidadeGrauIII
  {
    /** Position of the band in the ascending order. */
    function Rank(): (r: nat)
      ensures r <= |Thresholds|
    {
      match this
      case AbaixoDoPeso => 0
      case PesoNormal => 1
      case Sobrepeso => 2
      case ObesidadeGrauI => 3
      case ObesidadeGrauII => 4
      case ObesidadeGrauIII => 5
    }

    function Label(): string {
      match this
      case AbaixoDoPeso => "Abaixo do peso"
      case PesoNormal => "Peso normal"
      case Sobrepeso => "Sobrepeso"
      case ObesidadeGrauI => "Obesidade grau I"
      case ObesidadeGrauII => "Obesidade grau II"
      case ObesidadeGrauIII => "Obesidade grau III"
    }

    function Emoji(): string {
      match this
      case AbaixoDoPeso => "🥦"
      case PesoNormal => "😎"
      case Sobrepeso => "😅"
      case ObesidadeGrauI => "😬"
      case ObesidadeGrauII => "😭⚖️"
      case ObesidadeGrauIII => "💀⚖️"
    }
  }

  /** The lower bounds of the five upper bands. */
  const Thresholds: seq<real> := [18.5, 25.0, 30.0, 35.0, 40.0]

  /** Band `b` covers the half-open interval from its lower threshold up to the next one. */
  predicate InBand(x: real, b: Band) {
    && (b.Rank() == 0 || Thresholds[b.Rank() - 1] <= x)
    && (b.Rank() == |Thresholds| || x < Thresholds[b.Rank()])
  }

  /** The first band whose upper threshold lies above the (unrounded) BMI. */
  function Classify(bmi: real): (b: Band)
    ensures InBand(bmi, b)
  {
    if bmi < 18.5 then AbaixoDoPeso
    else if bmi < 25.0 then PesoNormal
    else if bmi < 30.0 then Sobrepeso
    else if bmi < 35.0 then ObesidadeGrauI
    else if bmi < 40.0 then ObesidadeGrauII
    else ObesidadeGrauIII
  }

  /** No BMI value lies in two bands, so with `Classify` the bands partition the reals. */
  lemma BandsDisjoint(x: real, b: Band, c: Band)
    requires InBand(x, b) && InBand(x, c)
    ensures b == c
  {
  }

  /** A larger BMI never falls into a lower band. */
  lemma ClassifyMonotone(x: real, y: real)
    requires x <= y
    ensures Classify(x).Rank() <= Classify(y).Rank()
  {
  }

  /** Each threshold itself belongs to the band above it. */
  lemma ThresholdsBelongAbove(i: nat)
    requires i < |Thresholds|
    ensures Classify(Thresholds[i]).Rank() == i + 1
    ensures forall x :: x < Thresholds[i] ==> Classify(x).Rank() <= i
  {
  }

  // ---------------------------------------------------------------------
  // Ideal-weight delta
  // ---------------------------------------------------------------------

  /** The reference weight 22·h². */
  function IdealWeight(altura: real): real {
    22.0 * (altura * altura)
  }

  /** The delta message: above the ideal weight, or below it by a non-negative amount. */
  datatype Delta = NoDelta | Above(kg: real) | Below(kg: real)

  /** The signed difference a message reports. */
  function Signed(d: Delta): real {
    match d
    case NoDelta => 0.0
    case Above(k) => k
    case Below(k) => -k
  }

  /**
   * The message says "acima" exactly when the weight exceeds the ideal
   * weight; a zero difference reads as "abaixo" by 0.
   */
  function DeltaFor(peso: real, altura: real): (d: Delta)
    ensures d.Above? <==> peso - IdealWeight(altura) > 0.0
    ensures d.Above? || d.Below?
    ensures d.kg >= 0.0 && Signed(d) == peso - IdealWeight(altura)
  {
    var diferenca := peso - IdealWeight(altura);
    if diferenca > 0.0 then Above(diferenca)
    else Below(if diferenca < 0.0 then -diferenca else diferenca)
  }

  /** The result block on screen: the BMI, its band label and emoji, and the delta message. */
  datatype Display = Display(imc: Option<real>, classificacao: string, emoji: string, diferenca: Delta)

  /** The result block before any calculation and after "Limpar". */
  const Blank: Display := Display(None, "", "", NoDelta)

  /** The result block a successful calculation shows for its measurement. */
  function Shown(m: Measurement): (r: Display)
    requires m.altura > 0.0
    ensures r.imc.Some? && r.imc.value * (m.altura * m.altura) == m.peso
    ensures r.classificacao == Classify(r.imc.value).Label() && r.emoji == Classify(r.imc.value).Emoji()
    ensures r.diferenca == DeltaFor(m.peso, m.altura)
  {
    var resultado := Bmi(m.peso, m.altura);
    Display(Some(resultado), Classify(resultado).Label(), Classify(resultado).Emoji(), DeltaFor(m.peso, m.altura))
  }

  /**
   * What any displayed result block satisfies: either blank, or a BMI in
   * the reachable range shown with its own band, emoji and a delta message.
   */
  predicate Coherent(d: Display) {
    && (d.imc.None? ==> d == Blank)
    && (d.imc.Some? ==>
          && MinBmi <= d.imc.value <= MaxBmi
          && d.classificacao == Classify(d.imc.value).Label()
          && d.emoji == Classify(d.imc.value).Emoji()
          && d.diferenca != NoDelta
          && d.diferenca.kg >= 0.0)
  }

  /** Every result block a successful calculation shows is coherent. */
  lemma ShownCoherent(m: Measurement)
    requires InHeightRange(m.altura) && InWeightRange(m.peso)
    ensures Coherent(Shown(m))
  {
    BmiBounds(m.peso, m.altura);
  }

  /** The worked example: 70 kg at 1.70 m is normal weight and 6.42 kg above ideal. */
  lemma AnaExample()
    ensures Evaluate("Ana", "1.70", "70", Some(1.7), Some(70.0)) == Ok(Measurement(1.7, 70.0))
    ensures Classify(Bmi(70.0, 1.7)) == PesoNormal
    ensures DeltaFor(70.0, 1.7) == Above(6.42)
  {
  }

  // ---------------------------------------------------------------------
  // History
  // ---------------------------------------------------------------------

  /** One line of the history list. */
  datatype Entry = Entry(nome: string, altura: real, peso: real, imc: real, classificacao: string) {
    /** The entry was produced by a successful calculation. */
    predicate Recorded() {
      && InHeightRange(altura)
      && InWeightRange(peso)
      && imc == Bmi(peso, altura)
      && classificacao == Classify(imc).Label()
    }
  }

  const Capacity: nat := 5

  /** JavaScript's `s.slice(0, n)`: the first `n` elements, or all of a shorter sequence. */
  function Slice<T>(s: seq<T>, n: nat): seq<T> {
    if |s| <= n then s else s[..n]
  }

  /** `[novaEntrada, ...prev].slice(0, 5)`. */
  function PushHistory(prev: seq<Entry>, e: Entry): (h: seq<Entry>)
    ensures |h| == if |prev| < Capacity then |prev| + 1 else Capacity
    ensures h[0] == e
    ensures h[1..] == prev[..|h| - 1]
  {
    Slice([e] + prev, Capacity)
  }

  /** Every entry of a history is one a successful calculation produced. */
  predicate AllRecorded(h: seq<Entry>) {
    forall i :: 0 <= i < |h| ==> h[i].Recorded()
  }

  lemma PushKeepsRecorded(prev: seq<Entry>, e: Entry)
    requires AllRecorded(prev) && e.Recorded()
    ensures AllRecorded(PushHistory(prev, e))
  {
    var h := PushHistory(prev, e);
    forall i | 0 <= i < |h|
      ensures h[i].Recorded()
    {
      if i > 0 {
        assert h[i] == h[1..][i - 1] == prev[i - 1];
      }
    }
  }

  /** The history after pushing `es[0]`, then `es[1]`, and so on. */
  function HistoryAfter(h: seq<Entry>, es: seq<Entry>): seq<Entry>
    decreases |es|
  {
    if es == [] then h else PushHistory(HistoryAfter(h, es[..|es| - 1]), es[|es| - 1])
  }

  function Reversed<T>(s: seq<T>): (r: seq<T>)
    ensures |r| == |s|
    ensures forall i :: 0 <= i < |s| ==> r[i] == s[|s| - 1 - i]
  {
    if s == [] then [] else [s[|s| - 1]] + Reversed(s[..|s| - 1])
  }

  lemma SliceOfPush(e: Entry, s: seq<Entry>)
    ensures Slice([e] + Slice(s, Capacity), Capacity) == Slice([e] + s, Capacity)
  {
    if |s| > Capacity {
      assert ([e] + s[..Capacity])[..Capacity] == ([e] + s)[..Capacity];
    }
  }

  /** Successive pushes keep the newest entries first, cut to five. */
  lemma {:induction false} HistoryKeepsNewest(h: seq<Entry>, es: seq<Entry>)
    requires |h| <= Capacity
    ensures HistoryAfter(h, es) == Slice(Reversed(es) + h, Capacity)
    decreases |es|
  {
    if es == [] {
      assert Reversed(es) + h == h;
    } else {
      var init, last := es[..|es| - 1], es[|es| - 1];
      HistoryKeepsNewest(h, init);
      SliceOfPush(last, Reversed(init) + h);
      assert [last] + (Reversed(init) + h) == Reversed(es) + h;
    }
  }

  /**
   * After five or more successful calculations the history holds exactly
   * the last five, newest first; anything older, including the prior history, is gone.
   */
  lemma LastFiveRemain(h: seq<Entry>, es: seq<Entry>)
    requires |h| <= Capacity && |es| >= Capacity
    ensures HistoryAfter(h, es) == Reversed(es[|es| - Capacity..])
  {
    HistoryKeepsNewest(h, es);
    var r := Reversed(es) + h;
    assert Slice(r, Capacity) == Reversed(es)[..Capacity];
  }
}

/**
 * The session state of the `App` component of src/App.jsx and its two
 * commands, "Calcular" (`calcularIMC`, with its helper `validarEntrada`)
 * and "Limpar" (`limparCampos`). Each state cell is a field; each setter
 * call is a field assignment.
 */
module App {
  import opened Wrappers
  import opened Imc

  class Session {
    // The three input texts.
    var nome: string
    var altura: string
    var peso: string
    // The displayed result; `imc` is `None` while no result is shown.
    var imc: Option<real>
    var classificacao: string
    var diferenca: Delta
    var emoji: string
    // The last successful calculations, newest first.
    var historico: seq<Entry>
    // The alert line and the highlighted fields.
    var alerta: string
    var erros: Flags

    /**
     * The history holds at most five entries, each from a successful
     * calculation, and the result block is either blank or coherent with
     * the BMI it shows.
     */
    ghost predicate Valid()
      reads this`historico, this`imc, this`classificacao, this`emoji, this`diferenca
    {
      && |historico| <= Capacity
      && AllRecorded(historico)
      && Coherent(Screen())
    }

    /** The result block as displayed. */
    ghost function Screen(): Display
      reads this`imc, this`classificacao, this`emoji, this`diferenca
    {
      Display(imc, classificacao, emoji, diferenca)
    }

    /** The initial values of the state cells. */
    constructor ()
      ensures Valid()
      ensures nome == "" && altura == "" && peso == ""
      ensures imc == None && classificacao == "" && diferenca == NoDelta && emoji == ""
      ensures historico == [] && alerta == "" && erros == NoErrors
    {
      nome, altura, peso := "", "", "";
      imc, classificacao, diferenca, emoji := None, "", NoDelta, "";
      historico, alerta, erros := [], "", NoErrors;
    }

    /**
     * Applies the second height correction and checks the ranges, height
     * first. On success it clears the alert and every flag and returns the
     * corrected height; on failure it sets the alert and raises only the
     * offending flag.
     */
    method ValidarEntrada(alturaNum: real, pesoNum: real) returns (r: Option<real>)
      modifies this`alerta, this`erros
      ensures match ValidateRanges(alturaNum, pesoNum)
        case Ok(h) => r == Some(h) && alerta == "" && erros == NoErrors
        case Err(f) => r == None && alerta == f.Alert() && erros == FlagsAfter(old(erros), f)
    {
      var a := alturaNum;
      if a > 3.0 {
        a := a / 100.0;
      }
      if a < 1.2 || a > 2.3 {
        alerta := AlertaAltura;
        erros := erros.(altura := true);
        return None;
      }
      if pesoNum < 20.0 || pesoNum > 300.0 {
        alerta := AlertaPeso;
        erros := erros.(peso := true);
        return None;
      }
      alerta := "";
      erros := NoErrors;
      return Some(a);
    }

    /**
     * The "Calcular" command, given the parsed height and weight texts
     * (`None` for NaN). A refused calculation sets the alert and the flags
     * and leaves the result block and the history as they were; a
     * successful one clears the alert and flags, shows the new result and
     * pushes it onto the history.
     */
    method CalcularIMC(alturaNum: Option<real>, pesoNum: Option<real>)
      requires Valid()
      modifies this`imc, this`classificacao, this`diferenca, this`emoji, this`historico, this`alerta, this`erros
      ensures Valid()
      ensures match Evaluate(nome, altura, peso, alturaNum, pesoNum)
        case Err(f) =>
          && alerta == f.Alert()
          && erros == FlagsAfter(old(erros), f)
          && Screen() == old(Screen())
          && historico == old(historico)
        case Ok(m) =>
          && alerta == ""
          && erros == NoErrors
          && Screen() == Shown(m)
          && historico == PushHistory(old(historico), Entry(nome, m.altura, m.peso, Bmi(m.peso, m.altura), classificacao))
    {
      var camposInvalidos := NoErrors;
      if nome == "" {
        camposInvalidos := camposInvalidos.(nome := true);
      }
      if altura == "" {
        camposInvalidos := camposInvalidos.(altura := true);
      }
      if peso == "" {
        camposInvalidos := camposInvalidos.(peso := true);
      }
      if camposInvalidos.Any() {
        alerta := AlertaCampos;
        erros := camposInvalidos;
        return;
      }

      if alturaNum.None? || pesoNum.None? || alturaNum.value <= 0.0 || pesoNum.value <= 0.0 {
        alerta := AlertaNumeros;
        erros := Flags(false, true, true);
        return;
      }

      ProcessarMedidas(alturaNum.value, pesoNum.value);
    }

    /**
     * The rest of "Calcular" once both numbers are known to be positive:
     * the unit correction of the height, the range validation and, when it
     * passes, the new result.
     */
    method ProcessarMedidas(alturaNum: real, pesoNum: real)
      requires Valid()
      modifies this`imc, this`classificacao, this`diferenca, this`emoji, this`historico, this`alerta, this`erros
      ensures Valid()
      ensures match ValidateRanges(CorrectUnits(alturaNum), pesoNum)
        case Err(f) =>
          && alerta == f.Alert()
          && erros == FlagsAfter(old(erros), f)
          && Screen() == old(Screen())
          && historico == old(historico)
        case Ok(h) =>
          && alerta == ""
          && erros == NoErrors
          && Screen() == Shown(Measurement(h, pesoNum))
          && historico == PushHistory(old(historico), Entry(nome, h, pesoNum, Bmi(pesoNum, h), classificacao))
    {
      var a := alturaNum;
      if a > 999.0 {
        a := a / 1000.0;
      } else if a > 10.0 {
        a := a / 100.0;
      }

      var validada := ValidarEntrada(a, pesoNum);
      if validada.None? {
        return;
      }
      MostrarResultado(validada.value, pesoNum);
    }

    /**
     * The success path of "Calcular": computes the BMI from a validated
     * height and weight, shows its band, emoji and ideal-weight delta, and
     * pushes the new entry onto the history.
     */
    method MostrarResultado(a: real, p: real)
      requires Valid()
      requires InHeightRange(a) && InWeightRange(p)
      modifies this`imc, this`classificacao, this`diferenca, this`emoji, this`historico
      ensures Valid()
      ensures Screen() == Shown(Measurement(a, p))
      ensures historico == PushHistory(old(historico), Entry(nome, a, p, Bmi(p, a), classificacao))
    {
      var resultado := Bmi(p, a);
      imc := Some(resultado);
      var band := Classify(resultado);
      classificacao := band.Label();
      emoji := band.Emoji();
      diferenca := DeltaFor(p, a);
      ShownCoherent(Measurement(a, p));
      var novaEntrada := Entry(nome, a, p, resultado, classificacao);
      assert novaEntrada.Recorded();
      PushKeepsRecorded(historico, novaEntrada);
      historico := PushHistory(historico, novaEntrada);
    }

    /**
     * The "Limpar" command: every input, result, alert and flag goes back to
     * its initial value; the history is kept.
     */
    method LimparCampos()
      requires Valid()
      modifies this`nome, this`altura, this`peso, this`imc, this`classificacao, this`diferenca, this`emoji
      modifies this`alerta, this`erros
      ensures Valid()
      ensures nome == "" && altura == "" && peso == ""
      ensures imc == None && classificacao == "" && diferenca == NoDelta && emoji == ""
      ensures alerta == "" && erros == NoErrors
      ensures historico == old(historico)
    {
      nome := "";
      altura := "";
      peso := "";
      imc := None;
      classificacao := "";
      diferenca := NoDelta;
      emoji := "";
      alerta := "";
      erros := NoErrors;
    }
  }
}

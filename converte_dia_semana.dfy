/** Weekday codes of a shift (`Escala.diaSemana`) and their Portuguese display labels. */
module ConverteDiaSemana {

  /** The seven weekday codes the back end uses, Monday first. */
  const Codigos: seq<string> :=
    ["SEGUNDA_FEIRA", "TERCA_FEIRA", "QUARTA_FEIRA", "QUINTA_FEIRA", "SEXTA_FEIRA", "SABADO", "DOMINGO"]

  /** The label shown for each code, at the same index. */
  const Rotulos: seq<string> :=
    ["Segunda-feira", "Terça-feira", "Quarta-feira", "Quinta-feira", "Sexta-feira", "Sábado", "Domingo"]

  /** Shown for any value that is not one of the seven codes. */
  const DiaInvalido: string := "Dia inválido"

  /** `converterDiaSemana`: label of a weekday code; never fails. */
  function ConverterDiaSemana(diaSemana: string): (r: string)
    ensures r != ""
    ensures forall i :: 0 <= i < |Codigos| && diaSemana == Codigos[i] ==> r == Rotulos[i]
    ensures diaSemana !in Codigos ==> r == DiaInvalido
  {
    match diaSemana
    case "SEGUNDA_FEIRA" => "Segunda-feira"
    case "TERCA_FEIRA" => "Terça-feira"
    case "QUARTA_FEIRA" => "Quarta-feira"
    case "QUINTA_FEIRA" => "Quinta-feira"
    case "SEXTA_FEIRA" => "Sexta-feira"
    case "SABADO" => "Sábado"
    case "DOMINGO" => "Domingo"
    case _ => "Dia inválido"
  }

  /** The seven labels are pairwise distinct and none is the sentinel. */
  lemma RotulosDistintos()
    ensures |Rotulos| == |Codigos| == 7
    ensures forall i, j :: 0 <= i < j < |Rotulos| ==> Rotulos[i] != Rotulos[j]
    ensures DiaInvalido !in Rotulos
  {
    assert |Rotulos| == 7;
    forall i, j | 0 <= i < j < |Rotulos| ensures Rotulos[i] != Rotulos[j] {
      assert Rotulos[i][0] != Rotulos[j][0] || Rotulos[i][1] != Rotulos[j][1] || Rotulos[i][2] != Rotulos[j][2];
    }
  }

  /**
   * The sentinel comes out exactly for invalid codes, and two valid codes
   * never share a label: the label identifies the code.
   */
  lemma ConverterDiaSemanaInjetivo(a: string, b: string)
    ensures ConverterDiaSemana(a) == DiaInvalido <==> a !in Codigos
    ensures a in Codigos && b in Codigos && ConverterDiaSemana(a) == ConverterDiaSemana(b) ==> a == b
  {
    RotulosDistintos();
    if a in Codigos {
      var i :| 0 <= i < |Codigos| && Codigos[i] == a;
      assert ConverterDiaSemana(a) == Rotulos[i];
      if b in Codigos && ConverterDiaSemana(a) == ConverterDiaSemana(b) {
        var j :| 0 <= j < |Codigos| && Codigos[j] == b;
        assert ConverterDiaSemana(b) == Rotulos[j];
        assert i == j;
      }
    }
  }
}

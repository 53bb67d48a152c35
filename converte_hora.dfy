/** `converteHora`: display form of a stored time ("08:30:00" becomes "08h30"). */
module ConverteHora {
  import opened Text

  /** `'hm'` (the default) gives "HHhMM", `'colon'` gives "HH:MM". */
  datatype Formato = Hm | Colon

  function Separador(formato: Formato): string
  {
    if formato == Hm then "h" else ":"
  }

  function ConverteHora(hora: string, formato: Formato): (r: string)
  {
    if hora == "" then ""
    else
      var partes := Split(hora, ':');
      if |partes| < 2 then hora
      else PadStart2(partes[0]) + Separador(formato) + PadStart2(partes[1])
  }

  /** Empty input gives the empty string, and input without ':' comes back unchanged. */
  lemma ConverteHoraSemDoisPontos(hora: string, formato: Formato)
    requires ':' !in hora
    ensures ConverteHora(hora, formato) == hora
  {
    if hora != "" {
      SplitNoSep(hora, ':');
    }
  }

  /**
   * Hours and minutes are padded to two digits and anything after a second
   * ':' (the seconds) is dropped.
   */
  lemma {:induction false} ConverteHoraPartes(h: string, m: string, resto: string, formato: Formato)
    requires ':' !in h && ':' !in m
    requires resto == "" || resto[0] == ':'
    ensures ConverteHora(h + ":" + m + resto, formato) == PadStart2(h) + Separador(formato) + PadStart2(m)
  {
    var hora := h + ":" + m + resto;
    SplitAppend(h, ':', m + resto);
    assert hora == h + [':'] + (m + resto);
    if resto == "" {
      SplitNoSep(m, ':');
      assert m + resto == m;
    } else {
      SplitAppend(m, ':', resto[1..]);
      assert m + resto == m + [':'] + resto[1..];
    }
  }

  /** The 'colon' form is a fixed point: formatting its output again changes nothing. */
  lemma ConverteHoraColonIdempotente(hora: string)
    ensures ConverteHora(ConverteHora(hora, Colon), Colon) == ConverteHora(hora, Colon)
  {
    if hora != "" {
      var partes := Split(hora, ':');
      if |partes| >= 2 {
        var h, m := PadStart2(partes[0]), PadStart2(partes[1]);
        assert ':' !in h && ':' !in m;
        ConverteHoraPartes(h, m, "", Colon);
        assert h + ":" + m + "" == h + ":" + m;
      }
    }
  }
}

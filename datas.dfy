/**
 * Date strings exchanged with the back end (ISO 8601 calendar dates in
 * extended format, YYYY-MM-DD) and their Brazilian display form DD/MM/YYYY:
 * `converteDataParaISO`, `converteDataParaBR`, the string branches of
 * `formatarData`, `formatarDataNascimento`, `formatarDataCadastro` and
 * `formatarHora`, and `convertDateStringToDateTime`.
 */
module Datas {
  import opened Wrappers
  import opened Text
  import opened Calendario

  /** Element `i` of a destructured `split`, where a missing element (`undefined`) is falsy like "". */
  function Parte(partes: seq<string>, i: nat): string
  {
    if i < |partes| then partes[i] else ""
  }

  /** Element `i` of a destructured `split` as a template literal prints it: a missing one prints "undefined". */
  function ParteTexto(partes: seq<string>, i: nat): string
  {
    if i < |partes| then partes[i] else "undefined"
  }

  /** `x < limite` where `x` comes from `parseInt`: a comparison with NaN is false. */
  predicate Abaixo(x: Option<int>, limite: int) { x.Some? && x.value < limite }

  /** `x > limite` where `x` comes from `parseInt`. */
  predicate Acima(x: Option<int>, limite: int) { x.Some? && x.value > limite }

  /**
   * `converteDataParaISO`: DD/MM/YYYY to YYYY-MM-DD, or `None` (null) when
   * the input is empty, lacks one of its three parts, or has a day outside
   * 1..31, a month outside 1..12 or a year below 1900.
   */
  function ConverteDataParaISO(dataBR: string): Option<string>
  {
    if dataBR == "" then None
    else
      var partes := Split(dataBR, '/');
      var dia, mes, ano := Parte(partes, 0), Parte(partes, 1), Parte(partes, 2);
      if dia == "" || mes == "" || ano == "" then None
      else
        var diaNum, mesNum, anoNum := ParseInt(dia), ParseInt(mes), ParseInt(ano);
        if Abaixo(diaNum, 1) || Acima(diaNum, 31) || Abaixo(mesNum, 1) || Acima(mesNum, 12) || Abaixo(anoNum, 1900) then None
        else Some(ano + "-" + PadStart2(mes) + "-" + PadStart2(dia))
  }

  /** A date part written with digits only, at least one of them. */
  predicate Numeral(s: string) { s != [] && AllDigits(s) }

  /** A part written in digits is read by `Number` as their value. */
  lemma ParteNumeral(partes: seq<string>, i: nat)
    requires i < |partes| && Numeral(partes[i])
    ensures NumeroDaParte(partes, i) == Some(DigitsValue(partes[i]) as real)
  {
    ParseNumberDigits(partes[i]);
  }

  /** Three digit strings joined by '-' split back into themselves. */
  lemma {:induction false} PartesISO(ano: string, mes: string, dia: string)
    requires AllDigits(ano) && AllDigits(mes) && AllDigits(dia)
    ensures Split(ano + "-" + mes + "-" + dia, '-') == [ano, mes, dia]
  {
    DigitsNoSpace(ano); DigitsNoSpace(mes); DigitsNoSpace(dia);
    assert ano + "-" + mes + "-" + dia == ano + ['-'] + mes + ['-'] + dia;
    SplitTres(ano, mes, dia, '-');
  }

  lemma {:induction false} SplitTres(a: string, b: string, c: string, sep: char)
    requires sep !in a && sep !in b && sep !in c
    ensures Split(a + [sep] + b + [sep] + c, sep) == [a, b, c]
  {
    SplitAppend(a, sep, b + [sep] + c);
    assert a + [sep] + b + [sep] + c == a + [sep] + (b + [sep] + c);
    SplitAppend(b, sep, c);
    SplitNoSep(c, sep);
  }

  /** DD/MM/YYYY in range is converted; day and month are padded, the year is copied as written. */
  lemma {:induction false} ConverteDataParaISOAceita(dia: string, mes: string, ano: string)
    requires Numeral(dia) && Numeral(mes) && Numeral(ano)
    requires 1 <= DigitsValue(dia) <= 31 && 1 <= DigitsValue(mes) <= 12 && DigitsValue(ano) >= 1900
    ensures ConverteDataParaISO(dia + "/" + mes + "/" + ano) == Some(ano + "-" + PadStart2(mes) + "-" + PadStart2(dia))
  {
    DigitsNoSpace(dia); DigitsNoSpace(mes); DigitsNoSpace(ano);
    SplitTres(dia, mes, ano, '/');
    ParseIntDigits(dia); ParseIntDigits(mes); ParseIntDigits(ano);
  }

  /** A day, month or year out of range gives `None`. */
  lemma {:induction false} ConverteDataParaISORejeita(dia: string, mes: string, ano: string)
    requires Numeral(dia) && Numeral(mes) && Numeral(ano)
    requires !(1 <= DigitsValue(dia) <= 31 && 1 <= DigitsValue(mes) <= 12 && DigitsValue(ano) >= 1900)
    ensures ConverteDataParaISO(dia + "/" + mes + "/" + ano) == None
  {
    DigitsNoSpace(dia); DigitsNoSpace(mes); DigitsNoSpace(ano);
    SplitTres(dia, mes, ano, '/');
    ParseIntDigits(dia); ParseIntDigits(mes); ParseIntDigits(ano);
  }

  /** Fewer than three '/'-separated parts, or an empty one, gives `None`. */
  lemma {:induction false} ConverteDataParaISOIncompleta(dataBR: string)
    requires |Split(dataBR, '/')| < 3
    ensures ConverteDataParaISO(dataBR) == None
  {
  }

  lemma {:induction false} Ano2024()
    ensures AllDigits("2024") && DigitsValue("2024") == 2024
  {
    assert "2024"[..3] == "202" && "202"[..2] == "20" && "20"[..1] == "2";
    assert DigitsValue("20") == 20;
    assert DigitsValue("202") == 202;
  }

  /** Only the range 1..31 is checked, not the month's length: 31 February is passed on. */
  lemma {:induction false} ConverteDataParaISOExemploFevereiro(dia: string, mes: string, ano: string)
    requires dia == "31" && mes == "02" && ano == "2024"
    ensures ConverteDataParaISO(dia + "/" + mes + "/" + ano) == Some(ano + "-" + mes + "-" + dia)
  {
    Ano2024();
    DoisDigitos(dia);
    DoisDigitos(mes);
    ConverteDataParaISOAceita(dia, mes, ano);
  }

  lemma {:induction false} ConverteDataParaISOExemploDia32(dia: string, mes: string, ano: string)
    requires dia == "32" && mes == "01" && ano == "2024"
    ensures ConverteDataParaISO(dia + "/" + mes + "/" + ano) == None
  {
    Ano2024();
    DoisDigitos(dia);
    DoisDigitos(mes);
    ConverteDataParaISORejeita(dia, mes, ano);
  }

  /** A day that `parseInt` reads as NaN passes every range check and is copied into the result. */
  lemma {:induction false} ConverteDataParaISONaNGeral(dia: string, mes: string, ano: string)
    requires dia != "" && '/' !in dia && ParseInt(dia).None?
    requires Numeral(mes) && Numeral(ano) && |mes| == 2
    requires 1 <= DigitsValue(mes) <= 12 && DigitsValue(ano) >= 1900
    ensures ConverteDataParaISO(dia + "/" + mes + "/" + ano) == Some(ano + "-" + mes + "-" + PadStart2(dia))
  {
    DigitsNoSpace(mes); DigitsNoSpace(ano);
    SplitTres(dia, mes, ano, '/');
    ParseIntDigits(mes); ParseIntDigits(ano);
  }

  /** A day such as "xx", which `parseInt` reads as NaN, reaches the output. */
  lemma {:induction false} ConverteDataParaISOExemploNaN(dia: string, mes: string, ano: string)
    requires dia == "xx" && mes == "06" && ano == "2024"
    ensures ConverteDataParaISO(dia + "/" + mes + "/" + ano) == Some(ano + "-" + mes + "-" + dia)
  {
    Ano2024();
    DoisDigitos(mes);
    assert ParseInt(dia) == None;
    ConverteDataParaISONaNGeral(dia, mes, ano);
  }

  /**
   * `converteDataParaBR`: YYYY-MM-DD to DD/MM/YYYY with day and month
   * padded; "" for a falsy input or when one of the three '-'-separated
   * parts is missing or empty.
   */
  function ConverteDataParaBR(dataISO: string): string
  {
    if dataISO == "" then ""
    else
      var partes := Split(dataISO, '-');
      var ano, mes, dia := Parte(partes, 0), Parte(partes, 1), Parte(partes, 2);
      if ano != "" && mes != "" && dia != "" then PadStart2(dia) + "/" + PadStart2(mes) + "/" + ano
      else ""
  }

  /** Round trip: a DD/MM/YYYY date in range converted to ISO and back is unchanged. */
  lemma {:induction false} BrIsoBr(dia: string, mes: string, ano: string)
    requires Numeral(dia) && Numeral(mes) && Numeral(ano) && |dia| == 2 && |mes| == 2
    requires 1 <= DigitsValue(dia) <= 31 && 1 <= DigitsValue(mes) <= 12 && DigitsValue(ano) >= 1900
    ensures ConverteDataParaISO(dia + "/" + mes + "/" + ano).Some?
    ensures ConverteDataParaBR(ConverteDataParaISO(dia + "/" + mes + "/" + ano).value) == dia + "/" + mes + "/" + ano
  {
    ConverteDataParaISOAceita(dia, mes, ano);
    DigitsNoSpace(dia); DigitsNoSpace(mes); DigitsNoSpace(ano);
    SplitTres(ano, mes, dia, '-');
  }

  /** Round trip the other way: a YYYY-MM-DD date in range converted to DD/MM/YYYY and back is unchanged. */
  lemma {:induction false} IsoBrIso(ano: string, mes: string, dia: string)
    requires Numeral(dia) && Numeral(mes) && Numeral(ano) && |dia| == 2 && |mes| == 2
    requires 1 <= DigitsValue(dia) <= 31 && 1 <= DigitsValue(mes) <= 12 && DigitsValue(ano) >= 1900
    ensures ConverteDataParaBR(ano + "-" + mes + "-" + dia) == dia + "/" + mes + "/" + ano
    ensures ConverteDataParaISO(ConverteDataParaBR(ano + "-" + mes + "-" + dia)) == Some(ano + "-" + mes + "-" + dia)
  {
    DigitsNoSpace(dia); DigitsNoSpace(mes); DigitsNoSpace(ano);
    SplitTres(ano, mes, dia, '-');
    ConverteDataParaISOAceita(dia, mes, ano);
  }

  /** The `${dia}/${mes}/${ano}` rewrite of an ISO date shared by the `formatar*` functions. */
  function IsoParaBR(dataISO: string): string
  {
    var partes := Split(dataISO, '-');
    ParteTexto(partes, 2) + "/" + ParteTexto(partes, 1) + "/" + ParteTexto(partes, 0)
  }

  /** The date part of a date-time: everything before the first 'T'. */
  function ParteData(dataHora: string): string
  {
    Split(dataHora, 'T')[0]
  }

  /**
   * `formatarData` on strings: "" for "", the DD/MM/YYYY rewrite for a
   * 10-character string containing '-' and, failing that, for the date part
   * of a string containing 'T'. `None` marks the remaining inputs, which go
   * through `new Date` and are not modelled.
   */
  function FormatarData(data: string): Option<string>
  {
    if data == "" then Some("")
    else if '-' in data && |data| == 10 then Some(IsoParaBR(data))
    else if 'T' in data then Some(IsoParaBR(ParteData(data)))
    else None
  }

  /** The string branch of `formatarDataNascimento` in the formatters: only the 10-character form is rewritten. */
  function FormatarDataNascimentoTexto(data: string): Option<string>
  {
    if data == "" then Some("")
    else if '-' in data && |data| == 10 then Some(IsoParaBR(data))
    else None
  }

  /** `formatarDataCadastro`: only strings containing 'T' are rewritten. */
  function FormatarDataCadastro(dataHora: string): Option<string>
  {
    if dataHora == "" then Some("")
    else if 'T' in dataHora then Some(IsoParaBR(ParteData(dataHora)))
    else None
  }

  /** An ISO calendar date YYYY-MM-DD: four, two and two digits. */
  predicate FormaIso(ano: string, mes: string, dia: string)
  {
    |ano| == 4 && |mes| == 2 && |dia| == 2 && AllDigits(ano) && AllDigits(mes) && AllDigits(dia)
  }

  /** All three formatters rewrite YYYY-MM-DD, and the date part of YYYY-MM-DDT..., as DD/MM/YYYY. */
  lemma {:induction false} FormatadoresDeData(ano: string, mes: string, dia: string, hora: string)
    requires FormaIso(ano, mes, dia)
    ensures FormatarData(ano + "-" + mes + "-" + dia) == Some(dia + "/" + mes + "/" + ano)
    ensures FormatarDataNascimentoTexto(ano + "-" + mes + "-" + dia) == Some(dia + "/" + mes + "/" + ano)
    ensures FormatarData(ano + "-" + mes + "-" + dia + "T" + hora) == Some(dia + "/" + mes + "/" + ano)
    ensures FormatarDataCadastro(ano + "-" + mes + "-" + dia + "T" + hora) == Some(dia + "/" + mes + "/" + ano)
  {
    DigitsNoSpace(dia); DigitsNoSpace(mes); DigitsNoSpace(ano);
    var iso := ano + "-" + mes + "-" + dia;
    SplitTres(ano, mes, dia, '-');
    assert iso[4] == '-';
    var dt := iso + "T" + hora;
    assert dt[10] == 'T';
    assert 'T' !in iso by {
      assert forall i :: 0 <= i < |iso| ==> iso[i] == '-' || IsDigit(iso[i]);
    }
    SplitAppend(iso, 'T', hora);
    assert dt == iso + ['T'] + hora;
    assert '-' in dt by { assert dt[4] == '-'; }
  }

  /** `formatarHora` on strings: "" for "", an "HH:MM" string unchanged; `None` marks the `Date` fallback. */
  function FormatarHora(dataHora: string): Option<string>
  {
    if dataHora == "" then Some("")
    else if HoraHHMM(dataHora) then Some(dataHora)
    else None
  }

  /** The pattern `^\d{2}:\d{2}$`. */
  predicate HoraHHMM(s: string)
  {
    |s| == 5 && IsDigit(s[0]) && IsDigit(s[1]) && s[2] == ':' && IsDigit(s[3]) && IsDigit(s[4])
  }

  lemma {:induction false} FormatarHoraMantem(s: string)
    requires HoraHHMM(s)
    ensures FormatarHora(s) == Some(s)
  {
  }

  /** A valid YYYY-MM-DD calendar date. */
  predicate IsoValida(s: string)
  {
    |s| == 10 && s[4] == '-' && s[7] == '-' && FormaIso(s[..4], s[5..7], s[8..])
    && DataValida(Data(DigitsValue(s[..4]), DigitsValue(s[5..7]), DigitsValue(s[8..])))
  }

  /**
   * `convertDateStringToDateTime`: a string containing 'T' is returned as it
   * is; a valid YYYY-MM-DD gets midnight UTC, or the last millisecond of the
   * day with `fimDoDia`; any other string whose length is not 10 is returned
   * as it is. `None` marks the other 10-character strings, whose result
   * depends on how the engine parses them.
   */
  function ConvertDateStringToDateTime(dateString: string, fimDoDia: bool): (r: Option<string>)
    ensures 'T' in dateString ==> r == Some(dateString)
    ensures 'T' !in dateString && IsoValida(dateString) ==>
      r == Some(dateString + (if fimDoDia then "T23:59:59.999Z" else "T00:00:00.000Z"))
    ensures 'T' !in dateString && |dateString| != 10 ==> r == Some(dateString)
    ensures r.Some? && r.value != dateString ==> |r.value| == 24 && r.value[..10] == dateString
  {
    if 'T' in dateString then Some(dateString)
    else if |dateString| == 10 then
      if IsoValida(dateString) then
        Some(dateString + (if fimDoDia then "T23:59:59.999Z" else "T00:00:00.000Z"))
      else None
    else Some(dateString)
  }
}

/**
 * Shift times as the shift create and edit forms handle them:
 * `normalizaHora` completes a bare hour, `horaValida` is the check
 * `^([01]\d|2[0-3]):([0-5]\d)$`, `horaParaMinutos` turns "HH:MM" into the
 * minute of the day and `toLocalTime` adds the seconds the API expects.
 */
module Horas {
  import opened Wrappers
  import opened Text
  import opened Datas

  /** `toLocalTime`: a string of 8 characters is kept, anything else gets ":00" appended. */
  function ToLocalTime(hora: string): string
  {
    if |hora| == 8 then hora else hora + ":00"
  }

  /** `/^\d{1,2}$/`: one or two digits and nothing else. */
  predicate HoraNua(hora: string) { 1 <= |hora| <= 2 && AllDigits(hora) }

  /** `normalizaHora`: a bare hour becomes "HH:00"; anything else is kept. */
  function NormalizaHora(hora: string): string
  {
    if HoraNua(hora) then PadStart2(hora) + ":00" else hora
  }

  /** The regular expression `^([01]\d|2[0-3]):([0-5]\d)$`. */
  predicate FormatoHHMM(s: string)
  {
    |s| == 5 && s[2] == ':'
    && (('0' <= s[0] <= '1' && IsDigit(s[1])) || (s[0] == '2' && '0' <= s[1] <= '3'))
    && '0' <= s[3] <= '5' && IsDigit(s[4])
  }

  /** `horaValida`: the normalised string has the HH:MM form. */
  predicate HoraValida(hora: string) { FormatoHHMM(NormalizaHora(hora)) }

  /** The minute of the day an "HH:MM" string denotes. */
  function Minutos(s: string): nat
    requires FormatoHHMM(s)
  {
    60 * DigitsValue(s[..2]) + DigitsValue(s[3..])
  }

  /**
   * `horaParaMinutos`: `split(":").map(Number)`, then `h * 60 + m`. `None`
   * is `NaN`: a part that is not a number, or no minute part at all.
   */
  function HoraParaMinutos(hora: string): Option<real>
  {
    var partes := Split(hora, ':');
    MinutosDosNumeros(ParseNumber(partes[0]), if |partes| >= 2 then ParseNumber(partes[1]) else None)
  }

  /** `h * 60 + m` of the two numbers read; `NaN` if either is. */
  function MinutosDosNumeros(h: Option<real>, m: Option<real>): Option<real>
  {
    if h.Some? && m.Some? then Some(h.value * 60.0 + m.value) else None
  }

  /** The "HH:MM" string of an hour and a minute. */
  function HHMM(h: nat, m: nat): string
    requires h < 24 && m < 60
  {
    [DigitChar(h / 10), DigitChar(h % 10), ':', DigitChar(m / 10), DigitChar(m % 10)]
  }

  /** Normalising twice is normalising once. */
  lemma NormalizaHoraIdempotente(hora: string)
    ensures NormalizaHora(NormalizaHora(hora)) == NormalizaHora(hora)
  {
  }

  lemma {:induction false} HoraNuaValida(hora: string)
    requires HoraNua(hora)
    ensures FormatoHHMM(NormalizaHora(hora)) <==> DigitsValue(hora) < 24
  {
    PadStart2Digits(hora);
    var p := PadStart2(hora);
    DoisDigitos(p);
  }

  /**
   * `horaValida` accepts exactly the HH:MM strings with hour 00-23 and
   * minute 00-59, and the bare hours 0-23 in one or two digits.
   */
  lemma {:induction false} HoraValidaCaracterizacao(hora: string)
    ensures HoraValida(hora) <==> FormatoHHMM(hora) || (HoraNua(hora) && DigitsValue(hora) < 24)
  {
    if HoraNua(hora) {
      HoraNuaValida(hora);
    }
  }

  /** "25:00" and "930" are rejected: "930" is neither a bare hour nor HH:MM. */
  lemma HoraValidaRejeita(a: string, b: string)
    requires a == "25:00" && b == "930"
    ensures !HoraValida(a) && !HoraValida(b)
  {
  }

  /** The parts of an HH:MM string: hour 0-23, minute 0-59. */
  lemma {:induction false} MinutosPartes(s: string)
    requires FormatoHHMM(s)
    ensures AllDigits(s[..2]) && AllDigits(s[3..])
    ensures DigitsValue(s[..2]) < 24 && DigitsValue(s[3..]) < 60 && Minutos(s) < 1440
  {
    DoisDigitos(s[..2]);
    DoisDigitos(s[3..]);
  }

  /** `split(":").map(Number)` of an HH:MM string: its hour and its minute. */
  lemma {:induction false} PartesHHMM(s: string)
    requires FormatoHHMM(s)
    ensures Split(s, ':') == [s[..2], s[3..]]
    ensures ParseNumber(s[..2]) == Some(DigitsValue(s[..2]) as real)
    ensures ParseNumber(s[3..]) == Some(DigitsValue(s[3..]) as real)
  {
    var hh, mm := s[..2], s[3..];
    assert s == hh + [':'] + mm;
    assert ':' !in hh && ':' !in mm;
    SplitAppend(hh, ':', mm);
    SplitNoSep(mm, ':');
    ParseNumberDigits(hh);
    ParseNumberDigits(mm);
  }

  /** On an HH:MM string `horaParaMinutos` is 60 * hour + minute, below 24 * 60. */
  lemma {:induction false} HoraParaMinutosValida(s: string)
    requires FormatoHHMM(s)
    ensures HoraParaMinutos(s) == Some(Minutos(s) as real)
    ensures Minutos(s) < 1440
  {
    MinutosPartes(s);
    PartesHHMM(s);
    var hh: int, mm: int := DigitsValue(s[..2]), DigitsValue(s[3..]);
    assert HoraParaMinutos(s) == MinutosDosNumeros(Some(hh as real), Some(mm as real));
    MinutosInteiros(hh, mm);
    assert Minutos(s) == 60 * hh + mm;
  }

  lemma MinutosInteiros(hh: int, mm: int)
    ensures MinutosDosNumeros(Some(hh as real), Some(mm as real)) == Some((60 * hh + mm) as real)
  {
  }

  /** Every hour and minute has its HH:MM string, and it denotes that minute of the day. */
  lemma {:induction false} HHMMValida(h: nat, m: nat)
    requires h < 24 && m < 60
    ensures FormatoHHMM(HHMM(h, m)) && Minutos(HHMM(h, m)) == 60 * h + m
  {
    var s := HHMM(h, m);
    DoisDigitos(s[..2]);
    DoisDigitos(s[3..]);
  }

  /** An HH:MM string is the HHMM of its own minute of the day. */
  lemma {:induction false} HHMMDeMinutos(s: string)
    requires FormatoHHMM(s)
    ensures Minutos(s) < 1440 && s == HHMM(Minutos(s) / 60, Minutos(s) % 60)
  {
    MinutosPartes(s);
    DoisDigitos(s[..2]);
    DoisDigitos(s[3..]);
    var h, m := DigitsValue(s[..2]), DigitsValue(s[3..]);
    assert Minutos(s) / 60 == h && Minutos(s) % 60 == m;
    var t := HHMM(h, m);
    assert DigitVal(s[0]) == h / 10 && DigitVal(s[1]) == h % 10;
    assert DigitVal(s[3]) == m / 10 && DigitVal(s[4]) == m % 10;
    assert t[0] == s[0] && t[1] == s[1] && t[3] == s[3] && t[4] == s[4];
  }

  /** Two HH:MM strings with the same minute of the day are the same string. */
  lemma MinutosInjetiva(a: string, b: string)
    requires FormatoHHMM(a) && FormatoHHMM(b) && Minutos(a) == Minutos(b)
    ensures a == b
  {
    HHMMDeMinutos(a);
    HHMMDeMinutos(b);
  }

  /** `toLocalTime` of an HH:MM string is HH:MM:00. */
  lemma ToLocalTimeHHMM(s: string)
    requires FormatoHHMM(s)
    ensures |ToLocalTime(s)| == 8 && ToLocalTime(s)[..5] == s && ToLocalTime(s)[5..] == ":00"
  {
  }

  /**
   * The edit form's start value: `${partes[0]}:${partes[1]}` of the stored
   * time split on ':'; a missing part prints as "undefined".
   */
  function HoraDoFormulario(armazenada: string): string
  {
    var partes := Split(armazenada, ':');
    ParteTexto(partes, 0) + ":" + ParteTexto(partes, 1)
  }

  /** A stored HH:MM:SS time opens in the edit form as its HH:MM. */
  lemma {:induction false} HoraDoFormularioArmazenada(armazenada: string)
    requires |armazenada| == 8 && FormatoHHMM(armazenada[..5]) && armazenada[5] == ':'
    requires IsDigit(armazenada[6]) && IsDigit(armazenada[7])
    ensures HoraDoFormulario(armazenada) == armazenada[..5]
  {
    var hh, mm, ss := armazenada[..2], armazenada[3..5], armazenada[6..];
    assert armazenada == hh + [':'] + (mm + [':'] + ss);
    assert ':' !in hh && ':' !in mm && ':' !in ss;
    SplitAppend(hh, ':', mm + [':'] + ss);
    SplitAppend(mm, ':', ss);
    SplitNoSep(ss, ':');
    assert Split(armazenada, ':') == [hh, mm, ss];
  }

  /** Saving the edit form's HH:MM and opening it again gives the same HH:MM. */
  lemma HoraDoFormularioToLocalTime(s: string)
    requires FormatoHHMM(s)
    ensures HoraDoFormulario(ToLocalTime(s)) == s
  {
    HoraDoFormularioArmazenada(ToLocalTime(s));
  }
}

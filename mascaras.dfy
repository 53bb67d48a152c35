/**
 * Input masks and validators applied while the user types: the time mask of
 * `HoraInput`, the birth-date mask `formatarDataNascimento`, the progressive
 * phone mask `formatarTelefone` of the services, and `formatarTelefone`,
 * `limparTelefone`, `validarTelefone` and `validarEmail` of the formatters.
 * Each regular expression is written out as the match it performs.
 */
module Mascaras {
  import opened Wrappers
  import opened Text

  function Min(a: int, b: int): int { if a <= b then a else b }

  /** The first `n` elements of `s`, or all of them when there are fewer. */
  function Prefixo(s: string, n: nat): (r: string)
    ensures |r| == Min(n, |s|) && r == s[..|r|]
  {
    s[..Min(n, |s|)]
  }

  lemma {:induction false} DigitosDoPrefixo(s: string, n: nat)
    requires AllDigits(s)
    ensures AllDigits(Prefixo(s, n))
  {
  }

  /** No character of `s` is a digit. */
  predicate SemDigito(s: string) { forall i :: 0 <= i < |s| ==> !IsDigit(s[i]) }

  /** Digits of a string made of digit runs joined by separators that hold no digit. */
  lemma {:induction false} DigitosJuntos(a: string, sep: string, b: string)
    requires AllDigits(a) && AllDigits(b) && SemDigito(sep)
    ensures OnlyDigits(a + sep + b) == a + b
  {
    DigitosApos(a, sep, b);
    OnlyDigitsOfDigits(a);
  }

  /** Appending a separator and a digit run adds just the run to the digits. */
  lemma {:induction false} DigitosApos(x: string, sep: string, b: string)
    requires AllDigits(b) && SemDigito(sep)
    ensures OnlyDigits(x + sep + b) == OnlyDigits(x) + b
  {
    OnlyDigitsAppend(x + sep, b);
    OnlyDigitsAppend(x, sep);
    OnlyDigitsOfDigits(b);
    SemDigitos(sep);
    assert OnlyDigits(x + sep) == OnlyDigits(x) + [];
  }

  /** A separator followed by a digit run has just the run as digits. */
  lemma {:induction false} DigitosAposSeparador(sep: string, b: string)
    requires AllDigits(b) && SemDigito(sep)
    ensures OnlyDigits(sep + b) == b
  {
    DigitosApos("", sep, b);
    assert "" + sep + b == sep + b;
    assert OnlyDigits("") == "";
  }

  lemma {:induction false} SemDigitos(s: string)
    requires SemDigito(s)
    ensures OnlyDigits(s) == []
  {
    if s != [] {
      assert SemDigito(s[1..]);
      SemDigitos(s[1..]);
    }
  }

  // ---------------------------------------------------------------------
  // HoraInput: formatTimeInput

  /** The digits, at most four, with ':' after the second when there are more than two. */
  function FormatTimeInput(value: string): string
  {
    var digits := Slice(OnlyDigits(value), 0, 4);
    if |digits| > 2 then Slice(digits, 0, 2) + ":" + Slice(digits, 2, |digits|) else digits
  }

  /**
   * The output keeps the first four digits of the input, is at most five
   * characters long, and holds nothing but digits and one ':' at index 2,
   * present exactly when more than two digits were kept.
   */
  lemma {:induction false} FormatTimeInputForma(value: string)
    ensures var r := FormatTimeInput(value);
      |r| <= 5
      && OnlyDigits(r) == Prefixo(OnlyDigits(value), 4)
      && (forall i :: 0 <= i < |r| && i != 2 ==> IsDigit(r[i]))
      && (|r| > 2 <==> |Prefixo(OnlyDigits(value), 4)| > 2)
      && (|r| > 2 ==> r[2] == ':')
  {
    var d := Prefixo(OnlyDigits(value), 4);
    SliceFromZero(OnlyDigits(value), 4);
    if |d| > 2 {
      SliceFromZero(d, 2);
      assert Slice(d, 2, |d|) == d[2..];
      assert SemDigito(":");
      DigitosJuntos(d[..2], ":", d[2..]);
      assert d[..2] + d[2..] == d;
    } else {
      OnlyDigitsOfDigits(d);
    }
  }

  /** Formatting a formatted time again changes nothing. */
  lemma {:induction false} FormatTimeInputIdempotente(value: string)
    ensures FormatTimeInput(FormatTimeInput(value)) == FormatTimeInput(value)
  {
    var r := FormatTimeInput(value);
    var d := Prefixo(OnlyDigits(value), 4);
    FormatTimeInputForma(value);
    FormatTimeInputForma(r);
    SliceFromZero(OnlyDigits(value), 4);
    SliceFromZero(OnlyDigits(r), 4);
    assert Prefixo(OnlyDigits(r), 4) == d;
  }

  // ---------------------------------------------------------------------
  // formataDataNascimento: DD/MM/YYYY typed digit by digit

  /** `valor.replace(/^(\d{2})(\d)/, "$1/$2")`. */
  function BarraAposDia(v: string): string
  {
    if |v| >= 3 && IsDigit(v[0]) && IsDigit(v[1]) && IsDigit(v[2]) then v[..2] + "/" + v[2..] else v
  }

  /** `valor.replace(/^(\d{2})\/(\d{2})(\d)/, "$1/$2/$3")`. */
  function BarraAposMes(v: string): string
  {
    if |v| >= 6 && IsDigit(v[0]) && IsDigit(v[1]) && v[2] == '/' && IsDigit(v[3]) && IsDigit(v[4]) && IsDigit(v[5])
    then v[..5] + "/" + v[5..]
    else v
  }

  function FormatarDataNascimento(valor: string): string
  {
    var v0 := OnlyDigits(valor);
    var v1 := if |v0| > 2 then BarraAposDia(v0) else v0;
    var v2 := if |v1| > 5 then BarraAposMes(v1) else v1;
    Slice(v2, 0, 10)
  }

  /** The intended layout of up to eight typed digits: DD, DD/MM or DD/MM/YYYY, cut where typing stopped. */
  function Barras(e: string): string
    requires |e| <= 8
  {
    if |e| <= 2 then e
    else if |e| <= 4 then e[..2] + "/" + e[2..]
    else e[..2] + "/" + e[2..4] + "/" + e[4..]
  }

  /** The mask lays out the first eight digits of the input as `Barras` describes. */
  lemma {:induction false} FormatarDataNascimentoForma(valor: string)
    ensures FormatarDataNascimento(valor) == Barras(Prefixo(OnlyDigits(valor), 8))
  {
    var d := OnlyDigits(valor);
    if |d| > 4 {
      DiaDigitos(d);
      MesDigitos(d);
      CorteDasBarras(d);
    } else if |d| > 2 {
      DiaDigitos(d);
      SliceFromZero(d[..2] + "/" + d[2..], 10);
    } else {
      SliceFromZero(d, 10);
    }
  }

  lemma DiaDigitos(d: string)
    requires AllDigits(d) && |d| > 2
    ensures BarraAposDia(d) == d[..2] + "/" + d[2..]
  {
  }

  lemma MesDigitos(d: string)
    requires AllDigits(d) && |d| > 4
    ensures BarraAposMes(d[..2] + "/" + d[2..]) == d[..2] + "/" + d[2..4] + "/" + d[4..]
  {
    var v1 := d[..2] + "/" + d[2..];
    assert v1[3] == d[2] && v1[4] == d[3] && v1[5] == d[4];
    assert v1[..5] == d[..2] + "/" + d[2..4];
    assert v1[5..] == d[4..];
  }

  lemma CorteDasBarras(d: string)
    requires |d| > 4
    ensures Slice(d[..2] + "/" + d[2..4] + "/" + d[4..], 0, 10) == Barras(Prefixo(d, 8))
  {
    var v2 := d[..2] + "/" + d[2..4] + "/" + d[4..];
    var e := Prefixo(d, 8);
    SliceFromZero(v2, 10);
    if |d| >= 8 {
      assert e[..2] == d[..2] && e[2..4] == d[2..4] && e[4..] == d[4..8];
      assert v2[..10] == d[..2] + "/" + d[2..4] + "/" + d[4..8];
    } else {
      assert e == d;
    }
  }

  /** The output has at most ten characters, only digits and '/', and its digits are the first eight of the input. */
  lemma {:induction false} FormatarDataNascimentoConteudo(valor: string)
    ensures var r := FormatarDataNascimento(valor);
      |r| <= 10
      && (forall i :: 0 <= i < |r| ==> IsDigit(r[i]) || r[i] == '/')
      && OnlyDigits(r) == Prefixo(OnlyDigits(valor), 8)
  {
    FormatarDataNascimentoForma(valor);
    DigitosBarras(Prefixo(OnlyDigits(valor), 8));
  }

  lemma {:induction false} DigitosBarras(e: string)
    requires |e| <= 8 && AllDigits(e)
    ensures var r := Barras(e);
      (forall i :: 0 <= i < |r| ==> IsDigit(r[i]) || r[i] == '/') && OnlyDigits(r) == e
  {
    if |e| <= 2 {
      OnlyDigitsOfDigits(e);
    } else if |e| <= 4 {
      assert SemDigito("/");
      DigitosJuntos(e[..2], "/", e[2..]);
      assert e[..2] + e[2..] == e;
    } else {
      var x := e[..2] + "/" + e[2..4];
      assert SemDigito("/");
      DigitosJuntos(e[..2], "/", e[2..4]);
      DigitosApos(x, "/", e[4..]);
      assert e[..2] + e[2..4] + e[4..] == e;
      var r := Barras(e);
      assert r == x + "/" + e[4..];
      forall i | 0 <= i < |r| ensures IsDigit(r[i]) || r[i] == '/' {
        if i < 2 { assert r[i] == e[i]; }
        else if 2 < i < 5 { assert r[i] == e[i - 1]; }
        else if i > 5 { assert r[i] == e[i - 2]; }
      }
    }
  }

  /** Re-formatting the output returns it unchanged. */
  lemma {:induction false} FormatarDataNascimentoIdempotente(valor: string)
    ensures FormatarDataNascimento(FormatarDataNascimento(valor)) == FormatarDataNascimento(valor)
  {
    var r := FormatarDataNascimento(valor);
    var e := Prefixo(OnlyDigits(valor), 8);
    FormatarDataNascimentoConteudo(valor);
    FormatarDataNascimentoForma(valor);
    FormatarDataNascimentoForma(r);
    assert Prefixo(OnlyDigits(r), 8) == e;
  }

  // ---------------------------------------------------------------------
  // formataTelefone: the progressive phone mask

  /** `telefone.replace(/^(\d{2})(\d)/g, "($1) $2")`: the anchored pattern matches at most once, at the start. */
  function ParentesesDDD(t: string): string
  {
    if |t| >= 3 && IsDigit(t[0]) && IsDigit(t[1]) && IsDigit(t[2]) then "(" + t[..2] + ") " + t[2..] else t
  }

  /** Six consecutive digits start at index `i`. */
  predicate SeisDigitosEm(s: string, i: int)
  {
    0 <= i && i + 6 <= |s| && forall k :: i <= k < i + 6 ==> IsDigit(s[k])
  }

  /** Where the leftmost run of six digits at or after `i` starts. */
  function PrimeiroSeisDigitos(s: string, i: nat): (r: Option<nat>)
    decreases |s| - i
    ensures r.Some? ==> i <= r.value && SeisDigitosEm(s, r.value)
    ensures r.Some? ==> forall j :: i <= j < r.value ==> !SeisDigitosEm(s, j)
    ensures r.None? ==> forall j :: i <= j ==> !SeisDigitosEm(s, j)
  {
    if i + 6 > |s| then None
    else if SeisDigitosEm(s, i) then Some(i)
    else PrimeiroSeisDigitos(s, i + 1)
  }

  /** `telefone.replace(/(\d{5})(\d)/, "$1-$2")`: a '-' after the first five digits of the leftmost run of six. */
  function HifenAposCinco(s: string): string
  {
    match PrimeiroSeisDigitos(s, 0)
    case None => s
    case Some(i) => s[..i + 5] + "-" + s[i + 5..]
  }

  function FormataTelefone(valor: string): string
  {
    if valor == "" then ""
    else Slice(HifenAposCinco(ParentesesDDD(OnlyDigits(valor))), 0, 15)
  }

  /** The intended layout of up to eleven typed digits: DD, (DD) NNNNN, then a '-' and the rest. */
  function Telefone(e: string): string
    requires |e| <= 11
  {
    if |e| <= 2 then e
    else if |e| <= 7 then "(" + e[..2] + ") " + e[2..]
    else "(" + e[..2] + ") " + e[2..7] + "-" + e[7..]
  }

  /** After the area code is wrapped, no run of six digits can start before index 5. */
  lemma {:induction false} SemSeisAntesDoNumero(d: string)
    requires AllDigits(d) && |d| >= 3
    ensures forall j :: 0 <= j <= 4 ==> !SeisDigitosEm(ParentesesDDD(d), j)
  {
    var p := ParentesesDDD(d);
    assert p == "(" + d[..2] + ") " + d[2..];
    assert p[4] == ' ';
    forall j | 0 <= j <= 4 ensures !SeisDigitosEm(p, j) {
      assert !IsDigit(p[4]);
    }
  }

  /** With three to seven digits only the area code is wrapped. */
  lemma {:induction false} TelefoneCurto(d: string)
    requires AllDigits(d) && 3 <= |d| <= 7
    ensures HifenAposCinco(ParentesesDDD(d)) == "(" + d[..2] + ") " + d[2..]
  {
    var p := ParentesesDDD(d);
    assert p == "(" + d[..2] + ") " + d[2..];
    SemSeisAntesDoNumero(d);
    assert PrimeiroSeisDigitos(p, 0).None?;
  }

  /** With eight or more digits the '-' goes after the fifth digit of the number. */
  lemma {:induction false} TelefoneLongo(d: string)
    requires AllDigits(d) && |d| >= 8
    ensures HifenAposCinco(ParentesesDDD(d)) == "(" + d[..2] + ") " + d[2..7] + "-" + d[7..]
  {
    var p := ParentesesDDD(d);
    assert p == "(" + d[..2] + ") " + d[2..];
    SemSeisAntesDoNumero(d);
    forall k | 5 <= k < 11 ensures IsDigit(p[k]) {
      assert p[k] == d[k - 3];
    }
    assert SeisDigitosEm(p, 5);
    assert PrimeiroSeisDigitos(p, 0) == Some(5);
    assert p[..10] == "(" + d[..2] + ") " + d[2..7];
    assert p[10..] == d[7..];
  }

  /** The mask lays out the first eleven digits of a non-empty input as `Telefone` describes. */
  lemma {:induction false} FormataTelefoneForma(valor: string)
    requires valor != ""
    ensures FormataTelefone(valor) == Telefone(Prefixo(OnlyDigits(valor), 11))
  {
    var d := OnlyDigits(valor);
    assert FormataTelefone(valor) == Slice(HifenAposCinco(ParentesesDDD(d)), 0, 15);
    MascaraDosDigitos(d);
  }

  lemma {:induction false} MascaraDosDigitos(d: string)
    requires AllDigits(d)
    ensures Slice(HifenAposCinco(ParentesesDDD(d)), 0, 15) == Telefone(Prefixo(d, 11))
  {
    if |d| <= 2 {
      assert ParentesesDDD(d) == d;
      assert PrimeiroSeisDigitos(d, 0).None?;
      SliceFromZero(d, 15);
    } else if |d| <= 7 {
      TelefoneCurto(d);
      SliceFromZero("(" + d[..2] + ") " + d[2..], 15);
    } else {
      MascaraLonga(d);
    }
  }

  lemma {:induction false} MascaraLonga(d: string)
    requires AllDigits(d) && |d| >= 8
    ensures Slice(HifenAposCinco(ParentesesDDD(d)), 0, 15) == Telefone(Prefixo(d, 11))
  {
    var e := Prefixo(d, 11);
    TelefoneLongo(d);
    var h := "(" + d[..2] + ") " + d[2..7] + "-" + d[7..];
    SliceFromZero(h, 15);
    if |d| >= 11 {
      assert e[..2] == d[..2] && e[2..7] == d[2..7] && e[7..] == d[7..11];
      assert h[..15] == "(" + d[..2] + ") " + d[2..7] + "-" + d[7..11];
    } else {
      assert e == d;
    }
  }

  lemma {:induction false} DigitosTelefone(e: string)
    requires |e| <= 11 && AllDigits(e)
    ensures var r := Telefone(e); |r| <= 15 && OnlyDigits(r) == e
  {
    if |e| <= 2 {
      OnlyDigitsOfDigits(e);
    } else {
      assert SemDigito("(") && SemDigito(") ") && SemDigito("-");
      DigitosAposSeparador("(", e[..2]);
      if |e| <= 7 {
        DigitosApos("(" + e[..2], ") ", e[2..]);
        assert e[..2] + e[2..] == e;
      } else {
        DigitosApos("(" + e[..2], ") ", e[2..7]);
        DigitosApos("(" + e[..2] + ") " + e[2..7], "-", e[7..]);
        assert e[..2] + e[2..7] + e[7..] == e;
      }
    }
  }

  /** At most 15 characters, and the digits shown are the first (at most eleven) digits of the input. */
  lemma {:induction false} FormataTelefoneConteudo(valor: string)
    ensures var r := FormataTelefone(valor);
      |r| <= 15 && OnlyDigits(r) == Prefixo(OnlyDigits(valor), 11)
  {
    if valor != "" {
      FormataTelefoneForma(valor);
      DigitosTelefone(Prefixo(OnlyDigits(valor), 11));
    }
  }

  /** The mask is idempotent on its own output. */
  lemma {:induction false} FormataTelefoneIdempotente(valor: string)
    ensures FormataTelefone(FormataTelefone(valor)) == FormataTelefone(valor)
  {
    var r := FormataTelefone(valor);
    if r != "" {
      FormataTelefoneConteudo(valor);
      FormataTelefoneForma(valor);
      FormataTelefoneForma(r);
      assert Prefixo(OnlyDigits(r), 11) == Prefixo(OnlyDigits(valor), 11);
    }
  }

  // ---------------------------------------------------------------------
  // formatters: formatarTelefone, limparTelefone, validarTelefone, validarEmail

  /** `limparTelefone`: the digits of the input. */
  function LimparTelefone(telefone: string): (r: string)
    ensures AllDigits(r)
  {
    OnlyDigits(telefone)
  }

  lemma {:induction false} LimparTelefoneIdempotente(telefone: string)
    ensures LimparTelefone(LimparTelefone(telefone)) == LimparTelefone(telefone)
  {
    OnlyDigitsOfDigits(OnlyDigits(telefone));
  }

  /** `validarTelefone`: 10 (landline) or 11 (mobile) digits. */
  predicate ValidarTelefone(telefone: string)
  {
    |LimparTelefone(telefone)| == 10 || |LimparTelefone(telefone)| == 11
  }

  /** `formatarTelefone`: (DD) NNNNN-NNNN for 11 digits, (DD) NNNN-NNNN for 10, otherwise the input as given. */
  function FormatarTelefone(telefone: string): string
  {
    if telefone == "" then ""
    else
      var n := OnlyDigits(telefone);
      if |n| == 11 then "(" + n[..2] + ") " + n[2..7] + "-" + n[7..]
      else if |n| == 10 then "(" + n[..2] + ") " + n[2..6] + "-" + n[6..]
      else telefone
  }

  /**
   * A valid phone keeps its digits through formatting and stays valid; any
   * other input is returned as it is, not stripped. Eleven digits are laid
   * out as (DD) NNNNN-NNNN, fifteen characters; ten as (DD) NNNN-NNNN,
   * fourteen.
   */
  lemma {:induction false} FormatarTelefoneDigitos(telefone: string)
    ensures ValidarTelefone(telefone) ==> LimparTelefone(FormatarTelefone(telefone)) == LimparTelefone(telefone)
    ensures ValidarTelefone(telefone) ==> ValidarTelefone(FormatarTelefone(telefone))
    ensures !ValidarTelefone(telefone) ==> FormatarTelefone(telefone) == telefone
    ensures var n, r := LimparTelefone(telefone), FormatarTelefone(telefone);
      |n| == 11 ==>
        && |r| == 15 && r[0] == '(' && r[3] == ')' && r[4] == ' ' && r[10] == '-'
        && r[1..3] == n[..2] && r[5..10] == n[2..7] && r[11..] == n[7..]
    ensures var n, r := LimparTelefone(telefone), FormatarTelefone(telefone);
      |n| == 10 ==>
        && |r| == 14 && r[0] == '(' && r[3] == ')' && r[4] == ' ' && r[9] == '-'
        && r[1..3] == n[..2] && r[5..9] == n[2..6] && r[10..] == n[6..]
  {
    var n := OnlyDigits(telefone);
    if |n| == 11 {
      DigitosTelefone(n);
      var r := FormatarTelefone(telefone);
      assert r == "(" + n[..2] + ") " + n[2..7] + "-" + n[7..];
      assert r[1..3] == n[..2];
      assert r[5..10] == n[2..7];
      assert r[11..] == n[7..];
    } else if |n| == 10 {
      var r := FormatarTelefone(telefone);
      assert r == "(" + n[..2] + ") " + n[2..6] + "-" + n[6..];
      assert r[1..3] == n[..2];
      assert r[5..9] == n[2..6];
      assert r[10..] == n[6..];
      assert SemDigito("(") && SemDigito(") ") && SemDigito("-");
      DigitosAposSeparador("(", n[..2]);
      DigitosApos("(" + n[..2], ") ", n[2..6]);
      DigitosApos("(" + n[..2] + ") " + n[2..6], "-", n[6..]);
      assert n[..2] + n[2..6] + n[6..] == n;
    }
  }

  /** On eleven digits the progressive mask and `formatarTelefone` agree. */
  lemma {:induction false} MascarasDeTelefoneConcordam(telefone: string)
    requires |OnlyDigits(telefone)| == 11
    ensures FormataTelefone(telefone) == FormatarTelefone(telefone)
  {
    assert telefone != "";
    FormataTelefoneForma(telefone);
  }

  /** A character of `[^\s@]`. */
  predicate CaractereEmail(c: char) { !IsSpace(c) && c != '@' }

  /** Every character is in `[^\s@]`. */
  predicate SoCaracteresEmail(s: string) { forall i :: 0 <= i < |s| ==> CaractereEmail(s[i]) }

  /** `[^\s@]+\.[^\s@]+$` on the domain: a '.' neither first nor last, and no '@' or white space at all. */
  predicate DominioEmail(d: string)
  {
    SoCaracteresEmail(d) && exists j :: 0 < j < |d| - 1 && d[j] == '.'
  }

  /** `validarEmail`: the pattern `^[^\s@]+@[^\s@]+\.[^\s@]+$`, matched as the parts around the '@'. */
  predicate ValidarEmail(email: string)
  {
    var partes := Split(email, '@');
    |partes| == 2 && partes[0] != "" && SoCaracteresEmail(partes[0]) && DominioEmail(partes[1])
  }

  /** Number of occurrences of `c` in `s`. */
  function Ocorrencias(s: string, c: char): nat
  {
    if s == [] then 0 else (if s[0] == c then 1 else 0) + Ocorrencias(s[1..], c)
  }

  lemma {:induction false} OcorrenciasZero(s: string, c: char)
    ensures Ocorrencias(s, c) == 0 <==> c !in s
  {
    if s != [] {
      OcorrenciasZero(s[1..], c);
      assert s == [s[0]] + s[1..];
    }
  }

  lemma {:induction false} OcorrenciasConcat(a: string, b: string, c: char)
    ensures Ocorrencias(a + b, c) == Ocorrencias(a, c) + Ocorrencias(b, c)
  {
    if a == [] {
      assert a + b == b;
    } else {
      assert (a + b)[1..] == a[1..] + b;
      OcorrenciasConcat(a[1..], b, c);
    }
  }

  /**
   * The email check holds exactly when the address has no white space and
   * one '@', something before the '@', and a '.' in the domain that is
   * neither its first nor its last character.
   */
  lemma {:induction false} ValidarEmailCaracterizacao(email: string)
    ensures ValidarEmail(email) <==> FormaDeEmail(email)
  {
    if ValidarEmail(email) {
      EmailValidoTemForma(email);
    }
    if FormaDeEmail(email) {
      var k :| 0 < k < |email| && ArrobaDoDominio(email, k);
      FormaDeEmailValida(email, k);
    }
  }

  /** The '@' at index `k` has something before it and a well-formed domain after it. */
  predicate ArrobaDoDominio(email: string, k: int)
  {
    0 < k < |email| && email[k] == '@' && DominioEmail(email[k + 1..])
  }

  predicate FormaDeEmail(email: string)
  {
    NoSpace(email) && Ocorrencias(email, '@') == 1 && exists k | 0 < k < |email| :: ArrobaDoDominio(email, k)
  }

  lemma {:induction false} UmaArroba(a: string, b: string)
    requires '@' !in a && '@' !in b
    ensures Ocorrencias(a + ['@'] + b, '@') == 1
  {
    OcorrenciasZero(a, '@');
    OcorrenciasZero(b, '@');
    OcorrenciasConcat(a, ['@'] + b, '@');
    OcorrenciasConcat(['@'], b, '@');
    assert a + ['@'] + b == a + (['@'] + b);
  }

  lemma {:induction false} EmailValidoTemForma(email: string)
    requires ValidarEmail(email)
    ensures FormaDeEmail(email)
  {
    var partes := Split(email, '@');
    SplitJoin(email, '@');
    var a, b := partes[0], partes[1];
    assert partes[1..] == [b];
    assert Join(partes, '@') == a + ['@'] + b;
    assert email == a + ['@'] + b;
    var k := |a|;
    assert email[k + 1..] == b;
    assert ArrobaDoDominio(email, k);
    UmaArroba(a, b);
    forall i | 0 <= i < |email| ensures !IsSpace(email[i]) {
      if i < k {
        assert email[i] == a[i];
        assert CaractereEmail(a[i]);
      } else if i > k {
        assert email[i] == b[i - k - 1];
        assert CaractereEmail(b[i - k - 1]);
      }
    }
  }

  lemma {:induction false} FormaDeEmailValida(email: string, k: int)
    requires NoSpace(email) && Ocorrencias(email, '@') == 1 && ArrobaDoDominio(email, k)
    ensures ValidarEmail(email)
  {
    var a, b := email[..k], email[k + 1..];
    assert email == a + ['@'] + b;
    assert email == a + (['@'] + b);
    OcorrenciasConcat(a, ['@'] + b, '@');
    OcorrenciasConcat(['@'], b, '@');
    assert Ocorrencias(['@'], '@') == 1;
    assert Ocorrencias(a, '@') == 0;
    OcorrenciasZero(a, '@');
    SplitAppend(a, '@', b);
    assert '@' !in b by {
      forall i | 0 <= i < |b| ensures b[i] != '@' {
        assert CaractereEmail(b[i]);
      }
    }
    SplitNoSep(b, '@');
    assert Split(email, '@') == [a, b];
    forall i | 0 <= i < |a| ensures CaractereEmail(a[i]) {
      assert a[i] == email[i];
      assert a[i] in a;
    }
  }
}

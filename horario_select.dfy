/**
 * `HorarioSelect`: the time picker of the booking and rescheduling forms.
 * It sorts a copy of the slot times and, when the chosen day is today,
 * keeps only the times not yet past. The clock is a parameter.
 */
module SelecaoHorario {
  import opened Wrappers
  import opened Text
  import opened Calendario
  import opened Horas

  /** Code-unit order of strings, the order `localeCompare` gives digit and ':' strings of one shape. */
  predicate LexMenorIgual(a: string, b: string)
  {
    a == [] || (b != [] && (a[0] < b[0] || (a[0] == b[0] && LexMenorIgual(a[1..], b[1..]))))
  }

  lemma {:induction false} LexTotal(a: string, b: string)
    ensures LexMenorIgual(a, b) || LexMenorIgual(b, a)
  {
    if a != [] && b != [] && a[0] == b[0] {
      LexTotal(a[1..], b[1..]);
    }
  }

  lemma {:induction false} LexTransitiva(a: string, b: string, c: string)
    requires LexMenorIgual(a, b) && LexMenorIgual(b, c)
    ensures LexMenorIgual(a, c)
  {
    if a != [] && b != [] && c != [] && a[0] == b[0] && b[0] == c[0] {
      LexTransitiva(a[1..], b[1..], c[1..]);
    }
  }

  lemma {:induction false} LexAntissimetrica(a: string, b: string)
    requires LexMenorIgual(a, b) && LexMenorIgual(b, a)
    ensures a == b
  {
    if a != [] && b != [] {
      LexAntissimetrica(a[1..], b[1..]);
      assert a == [a[0]] + a[1..] && b == [b[0]] + b[1..];
    }
  }

  predicate Ordenada(s: seq<string>)
  {
    forall i, j :: 0 <= i < j < |s| ==> LexMenorIgual(s[i], s[j])
  }

  /** `x` placed before the first element it does not exceed. */
  function Inserir(x: string, s: seq<string>): (r: seq<string>)
    ensures multiset(r) == multiset(s) + multiset{x}
  {
    if s == [] then [x]
    else if LexMenorIgual(x, s[0]) then [x] + s
    else
      assert s == [s[0]] + s[1..];
      [s[0]] + Inserir(x, s[1..])
  }

  lemma {:induction false} InserirOrdenada(x: string, s: seq<string>)
    requires Ordenada(s)
    ensures Ordenada(Inserir(x, s))
  {
    if s == [] {
    } else if LexMenorIgual(x, s[0]) {
      forall j | 0 < j < |s| ensures LexMenorIgual(x, s[j]) {
        LexTransitiva(x, s[0], s[j]);
      }
    } else {
      LexTotal(x, s[0]);
      InserirOrdenada(x, s[1..]);
      var resto := Inserir(x, s[1..]);
      forall j | 0 <= j < |resto| ensures LexMenorIgual(s[0], resto[j]) {
        assert resto[j] in multiset(resto);
        if resto[j] != x {
          assert resto[j] in multiset(s[1..]);
          var k :| 0 <= k < |s[1..]| && s[1..][k] == resto[j];
          assert s[k + 1] == resto[j];
        }
      }
    }
  }

  /** `[...horarios].sort((a, b) => a.localeCompare(b))`: a sorted permutation of the input. */
  function Ordenar(s: seq<string>): (r: seq<string>)
    ensures Ordenada(r) && multiset(r) == multiset(s)
  {
    if s == [] then [] else
      assert s == [s[0]] + s[1..];
      var resto := Ordenar(s[1..]);
      InserirOrdenada(s[0], resto);
      Inserir(s[0], resto)
  }

  lemma OrdenarMesmosElementos(s: seq<string>)
    ensures forall x :: x in Ordenar(s) <==> x in s
  {
    forall x ensures x in Ordenar(s) <==> x in s {
      assert x in Ordenar(s) <==> x in multiset(Ordenar(s));
    }
  }

  /**
   * The filter's test: `[hH, hM] = h.split(":").map(Number)`, then
   * `hH > horaAtual || (hH === horaAtual && hM >= minAtual)`; comparisons
   * with `NaN` are false.
   */
  predicate AindaNaoPassou(h: string, horaAtual: int, minAtual: int)
  {
    var partes := Split(h, ':');
    var hh := ParseNumber(partes[0]);
    var mm := if |partes| >= 2 then ParseNumber(partes[1]) else None;
    (hh.Some? && hh.value > horaAtual as real)
    || (hh.Some? && mm.Some? && hh.value == horaAtual as real && mm.value >= minAtual as real)
  }

  function Filtrar(s: seq<string>, horaAtual: int, minAtual: int): (r: seq<string>)
    ensures |r| <= |s|
    ensures forall x :: x in r <==> x in s && AindaNaoPassou(x, horaAtual, minAtual)
    ensures multiset(r) <= multiset(s)
  {
    if s == [] then []
    else
      assert s == [s[0]] + s[1..];
      (if AindaNaoPassou(s[0], horaAtual, minAtual) then [s[0]] else []) + Filtrar(s[1..], horaAtual, minAtual)
  }

  /** What the component renders. */
  datatype Vista =
    | Nada                          // no list, or an empty one
    | SemHorarios                   // "Nenhum horário disponível para o restante do dia"
    | Opcoes(horarios: seq<string>) // a select over these times

  /**
   * The component: `horarios` is `None` when missing; `hoje`, `horaAtual`
   * and `minAtual` are the clock's day, hour and minute.
   */
  function HorarioSelect(horarios: Option<seq<string>>, dataSelecionada: Option<Data>,
                         hoje: Data, horaAtual: int, minAtual: int): Vista
  {
    if horarios.None? || horarios.value == [] then Nada
    else
      var ordenados := Ordenar(horarios.value);
      var filtrados :=
        if dataSelecionada.Some? && dataSelecionada.value == hoje then Filtrar(ordenados, horaAtual, minAtual)
        else ordenados;
      if filtrados == [] then SemHorarios else Opcoes(filtrados)
  }

  /** Filtering keeps the order of what it keeps. */
  lemma {:induction false} FiltrarOrdenada(s: seq<string>, horaAtual: int, minAtual: int)
    requires Ordenada(s)
    ensures Ordenada(Filtrar(s, horaAtual, minAtual))
  {
    if s != [] {
      FiltrarOrdenada(s[1..], horaAtual, minAtual);
      var resto := Filtrar(s[1..], horaAtual, minAtual);
      forall y | y in resto
        ensures LexMenorIgual(s[0], y)
      {
        var j :| 0 <= j < |s[1..]| && s[1..][j] == y;
        assert s[j + 1] == y;
      }
    }
  }

  /** On an HH:MM time the test is "its minute of the day is not before now". */
  lemma AindaNaoPassouMinutos(h: string, horaAtual: int, minAtual: int)
    requires FormatoHHMM(h) && 0 <= minAtual < 60
    ensures AindaNaoPassou(h, horaAtual, minAtual) <==> Minutos(h) >= 60 * horaAtual + minAtual
  {
    MinutosPartes(h);
    PartesHHMM(h);
    var hh: int, mm: int := DigitsValue(h[..2]), DigitsValue(h[3..]);
    AindaNaoPassouPartes(h, horaAtual, minAtual, hh, mm);
    assert Minutos(h) == 60 * hh + mm;
    ComparaMinutos(hh, mm, horaAtual, minAtual);
  }

  /** The filter's test once the two parts are read as the numbers `hh` and `mm`. */
  lemma AindaNaoPassouPartes(h: string, horaAtual: int, minAtual: int, hh: int, mm: int)
    requires |Split(h, ':')| >= 2
    requires ParseNumber(Split(h, ':')[0]) == Some(hh as real) && ParseNumber(Split(h, ':')[1]) == Some(mm as real)
    ensures AindaNaoPassou(h, horaAtual, minAtual) <==> hh > horaAtual || (hh == horaAtual && mm >= minAtual)
  {
  }

  /** Comparing hour then minute is comparing minutes of the day. */
  lemma ComparaMinutos(hh: int, mm: int, horaAtual: int, minAtual: int)
    requires 0 <= mm < 60 && 0 <= minAtual < 60
    ensures hh > horaAtual || (hh == horaAtual && mm >= minAtual) <==> 60 * hh + mm >= 60 * horaAtual + minAtual
  {
  }

  lemma LexPasso(a: string, b: string)
    requires a != [] && b != []
    ensures LexMenorIgual(a, b) <==> a[0] < b[0] || (a[0] == b[0] && LexMenorIgual(a[1..], b[1..]))
  {
  }

  /** Two five-character strings compare character by character; the third characters are equal. */
  lemma {:induction false} LexCinco(a: string, b: string)
    requires |a| == 5 && |b| == 5 && a[2] == b[2]
    ensures LexMenorIgual(a, b) <==>
      a[0] < b[0] || (a[0] == b[0] && (a[1] < b[1] || (a[1] == b[1] && (a[3] < b[3] || (a[3] == b[3] && a[4] <= b[4])))))
  {
    LexPasso(a, b);
    LexPasso(a[1..], b[1..]);
    LexPasso(a[2..], b[2..]);
    LexPasso(a[3..], b[3..]);
    LexPasso(a[4..], b[4..]);
    assert a[1..][1..] == a[2..] && b[1..][1..] == b[2..];
    assert a[2..][1..] == a[3..] && b[2..][1..] == b[3..];
    assert a[3..][1..] == a[4..] && b[3..][1..] == b[4..];
    assert a[4..][1..] == [] && LexMenorIgual([], b[4..][1..]);
  }

  /** The minute of the day of HH:MM from its four digits. */
  lemma MinutosDigitos(a: string)
    requires FormatoHHMM(a)
    ensures Minutos(a) == 600 * DigitVal(a[0]) + 60 * DigitVal(a[1]) + 10 * DigitVal(a[3]) + DigitVal(a[4])
  {
    DoisDigitos(a[..2]);
    DoisDigitos(a[3..]);
  }

  /** On HH:MM strings the code-unit order is the order of the minutes of the day. */
  lemma LexMinutos(a: string, b: string)
    requires FormatoHHMM(a) && FormatoHHMM(b)
    ensures LexMenorIgual(a, b) <==> Minutos(a) <= Minutos(b)
  {
    LexCinco(a, b);
    MinutosDigitos(a);
    MinutosDigitos(b);
  }

  /** Sorted HH:MM strings are in increasing minute of the day. */
  predicate CrescentePorMinuto(s: seq<string>)
  {
    forall i, j :: 0 <= i < j < |s| ==> FormatoHHMM(s[i]) && FormatoHHMM(s[j]) && Minutos(s[i]) <= Minutos(s[j])
  }

  lemma OrdenadaPorMinuto(s: seq<string>)
    requires Ordenada(s) && forall h :: h in s ==> FormatoHHMM(h)
    ensures CrescentePorMinuto(s)
  {
    forall i, j | 0 <= i < j < |s|
      ensures FormatoHHMM(s[i]) && FormatoHHMM(s[j]) && Minutos(s[i]) <= Minutos(s[j])
    {
      LexMinutos(s[i], s[j]);
    }
  }

  lemma FiltrarMinutos(s: seq<string>, horaAtual: int, minAtual: int)
    requires 0 <= minAtual < 60 && forall h :: h in s ==> FormatoHHMM(h)
    ensures forall h :: h in Filtrar(s, horaAtual, minAtual) <==> h in s && Minutos(h) >= 60 * horaAtual + minAtual
  {
    forall h | h in s
      ensures AindaNaoPassou(h, horaAtual, minAtual) <==> Minutos(h) >= 60 * horaAtual + minAtual
    {
      AindaNaoPassouMinutos(h, horaAtual, minAtual);
    }
  }

  /** An empty or missing list renders nothing. */
  lemma HorarioSelectVazio(horarios: Option<seq<string>>, dataSelecionada: Option<Data>, hoje: Data, horaAtual: int, minAtual: int)
    requires horarios.None? || horarios.value == []
    ensures HorarioSelect(horarios, dataSelecionada, hoje, horaAtual, minAtual) == Nada
  {
  }

  /** Without a date, or on another day, every time is offered, sorted. */
  lemma HorarioSelectOutroDia(horarios: seq<string>, dataSelecionada: Option<Data>, hoje: Data, horaAtual: int, minAtual: int)
    requires horarios != [] && dataSelecionada != Some(hoje)
    ensures var v := HorarioSelect(Some(horarios), dataSelecionada, hoje, horaAtual, minAtual);
      v.Opcoes? && Ordenada(v.horarios) && multiset(v.horarios) == multiset(horarios)
  {
    var r := Ordenar(horarios);
    assert horarios[0] in multiset(horarios);
    assert r != [];
  }

  /**
   * Today, among HH:MM times: the options are in increasing minute of the
   * day, and a time is offered exactly when it is in the list and not before
   * now; when none is left the "no time left today" message is shown.
   */
  lemma HorarioSelectHoje(horarios: seq<string>, hoje: Data, horaAtual: int, minAtual: int)
    requires horarios != [] && 0 <= minAtual < 60
    requires forall h :: h in horarios ==> FormatoHHMM(h)
    ensures var v := HorarioSelect(Some(horarios), Some(hoje), hoje, horaAtual, minAtual);
      && v != Nada
      && (v.Opcoes? ==>
            CrescentePorMinuto(v.horarios)
            && (forall h :: h in v.horarios <==> h in horarios && Minutos(h) >= 60 * horaAtual + minAtual))
      && (v == SemHorarios <==> forall h :: h in horarios ==> Minutos(h) < 60 * horaAtual + minAtual)
  {
    var filtrados := Filtrar(Ordenar(horarios), horaAtual, minAtual);
    HorarioSelectDoDia(horarios, hoje, horaAtual, minAtual);
    FiltradosDeHoje(horarios, horaAtual, minAtual);
    if filtrados != [] {
      assert filtrados[0] in filtrados;
    }
  }

  lemma HorarioSelectDoDia(horarios: seq<string>, hoje: Data, horaAtual: int, minAtual: int)
    requires horarios != []
    ensures var f := Filtrar(Ordenar(horarios), horaAtual, minAtual);
      HorarioSelect(Some(horarios), Some(hoje), hoje, horaAtual, minAtual) == if f == [] then SemHorarios else Opcoes(f)
  {
    var entrada, dia := Some(horarios), Some(hoje);
    assert !(entrada.None? || entrada.value == []);
    assert dia.Some? && dia.value == hoje;
  }

  /** The times kept today: in increasing minute of the day, and exactly those not before now. */
  lemma FiltradosDeHoje(horarios: seq<string>, horaAtual: int, minAtual: int)
    requires 0 <= minAtual < 60
    requires forall h :: h in horarios ==> FormatoHHMM(h)
    ensures var f := Filtrar(Ordenar(horarios), horaAtual, minAtual);
      CrescentePorMinuto(f) && forall h :: h in f <==> h in horarios && Minutos(h) >= 60 * horaAtual + minAtual
  {
    var ordenados := Ordenar(horarios);
    OrdenarMesmosElementos(horarios);
    FiltrarMinutos(ordenados, horaAtual, minAtual);
    FiltrarOrdenada(ordenados, horaAtual, minAtual);
    OrdenadaPorMinuto(Filtrar(ordenados, horaAtual, minAtual));
  }
}

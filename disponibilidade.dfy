/**
 * The free agenda slots as the booking page (`Agendamento`) and the
 * rescheduling form (`ReagendarForm`) handle them: grouping the slot times
 * by date, the calendar's unavailable days, and resolving a chosen date and
 * time back to a slot.
 */
module Disponibilidade {
  import opened Wrappers
  import opened Text
  import opened Calendario
  import opened Datas
  import opened Modelo

  /** `item.horaInicio.slice(0, 5)`: the HH:MM of a slot. */
  function HoraDoSlot(s: Slot): string
  {
    Slice(s.horaInicio, 0, 5)
  }

  /**
   * The `reduce` that builds `horariosDisponiveis`: each slot's HH:MM is
   * appended to the list under its date, the list created on first use.
   */
  function Agrupar(slots: seq<Slot>): map<string, seq<string>>
  {
    if slots == [] then map[]
    else
      var m := Agrupar(slots[..|slots| - 1]);
      var s := slots[|slots| - 1];
      m[s.data := (if s.data in m then m[s.data] else []) + [HoraDoSlot(s)]]
  }

  /** The HH:MM of the slots of one date, in input order. */
  function HorariosDoDia(slots: seq<Slot>, data: string): seq<string>
  {
    if slots == [] then []
    else
      var s := slots[|slots| - 1];
      HorariosDoDia(slots[..|slots| - 1], data) + (if s.data == data then [HoraDoSlot(s)] else [])
  }

  /** The dates of the slots, each once, in order of first appearance (`Object.keys` order). */
  function DatasDosSlots(slots: seq<Slot>): seq<string>
  {
    if slots == [] then []
    else
      var ds := DatasDosSlots(slots[..|slots| - 1]);
      var d := slots[|slots| - 1].data;
      if d in ds then ds else ds + [d]
  }

  predicate Distintas(ds: seq<string>)
  {
    forall i, j :: 0 <= i < j < |ds| ==> ds[i] != ds[j]
  }

  /** `agrupado[data] || []`. */
  function HorariosNaData(agrupado: map<string, seq<string>>, data: string): seq<string>
  {
    if data in agrupado then agrupado[data] else []
  }

  /** The number of times listed under the dates `ds`. */
  function TotalAgrupado(agrupado: map<string, seq<string>>, ds: seq<string>): nat
  {
    if ds == [] then 0
    else TotalAgrupado(agrupado, ds[..|ds| - 1]) + |HorariosNaData(agrupado, ds[|ds| - 1])|
  }

  /**
   * The grouping has a key for exactly the dates of the slots, and under
   * each date the HH:MM of that date's slots, in input order.
   */
  lemma AgruparCorreto(slots: seq<Slot>)
    ensures forall d :: d in Agrupar(slots) <==> d in DatasDosSlots(slots)
    ensures forall d :: d in DatasDosSlots(slots) <==> exists i :: 0 <= i < |slots| && slots[i].data == d
    ensures forall d :: HorariosNaData(Agrupar(slots), d) == HorariosDoDia(slots, d)
    ensures Distintas(DatasDosSlots(slots))
  {
    AgruparPorData(slots);
    DatasDosSlotsCaracterizacao(slots);
  }

  /** The grouping's keys are the slots' dates, and under each the times of that date. */
  lemma {:induction false} AgruparPorData(slots: seq<Slot>)
    ensures forall d :: d in Agrupar(slots) <==> d in DatasDosSlots(slots)
    ensures forall d :: HorariosNaData(Agrupar(slots), d) == HorariosDoDia(slots, d)
  {
    if slots != [] {
      AgruparPorData(slots[..|slots| - 1]);
    }
  }

  /** The dates listed are those of some slot, each once. */
  lemma {:induction false} DatasDosSlotsCaracterizacao(slots: seq<Slot>)
    ensures forall d :: d in DatasDosSlots(slots) <==> exists i :: 0 <= i < |slots| && slots[i].data == d
    ensures Distintas(DatasDosSlots(slots))
  {
    if slots != [] {
      var p := slots[..|slots| - 1];
      DatasDosSlotsCaracterizacao(p);
      forall d ensures (d in DatasDosSlots(slots)) <==> exists i :: 0 <= i < |slots| && slots[i].data == d
      {
        if d in DatasDosSlots(p) {
          var i :| 0 <= i < |p| && p[i].data == d;
          assert slots[i].data == d;
        }
        if exists i :: 0 <= i < |slots| && slots[i].data == d {
          var i :| 0 <= i < |slots| && slots[i].data == d;
          if i < |p| {
            assert p[i].data == d;
          }
        }
      }
    }
  }

  lemma {:induction false} TotalIgnora(m: map<string, seq<string>>, ds: seq<string>, d: string, v: seq<string>)
    requires d !in ds
    ensures TotalAgrupado(m[d := v], ds) == TotalAgrupado(m, ds)
  {
    if ds != [] {
      TotalIgnora(m, ds[..|ds| - 1], d, v);
    }
  }

  lemma {:induction false} TotalAcrescenta(m: map<string, seq<string>>, ds: seq<string>, d: string, x: string)
    requires Distintas(ds) && d in ds
    ensures TotalAgrupado(m[d := HorariosNaData(m, d) + [x]], ds) == TotalAgrupado(m, ds) + 1
  {
    var q := ds[..|ds| - 1];
    var u := ds[|ds| - 1];
    if u == d {
      assert d !in q;
      TotalIgnora(m, q, d, HorariosNaData(m, d) + [x]);
    } else {
      assert d in q by {
        var k :| 0 <= k < |ds| && ds[k] == d;
        assert k < |ds| - 1;
        assert q[k] == d;
      }
      TotalAcrescenta(m, q, d, x);
    }
  }

  /** Every slot is counted once: the grouped times add up to the number of slots. */
  lemma {:induction false} AgruparTotal(slots: seq<Slot>)
    ensures TotalAgrupado(Agrupar(slots), DatasDosSlots(slots)) == |slots|
  {
    if slots != [] {
      var p := slots[..|slots| - 1];
      var s := slots[|slots| - 1];
      var m := Agrupar(p);
      AgruparTotal(p);
      AgruparCorreto(p);
      if s.data in DatasDosSlots(p) {
        TotalAcrescenta(m, DatasDosSlots(p), s.data, HoraDoSlot(s));
      } else {
        var ds := DatasDosSlots(p);
        assert s.data !in m;
        TotalIgnora(m, ds, s.data, [HoraDoSlot(s)]);
        var m2 := Agrupar(slots);
        assert slots[..|slots| - 1] == p;
        assert m2 == m[s.data := [] + [HoraDoSlot(s)]];
        assert [] + [HoraDoSlot(s)] == [HoraDoSlot(s)];
        assert DatasDosSlots(slots) == ds + [s.data];
        assert (ds + [s.data])[..|ds|] == ds;
        assert TotalAgrupado(m2, ds + [s.data]) == TotalAgrupado(m2, ds) + |HorariosNaData(m2, s.data)|;
        assert TotalAgrupado(m2, ds) == |p|;
      }
    }
  }

  /** The first key is the date of the first slot. */
  lemma {:induction false} PrimeiraData(slots: seq<Slot>)
    requires slots != []
    ensures DatasDosSlots(slots) != [] && DatasDosSlots(slots)[0] == slots[0].data
  {
    if |slots| > 1 {
      var p := slots[..|slots| - 1];
      PrimeiraData(p);
      assert p[0] == slots[0];
    }
  }

  /** The `reduce` of `fetchHorariosDisponiveis`, one slot at a time into the dictionary. */
  method AgruparHorarios(slots: seq<Slot>) returns (agrupado: map<string, seq<string>>)
    ensures agrupado == Agrupar(slots)
  {
    agrupado := map[];
    for i := 0 to |slots|
      invariant agrupado == Agrupar(slots[..i])
    {
      assert slots[..i + 1][..i] == slots[..i];
      var item := slots[i];
      if item.data !in agrupado {
        agrupado := agrupado[item.data := []];
      }
      var hora := Slice(item.horaInicio, 0, 5);
      agrupado := agrupado[item.data := agrupado[item.data] + [hora]];
    }
    assert slots[..|slots|] == slots;
  }

  /**
   * A date key of the grouping as the calendar reads it:
   * `new Date(year, month - 1, day)` of `split("-").map(Number)`. A part
   * that `Number` cannot read, or a missing one, makes the date invalid
   * (`None`); a day or month out of range rolls over.
   */
  function DataDaChave(chave: string): Option<DataJs>
  {
    var args := ArgumentosDasPartes(Split(chave, '-'));
    if args.None? then None else Some(DataDeJs(args.value))
  }

  /**
   * A key YYYY-MM-DD written in digits, with a year from 100 on, is the day
   * `new Date` makes of those numbers: the same day number as the agenda
   * forms compute, and the named day itself when it is a calendar day.
   */
  lemma DataDaChaveDigitos(ano: string, mes: string, dia: string, y: int, m: int, d: int)
    requires Numeral(ano) && Numeral(mes) && Numeral(dia)
    requires y == DigitsValue(ano) && m == DigitsValue(mes) && d == DigitsValue(dia) && y >= 100
    ensures DataDaChave(ano + "-" + mes + "-" + dia) == Some(DataDeJs(ArgumentosData(y, m - 1, d)))
    ensures NumeroDoDia(DataDeJs(ArgumentosData(y, m - 1, d))) == DiaJs(y, m - 1, d)
    ensures DataValida(Data(y, m, d)) ==> DataDaChave(ano + "-" + mes + "-" + dia) == Some(Data(y, m, d))
  {
    ChaveNumerica(ano, mes, dia, y, m, d);
    DataDeJsNumero(ArgumentosData(y, m - 1, d));
    if DataValida(Data(y, m, d)) {
      DataDeJsValida(Data(y, m, d));
    }
  }

  /** A key naming no calendar day rolls over: 30 February 2024 is 1 March. */
  lemma ChaveRolada()
    ensures DataDaChave("2024-02-30") == Some(Data(2024, 3, 1))
  {
    assert "2024-02-30" == "2024" + "-" + "02" + "-" + "30";
    ValoresDaChaveRolada();
    DataDaChaveDigitos("2024", "02", "30", 2024, 2, 30);
    FevereiroRolado();
  }

  lemma ValoresDaChaveRolada()
    ensures Numeral("2024") && Numeral("02") && Numeral("30")
    ensures DigitsValue("2024") == 2024 && DigitsValue("02") == 2 && DigitsValue("30") == 30
  {
    assert "2024"[..3] == "202" && "202"[..2] == "20" && "20"[..1] == "2" && "2"[..0] == "";
    assert "02"[..1] == "0" && "0"[..0] == "";
    assert "30"[..1] == "3" && "3"[..0] == "";
  }

  lemma FevereiroRolado()
    ensures DataDeJs(ArgumentosData(2024, 1, 30)) == Data(2024, 3, 1)
  {
    assert DiasNoMes(2024, 2) == 29;
    assert RolarDia(2024, 2, 30) == RolarDia(2024, 3, 1);
  }

  /** The digit parts of such a key reach the `Date` constructor as their values, the month less one. */
  lemma ChaveNumerica(ano: string, mes: string, dia: string, y: int, m: int, d: int)
    requires Numeral(ano) && Numeral(mes) && Numeral(dia)
    requires y == DigitsValue(ano) && m == DigitsValue(mes) && d == DigitsValue(dia) && y >= 100
    ensures DataDaChave(ano + "-" + mes + "-" + dia) == Some(DataDeJs(ArgumentosData(y, m - 1, d)))
  {
    PartesISO(ano, mes, dia);
    var partes := [ano, mes, dia];
    ParteNumeral(partes, 0);
    ParteNumeral(partes, 1);
    ParteNumeral(partes, 2);
    PartesNumerais(partes, y, m, d);
    ChavePorPartes(ano + "-" + mes + "-" + dia, partes);
  }

  /** A key is read through the parts it splits into. */
  lemma ChavePorPartes(chave: string, partes: seq<string>)
    requires Split(chave, '-') == partes
    ensures DataDaChave(chave) == if ArgumentosDasPartes(partes).None? then None
                                  else Some(DataDeJs(ArgumentosDasPartes(partes).value))
  {
  }

  /** `diasDisponiveis`: the keys, in order, as calendar days. */
  function DiasDisponiveis(chaves: seq<string>): (r: seq<Option<DataJs>>)
    ensures |r| == |chaves|
    ensures forall i :: 0 <= i < |chaves| ==> r[i] == DataDaChave(chaves[i])
  {
    if chaves == [] then [] else [DataDaChave(chaves[0])] + DiasDisponiveis(chaves[1..])
  }

  /** The days 1..n of a month that no available date matches, in order. */
  function DiasLivres(ano: int, mes: int, n: int, disponiveis: seq<Option<DataJs>>): seq<Data>
  {
    if n < 1 then []
    else
      DiasLivres(ano, mes, n - 1, disponiveis)
        + (if Some(Data(ano, mes, n)) in disponiveis then [] else [Data(ano, mes, n)])
  }

  /**
   * `getDiasIndisponiveis`: no available date gives nothing; otherwise the
   * days of the first available date's month that are not available. An
   * invalid first date has `NaN` for its month length, so nothing either.
   * The days are built with `new Date(ano, mes, d)`, which reads a year
   * 0..99 as 1900..1999.
   */
  function Indisponiveis(disponiveis: seq<Option<DataJs>>): seq<Data>
  {
    if disponiveis == [] || disponiveis[0].None? then []
    else
      var p := disponiveis[0].value;
      var ano := AnoDoConstrutor(p.ano);
      DiasLivres(ano, p.mes, DiasNoMes(ano, p.mes), disponiveis)
  }

  lemma {:induction false} DiasLivresCaracterizacao(ano: int, mes: int, n: int, disponiveis: seq<Option<DataJs>>)
    ensures forall x :: x in DiasLivres(ano, mes, n, disponiveis) <==>
      x.ano == ano && x.mes == mes && 1 <= x.dia <= n && Some(x) !in disponiveis
    ensures forall i, j :: 0 <= i < j < |DiasLivres(ano, mes, n, disponiveis)| ==>
      DiasLivres(ano, mes, n, disponiveis)[i].dia < DiasLivres(ano, mes, n, disponiveis)[j].dia
  {
    if n >= 1 {
      DiasLivresCaracterizacao(ano, mes, n - 1, disponiveis);
    }
  }

  /**
   * The unavailable days are exactly the days of the first available date's
   * month that are not available, in increasing order; with no available
   * date there are none.
   */
  lemma IndisponiveisCaracterizacao(disponiveis: seq<Option<DataJs>>)
    ensures disponiveis == [] ==> Indisponiveis(disponiveis) == []
    ensures disponiveis != [] && disponiveis[0].Some? ==>
      var p := disponiveis[0].value;
      var ano := AnoDoConstrutor(p.ano);
      && (forall x :: x in Indisponiveis(disponiveis) <==>
            x.ano == ano && x.mes == p.mes && 1 <= x.dia <= DiasNoMes(ano, p.mes) && Some(x) !in disponiveis)
      && (forall i, j :: 0 <= i < j < |Indisponiveis(disponiveis)| ==>
            Indisponiveis(disponiveis)[i].dia < Indisponiveis(disponiveis)[j].dia)
  {
    if disponiveis != [] && disponiveis[0].Some? {
      var p := disponiveis[0].value;
      var ano := AnoDoConstrutor(p.ano);
      DiasLivresCaracterizacao(ano, p.mes, DiasNoMes(ano, p.mes), disponiveis);
    }
  }

  /** Every day of that month is either available or unavailable, never both. */
  lemma IndisponiveisParticao(disponiveis: seq<Option<DataJs>>, dia: int)
    requires disponiveis != [] && disponiveis[0].Some?
    requires 1 <= dia <= DiasNoMes(AnoDoConstrutor(disponiveis[0].value.ano), disponiveis[0].value.mes)
    ensures var x := Data(AnoDoConstrutor(disponiveis[0].value.ano), disponiveis[0].value.mes, dia);
      (x in Indisponiveis(disponiveis)) != (Some(x) in disponiveis)
  {
    IndisponiveisCaracterizacao(disponiveis);
  }

  /** `getDiasIndisponiveis`, with its loop over the days of the month. */
  method DiasIndisponiveis(disponiveis: seq<Option<DataJs>>) returns (indisponiveis: seq<Data>)
    ensures indisponiveis == Indisponiveis(disponiveis)
  {
    if |disponiveis| == 0 {
      return [];
    }
    if disponiveis[0].None? {
      return [];
    }
    var ano := AnoDoConstrutor(disponiveis[0].value.ano);
    var mes := disponiveis[0].value.mes;
    var diasNoMes := DiasNoMes(ano, mes);
    indisponiveis := [];
    var d := 1;
    while d <= diasNoMes
      invariant 1 <= d <= diasNoMes + 1
      invariant indisponiveis == DiasLivres(ano, mes, d - 1, disponiveis)
    {
      var data := Data(ano, mes, d);
      if Some(data) !in disponiveis {
        indisponiveis := indisponiveis + [data];
      }
      d := d + 1;
    }
  }

  /** `find`'s test: the slot's date is the chosen day and its HH:MM the chosen time. */
  predicate Casa(s: Slot, dataISO: string, horario: string)
  {
    s.data == dataISO && HoraDoSlot(s) == horario
  }

  /** `horariosDisponiveisRaw.find(...)`: the first slot of that date and time. */
  function Encontrar(slots: seq<Slot>, dataISO: string, horario: string): (r: Option<Slot>)
    ensures r.None? <==> forall i :: 0 <= i < |slots| ==> !Casa(slots[i], dataISO, horario)
    ensures r.Some? ==> (exists i :: 0 <= i < |slots| && slots[i] == r.value && Casa(r.value, dataISO, horario)
                                     && (forall j :: 0 <= j < i ==> !Casa(slots[j], dataISO, horario)))
  {
    if slots == [] then None
    else if Casa(slots[0], dataISO, horario) then Some(slots[0])
    else
      var r := Encontrar(slots[1..], dataISO, horario);
      assert forall i :: 0 < i < |slots| ==> slots[i] == slots[1..][i - 1];
      r
  }

  /** A time offered under a date in the grouping always resolves to a slot. */
  lemma OfertadoEncontrado(slots: seq<Slot>, dataISO: string, horario: string)
    requires horario in HorariosNaData(Agrupar(slots), dataISO)
    ensures Encontrar(slots, dataISO, horario).Some?
  {
    AgruparCorreto(slots);
    HorarioDoDiaVemDeSlot(slots, dataISO, horario);
  }

  lemma {:induction false} HorarioDoDiaVemDeSlot(slots: seq<Slot>, dataISO: string, horario: string)
    requires horario in HorariosDoDia(slots, dataISO)
    ensures exists i :: 0 <= i < |slots| && Casa(slots[i], dataISO, horario)
  {
    var p := slots[..|slots| - 1];
    if horario in HorariosDoDia(p, dataISO) {
      HorarioDoDiaVemDeSlot(p, dataISO, horario);
      var i :| 0 <= i < |p| && Casa(p[i], dataISO, horario);
      assert slots[i] == p[i];
    } else {
      assert Casa(slots[|slots| - 1], dataISO, horario);
    }
  }
}

/**
 * Calendar dates. A JavaScript `Date` at local midnight is modelled by its
 * day number (days since 1970-01-01) and a calendar day by a
 * (year, month, day) triple; an invalid `Date` is `None` where it can occur.
 */
module Calendario {
  import opened Wrappers
  import opened Text

  /** A calendar day; `mes` is 1-based (January is 1). */
  datatype Data = Data(ano: int, mes: int, dia: int)

  predicate Bissexto(ano: int)
  {
    (ano % 4 == 0 && ano % 100 != 0) || ano % 400 == 0
  }

  /** Number of days of a month, as `new Date(ano, mes, 0).getDate()` gives it. */
  function DiasNoMes(ano: int, mes: int): (n: int)
    requires 1 <= mes <= 12
    ensures 28 <= n <= 31
  {
    if mes == 2 then (if Bissexto(ano) then 29 else 28)
    else if mes == 4 || mes == 6 || mes == 9 || mes == 11 then 30
    else 31
  }

  predicate DataValida(d: Data)
  {
    1 <= d.mes <= 12 && 1 <= d.dia <= DiasNoMes(d.ano, d.mes)
  }

  /** A day a JavaScript `Date` can hold: always a valid calendar day. */
  type DataJs = d: Data | DataValida(d) witness Data(1970, 1, 1)

  /** Days from 1970-01-01 to the first `dia`-1 days after the first of the month (proleptic Gregorian). */
  function DiasCivis(ano: int, mes: int, dia: int): int
    requires 1 <= mes <= 12
  {
    var y := if mes <= 2 then ano - 1 else ano;
    var era := y / 400;
    var yoe := y - era * 400;
    var doy := (153 * (if mes > 2 then mes - 3 else mes + 9) + 2) / 5 + dia - 1;
    var doe := yoe * 365 + yoe / 4 - yoe / 100 + doy;
    era * 146097 + doe - 719468
  }

  /**
   * `new Date(ano, indiceMes, dia)` at local midnight, as a day number: the
   * month index is 0-based and, like the day, may run past its range, in
   * which case the date rolls over into the following months.
   */
  function DiaJs(ano: int, indiceMes: int, dia: int): int
  {
    DiasCivis(ano + indiceMes / 12, indiceMes % 12 + 1, 1) + dia - 1
  }

  /** Day number of a calendar day. */
  function NumeroDoDia(d: Data): int
  {
    DiaJs(d.ano, d.mes - 1, d.dia)
  }

  /** Calendar order of triples. */
  predicate Antes(a: Data, b: Data)
  {
    a.ano < b.ano || (a.ano == b.ano && (a.mes < b.mes || (a.mes == b.mes && a.dia < b.dia)))
  }

  /** `ToIntegerOrInfinity` of a finite number: truncation toward zero. */
  function Trunc(r: real): int
  {
    if r >= 0.0 then r.Floor else -((-r).Floor)
  }

  /** `Number(part)` of a destructured part; a missing part is `undefined`, which is `NaN`. */
  function NumeroDaParte(partes: seq<string>, i: nat): Option<real>
  {
    if i < |partes| then ParseNumber(partes[i]) else None
  }

  /** The arguments passed to `new Date(year, monthIndex, day)`, after the constructor has read them. */
  datatype ArgumentosData = ArgumentosData(ano: int, indiceMes: int, dia: int)

  /** The year the `Date` constructor reads: 0..99 stand for 1900..1999. */
  function AnoDoConstrutor(ano: int): int
  {
    if 0 <= ano <= 99 then 1900 + ano else ano
  }

  /** `new Date(year, month - 1, day)` of the `Number`s of the first three parts of a split string. */
  function ArgumentosDasPartes(partes: seq<string>): Option<ArgumentosData>
  {
    ArgumentosDosNumeros(NumeroDaParte(partes, 0), NumeroDaParte(partes, 1), NumeroDaParte(partes, 2))
  }

  /** `new Date(y, m - 1, d)` of three numbers: invalid if one is `NaN`, else truncated, a year 0..99 read as 1900..1999. */
  function ArgumentosDosNumeros(y: Option<real>, m: Option<real>, d: Option<real>): Option<ArgumentosData>
  {
    if y.None? || m.None? || d.None? then None
    else Some(ArgumentosData(AnoDoConstrutor(Trunc(y.value)), Trunc(m.value - 1.0), Trunc(d.value)))
  }

  /**
   * The calendar day of `dia` counted from the first of a month: a day
   * below 1 rolls back into the previous months, one past the end of the
   * month into the following ones.
   */
  function RolarDia(ano: int, mes: int, dia: int): DataJs
    requires 1 <= mes <= 12
    decreases if dia < 1 then 1 - dia else 0, if dia > 1 then dia else 0
  {
    if dia < 1 then
      var a := if mes == 1 then ano - 1 else ano;
      var m := if mes == 1 then 12 else mes - 1;
      RolarDia(a, m, dia + DiasNoMes(a, m))
    else if dia > DiasNoMes(ano, mes) then
      var a := if mes == 12 then ano + 1 else ano;
      var m := if mes == 12 then 1 else mes + 1;
      RolarDia(a, m, dia - DiasNoMes(ano, mes))
    else Data(ano, mes, dia)
  }

  /** `new Date(...)` as the calendar day its getters report: the month index moves whole years, then the day rolls over. */
  function DataDeJs(args: ArgumentosData): DataJs
  {
    RolarDia(args.ano + args.indiceMes / 12, args.indiceMes % 12 + 1, args.dia)
  }

  /** The rolled-over day is `dia - 1` days after the first of the month. */
  lemma {:induction false} RolarDiaNumero(ano: int, mes: int, dia: int)
    requires 1 <= mes <= 12
    ensures NumeroDoDia(RolarDia(ano, mes, dia)) == DiasCivis(ano, mes, 1) + dia - 1
    decreases if dia < 1 then 1 - dia else 0, if dia > 1 then dia else 0
  {
    if dia < 1 {
      var a := if mes == 1 then ano - 1 else ano;
      var m := if mes == 1 then 12 else mes - 1;
      RolarDiaNumero(a, m, dia + DiasNoMes(a, m));
      RolarParaTras(ano, mes, dia);
    } else if dia > DiasNoMes(ano, mes) {
      var a := if mes == 12 then ano + 1 else ano;
      var m := if mes == 12 then 1 else mes + 1;
      RolarDiaNumero(a, m, dia - DiasNoMes(ano, mes));
      RolarParaFrente(ano, mes, dia);
    } else {
      NumeroNoMes(Data(ano, mes, dia));
    }
  }

  /** One step back: a day below 1 is the same day counted from the first of the previous month. */
  lemma RolarParaTras(ano: int, mes: int, dia: int)
    requires 1 <= mes <= 12 && dia < 1
    requires var a := if mes == 1 then ano - 1 else ano;
      var m := if mes == 1 then 12 else mes - 1;
      NumeroDoDia(RolarDia(a, m, dia + DiasNoMes(a, m))) == DiasCivis(a, m, 1) + dia + DiasNoMes(a, m) - 1
    ensures NumeroDoDia(RolarDia(ano, mes, dia)) == DiasCivis(ano, mes, 1) + dia - 1
  {
    var a := if mes == 1 then ano - 1 else ano;
    var m := if mes == 1 then 12 else mes - 1;
    assert RolarDia(ano, mes, dia) == RolarDia(a, m, dia + DiasNoMes(a, m));
    MesSeguinte(a, m);
  }

  /** One step forward: a day past the month's end is the same day counted from the first of the next month. */
  lemma RolarParaFrente(ano: int, mes: int, dia: int)
    requires 1 <= mes <= 12 && dia > DiasNoMes(ano, mes)
    requires var a := if mes == 12 then ano + 1 else ano;
      var m := if mes == 12 then 1 else mes + 1;
      NumeroDoDia(RolarDia(a, m, dia - DiasNoMes(ano, mes))) == DiasCivis(a, m, 1) + dia - DiasNoMes(ano, mes) - 1
    ensures NumeroDoDia(RolarDia(ano, mes, dia)) == DiasCivis(ano, mes, 1) + dia - 1
  {
    var a := if mes == 12 then ano + 1 else ano;
    var m := if mes == 12 then 1 else mes + 1;
    assert RolarDia(ano, mes, dia) == RolarDia(a, m, dia - DiasNoMes(ano, mes));
    MesSeguinte(ano, mes);
  }

  /** A day of a month is `dia - 1` days after the month's first. */
  lemma NumeroNoMes(d: Data)
    requires 1 <= d.mes <= 12
    ensures NumeroDoDia(d) == DiasCivis(d.ano, d.mes, 1) + d.dia - 1
  {
    assert (d.mes - 1) / 12 == 0 && (d.mes - 1) % 12 == d.mes - 1;
  }

  /**
   * The calendar day of `new Date(...)` has the day number of the same
   * call: the two views of the constructor agree.
   */
  lemma DataDeJsNumero(args: ArgumentosData)
    ensures NumeroDoDia(DataDeJs(args)) == DiaJs(args.ano, args.indiceMes, args.dia)
  {
    RolarDiaNumero(args.ano + args.indiceMes / 12, args.indiceMes % 12 + 1, args.dia);
  }

  /** A valid calendar day passed as `new Date(ano, mes - 1, dia)` comes back unchanged. */
  lemma DataDeJsValida(d: DataJs)
    ensures DataDeJs(ArgumentosData(d.ano, d.mes - 1, d.dia)) == d
  {
  }

  /** The March-based count of the days before year `y` of the era arithmetic in `DiasCivis`. */
  function InicioDeAno(y: int): int
  {
    var era := y / 400;
    var yoe := y - era * 400;
    era * 146097 + yoe * 365 + yoe / 4 - yoe / 100
  }

  lemma MarcoPeloInicio(ano: int)
    ensures DiasCivis(ano, 3, 1) == InicioDeAno(ano) - 719468
  {
  }

  lemma QuartoSeguinte(r: int)
    ensures r / 4 - (r - 1) / 4 == (if r % 4 == 0 then 1 else 0)
  {
  }

  lemma CentesimoSeguinte(r: int)
    ensures r / 100 - (r - 1) / 100 == (if r % 100 == 0 then 1 else 0)
  {
  }

  lemma InicioPorEra(e: int, r: int)
    requires 0 <= r < 400
    ensures InicioDeAno(e * 400 + r) == e * 146097 + r * 365 + r / 4 - r / 100
  {
    assert (e * 400 + r) / 400 == e;
  }

  lemma BissextoPorEra(e: int, r: int)
    requires 0 <= r < 400
    ensures Bissexto(e * 400 + r) <==> (r % 4 == 0 && r % 100 != 0) || r == 0
  {
    RestoDoAno(e, r);
  }

  lemma RestoDoAno(e: int, r: int)
    requires 0 <= r < 400
    ensures var y := e * 400 + r;
      y % 4 == r % 4 && y % 100 == r % 100 && y % 400 == r
  {
    var y := e * 400 + r;
    Resto4(y, e * 100 + r / 4, r % 4);
    Resto100(y, e * 4 + r / 100, r % 100);
    Resto400(y, e, r);
  }

  lemma Resto4(y: int, q: int, u: int)
    requires y == 4 * q + u && 0 <= u < 4
    ensures y % 4 == u
  {
  }

  lemma Resto100(y: int, q: int, u: int)
    requires y == 100 * q + u && 0 <= u < 100
    ensures y % 100 == u
  {
  }

  lemma Resto400(y: int, q: int, u: int)
    requires y == 400 * q + u && 0 <= u < 400
    ensures y % 400 == u
  {
  }

  lemma InicioSeguinte(e: int, r: int)
    requires 0 <= r < 400
    ensures InicioDeAno(e * 400 + r) - InicioDeAno(e * 400 + r - 1)
      == 365 + (if (r % 4 == 0 && r % 100 != 0) || r == 0 then 1 else 0)
  {
    if r == 0 {
      InicioNovaEra(e);
    } else {
      InicioMesmaEra(e, r);
    }
  }

  lemma InicioNovaEra(e: int)
    ensures InicioDeAno(e * 400) - InicioDeAno(e * 400 - 1) == 366
  {
    InicioPorEra(e, 0);
    InicioPorEra(e - 1, 399);
    assert e * 400 - 1 == (e - 1) * 400 + 399;
  }

  lemma InicioMesmaEra(e: int, r: int)
    requires 0 < r < 400
    ensures InicioDeAno(e * 400 + r) - InicioDeAno(e * 400 + r - 1)
      == 365 + (if r % 4 == 0 && r % 100 != 0 then 1 else 0)
  {
    InicioPorEra(e, r);
    InicioPorEra(e, r - 1);
    assert e * 400 + r - 1 == e * 400 + (r - 1);
    QuartoSeguinte(r);
    CentesimoSeguinte(r);
    if r % 100 == 0 {
      CentenaQuadrupla(r);
    }
  }

  lemma CentenaQuadrupla(r: int)
    requires r % 100 == 0
    ensures r % 4 == 0
  {
    assert r == (r / 100) * 100;
    assert r == ((r / 100) * 25) * 4;
  }

  /** From 1 March of the year before to 1 March of `ano` there are 365 days, 366 when `ano` is a leap year. */
  lemma AnoDeMarco(ano: int)
    ensures DiasCivis(ano, 3, 1) == DiasCivis(ano - 1, 3, 1) + 365 + (if Bissexto(ano) then 1 else 0)
  {
    MarcoPeloInicio(ano);
    MarcoPeloInicio(ano - 1);
    var e, r := ano / 400, ano % 400;
    assert ano == e * 400 + r;
    InicioSeguinte(e, r);
    BissextoPorEra(e, r);
  }

  /** The first of the next month is as many days after the first of this one as this month has. */
  lemma MesSeguinte(ano: int, mes: int)
    requires 1 <= mes <= 12
    ensures var a := if mes == 12 then ano + 1 else ano;
      var m := if mes == 12 then 1 else mes + 1;
      DiasCivis(a, m, 1) == DiasCivis(ano, mes, 1) + DiasNoMes(ano, mes)
  {
    if mes == 2 {
      AnoDeMarco(ano);
    }
  }

  /** Truncation leaves an integer, and an integer less one, unchanged. */
  lemma TruncInteiro(n: int)
    ensures Trunc(n as real) == n && Trunc(n as real - 1.0) == n - 1
  {
  }

  lemma ArgumentosInteiros(ano: int, mes: int, dia: int)
    requires ano >= 100
    ensures ArgumentosDosNumeros(Some(ano as real), Some(mes as real), Some(dia as real)) == Some(ArgumentosData(ano, mes - 1, dia))
  {
    TruncInteiro(ano);
    TruncInteiro(mes);
    TruncInteiro(dia);
  }

  lemma PartesNumerais(partes: seq<string>, y: int, m: int, d: int)
    requires y >= 100
    requires NumeroDaParte(partes, 0) == Some(y as real)
    requires NumeroDaParte(partes, 1) == Some(m as real)
    requires NumeroDaParte(partes, 2) == Some(d as real)
    ensures ArgumentosDasPartes(partes) == Some(ArgumentosData(y, m - 1, d))
  {
    ArgumentosInteiros(y, m, d);
  }

  /** Consecutive days of a month have consecutive day numbers. */
  lemma DiaSeguinte(ano: int, mes: int, dia: int)
    requires 1 <= mes <= 12
    ensures NumeroDoDia(Data(ano, mes, dia + 1)) == NumeroDoDia(Data(ano, mes, dia)) + 1
  {
  }
}

/**
 * The dashboard's statistics cards: the day's billing (`DashboardFaturamento`),
 * the income chart grouped by consultation type (`DashboardGrafico`), and the
 * counts of concluded and cancelled consultations (`DashboardConcluidas`,
 * `DashboardCanceladas`). Amounts are exact reals; a missing or null
 * `valorCobrado` counts as 0.
 */
module EstatisticasPainel {
  import opened Wrappers
  import opened Text
  import opened Modelo
  import opened Filtro

  /** `c.valorCobrado || 0`. */
  function ValorOuZero(c: Consulta): real
  {
    c.valorCobrado.GetOr(0.0)
  }

  /** `cs.map(c => c.valorCobrado || 0)`. */
  function Valores(cs: seq<Consulta>): (r: seq<real>)
    ensures |r| == |cs| && forall k :: 0 <= k < |cs| ==> r[k] == ValorOuZero(cs[k])
  {
    if cs == [] then [] else Valores(cs[..|cs| - 1]) + [ValorOuZero(cs[|cs| - 1])]
  }

  /** `reduce((acc, v) => acc + v, 0)`, accumulated from the first element. */
  function Soma(vs: seq<real>): real
  {
    if vs == [] then 0.0 else Soma(vs[..|vs| - 1]) + vs[|vs| - 1]
  }

  /** `reduce((max, v) => Math.max(max, v), 0)`, the same as `Math.max(...vs, 0)`. */
  function Maior(vs: seq<real>): real
  {
    if vs == [] then 0.0
    else
      var m := Maior(vs[..|vs| - 1]);
      if m >= vs[|vs| - 1] then m else vs[|vs| - 1]
  }

  /**
   * The largest value is the least bound of 0 and every amount: it is at
   * least 0 and at least each amount, and it is 0 or one of the amounts.
   */
  lemma {:induction false} MaiorCaracterizacao(vs: seq<real>)
    ensures Maior(vs) >= 0.0
    ensures forall k :: 0 <= k < |vs| ==> vs[k] <= Maior(vs)
    ensures Maior(vs) == 0.0 || exists k :: 0 <= k < |vs| && vs[k] == Maior(vs)
  {
    if vs != [] {
      MaiorCaracterizacao(vs[..|vs| - 1]);
    }
  }

  /** The sum never exceeds the count times the largest amount. */
  lemma {:induction false} SomaLimitada(vs: seq<real>)
    ensures Soma(vs) <= (|vs| as real) * Maior(vs)
  {
    if vs != [] {
      var ini := vs[..|vs| - 1];
      SomaLimitada(ini);
      MaiorCaracterizacao(ini);
      var m := Maior(ini);
      var n := |ini| as real;
      assert n * m <= n * Maior(vs) by {
        assert Maior(vs) - m >= 0.0;
        assert n * Maior(vs) - n * m == n * (Maior(vs) - m);
      }
    }
  }

  /** With no negative amount, the largest amount is at most the sum. */
  lemma {:induction false} MaiorAteSoma(vs: seq<real>)
    requires forall k :: 0 <= k < |vs| ==> vs[k] >= 0.0
    ensures Maior(vs) <= Soma(vs)
    ensures Soma(vs) >= 0.0
  {
    if vs != [] {
      MaiorAteSoma(vs[..|vs| - 1]);
    }
  }

  /** `vs.length > 0 ? soma / vs.length : 0`. */
  function Media(vs: seq<real>): real
  {
    if |vs| > 0 then Soma(vs) / (|vs| as real) else 0.0
  }

  lemma ProdutoPositivo(x: real, y: real)
    requires x > 0.0 && y > 0.0
    ensures x * y > 0.0
  {
  }

  lemma DivisaoLimitada(t: real, n: real, m: real)
    requires n > 0.0 && t <= n * m
    ensures t / n <= m
  {
    var q := t / n;
    assert q * n == t;
    if q > m {
      ProdutoPositivo(q - m, n);
    }
  }

  /** The average never exceeds the largest amount, and with no negative amount it is not negative. */
  lemma MediaLimitada(vs: seq<real>)
    ensures Media(vs) <= Maior(vs)
    ensures (forall k :: 0 <= k < |vs| ==> vs[k] >= 0.0) ==> Media(vs) >= 0.0
  {
    MaiorCaracterizacao(vs);
    if |vs| > 0 {
      SomaLimitada(vs);
      DivisaoLimitada(Soma(vs), |vs| as real, Maior(vs));
      if forall k :: 0 <= k < |vs| ==> vs[k] >= 0.0 {
        MaiorAteSoma(vs);
      }
    }
  }

  /** `consulta.dataConclusao && consulta.dataConclusao.slice(0, 10) === hojeStr` with status CONCLUIDA. */
  predicate ConcluidaHoje(c: Consulta, hoje: string)
  {
    c.status == Concluida && c.dataConclusao.Valor? && c.dataConclusao.v != ""
    && Slice(c.dataConclusao.v, 0, 10) == hoje
  }

  /** `consultas.filter(...)`: the consultations concluded on the day whose UTC date key is `hoje`. */
  function ConcluidasHoje(consultas: seq<Consulta>, hoje: string): seq<Consulta>
  {
    Selecionar(consultas, c => ConcluidaHoje(c, hoje))
  }

  /** The figures of the billing card. */
  datatype Faturamento = Faturamento(total: real, ticketMedio: real, maiorValor: real)

  /**
   * `DashboardFaturamento`: the total of the consultations concluded on the
   * day, their average (0 when there is none) and their largest amount
   * (never below 0).
   */
  function FaturamentoDoDia(consultas: seq<Consulta>, hoje: string): Faturamento
  {
    var valores := Valores(ConcluidasHoje(consultas, hoje));
    Faturamento(Soma(valores), Media(valores), Maior(valores))
  }

  /**
   * The card only counts consultations concluded that day; with none the
   * three figures are 0; the largest figure bounds every counted amount
   * and the average; and with no negative amounts the average, the
   * largest amount and the total are ordered.
   */
  lemma FaturamentoCaracterizacao(consultas: seq<Consulta>, hoje: string)
    ensures var f := FaturamentoDoDia(consultas, hoje);
      && f.maiorValor >= 0.0
      && (forall c :: c in consultas && ConcluidaHoje(c, hoje) ==> ValorOuZero(c) <= f.maiorValor)
      && f.ticketMedio <= f.maiorValor
      && ((forall c :: c in consultas ==> !ConcluidaHoje(c, hoje)) ==> f == Faturamento(0.0, 0.0, 0.0))
      && ((forall c :: c in consultas ==> ValorOuZero(c) >= 0.0) ==> 0.0 <= f.ticketMedio && f.maiorValor <= f.total)
  {
    var hojeLista := ConcluidasHoje(consultas, hoje);
    var vs := Valores(hojeLista);
    SelecionarCaracterizacao(consultas, c => ConcluidaHoje(c, hoje));
    MaiorCaracterizacao(vs);
    MediaLimitada(vs);
    forall c | c in consultas && ConcluidaHoje(c, hoje)
      ensures ValorOuZero(c) <= Maior(vs)
    {
      var k :| 0 <= k < |hojeLista| && hojeLista[k] == c;
      assert vs[k] == ValorOuZero(c);
    }
    if forall c :: c in consultas ==> ValorOuZero(c) >= 0.0 {
      assert forall k :: 0 <= k < |vs| ==> vs[k] >= 0.0 by {
        forall k | 0 <= k < |vs|
          ensures vs[k] >= 0.0
        {
          assert hojeLista[k] in consultas;
        }
      }
      MaiorAteSoma(vs);
    }
  }

  /** `DashboardConcluidas`: the consultations whose `dataConclusao` is neither null nor absent (`!= null`). */
  function ContarConcluidas(consultas: seq<Consulta>): nat
  {
    |Selecionar(consultas, (c: Consulta) => c.dataConclusao.Valor?)|
  }

  /** `DashboardCanceladas`: the consultations with status CANCELADA. */
  function ContarCanceladas(consultas: seq<Consulta>): nat
  {
    |Selecionar(consultas, (c: Consulta) => c.status == Cancelada)|
  }

  /**
   * Both counts are at most the number of consultations, are 0 for an
   * empty list, add up over concatenated lists, and every consultation the
   * billing card counts is also counted as concluded.
   */
  lemma ContagensCaracterizacao(a: seq<Consulta>, b: seq<Consulta>, hoje: string)
    ensures ContarConcluidas(a) <= |a| && ContarCanceladas(a) <= |a|
    ensures ContarConcluidas([]) == 0 && ContarCanceladas([]) == 0
    ensures ContarConcluidas(a + b) == ContarConcluidas(a) + ContarConcluidas(b)
    ensures ContarCanceladas(a + b) == ContarCanceladas(a) + ContarCanceladas(b)
    ensures |Selecionar(a, c => ConcluidaHoje(c, hoje))| <= ContarConcluidas(a)
  {
    SelecionarConcat(a, b, (c: Consulta) => c.dataConclusao.Valor?);
    SelecionarConcat(a, b, (c: Consulta) => c.status == Cancelada);
    SelecionarImplica(a, c => ConcluidaHoje(c, hoje), (c: Consulta) => c.dataConclusao.Valor?);
  }

  /** A cancelled consultation is counted and so is a concluded one; one without `dataConclusao` is not concluded. */
  lemma ContagemUnitaria(c: Consulta)
    ensures ContarCanceladas([c]) == (if c.status == Cancelada then 1 else 0)
    ensures ContarConcluidas([c]) == (if c.dataConclusao.Valor? then 1 else 0)
  {
    assert [c][1..] == [];
  }

  /** One bar of the income chart: `{ name, value }`. */
  datatype Barra = Barra(name: string, value: real)

  /** `curr.tipoConsulta?.nome || "Outro"`: a missing or empty type name goes to "Outro". */
  function NomeDoGrupo(c: Consulta): string
  {
    if c.tipoConsulta.Some? && c.tipoConsulta.value.nome != "" then c.tipoConsulta.value.nome else "Outro"
  }

  /** The position of the bar named `nome`, if the accumulator has one (`acc[nome]`). */
  function IndiceDe(barras: seq<Barra>, nome: string): (r: Option<nat>)
    ensures r.Some? ==> r.value < |barras| && barras[r.value].name == nome
    ensures r.None? <==> forall i :: 0 <= i < |barras| ==> barras[i].name != nome
  {
    if barras == [] then None
    else if barras[0].name == nome then Some(0)
    else
      var r := IndiceDe(barras[1..], nome);
      if r.Some? then Some(r.value + 1) else None
  }

  /** One step of the reduce: create the bar at 0 if it is new, then add the amount. */
  function Acumular(barras: seq<Barra>, nome: string, valor: real): seq<Barra>
  {
    var i := IndiceDe(barras, nome);
    if i.Some? then barras[i.value := Barra(nome, barras[i.value].value + valor)]
    else barras + [Barra(nome, 0.0 + valor)]
  }

  /** `Object.values(consultas.reduce(...))`: one bar per type, in order of first appearance. */
  function Agrupado(cs: seq<Consulta>): seq<Barra>
  {
    if cs == [] then []
    else Acumular(Agrupado(cs[..|cs| - 1]), NomeDoGrupo(cs[|cs| - 1]), ValorOuZero(cs[|cs| - 1]))
  }

  /** The amounts of the consultations of one group. */
  function SomaDoGrupo(cs: seq<Consulta>, nome: string): real
  {
    if cs == [] then 0.0
    else SomaDoGrupo(cs[..|cs| - 1], nome) + (if NomeDoGrupo(cs[|cs| - 1]) == nome then ValorOuZero(cs[|cs| - 1]) else 0.0)
  }

  /** The amount of the bar named `nome`, 0 when there is none. */
  function ValorDe(barras: seq<Barra>, nome: string): real
  {
    var i := IndiceDe(barras, nome);
    if i.Some? then barras[i.value].value else 0.0
  }

  /** No two bars share a name. */
  predicate NomesDistintos(barras: seq<Barra>)
  {
    forall i, j :: 0 <= i < j < |barras| ==> barras[i].name != barras[j].name
  }

  /** The sum of the chart's bars. */
  function TotalDasBarras(barras: seq<Barra>): real
  {
    if barras == [] then 0.0 else TotalDasBarras(barras[..|barras| - 1]) + barras[|barras| - 1].value
  }

  lemma {:induction false} IndiceDeMesmosNomes(g: seq<Barra>, h: seq<Barra>, nome: string)
    requires |g| == |h| && forall i :: 0 <= i < |g| ==> g[i].name == h[i].name
    ensures IndiceDe(g, nome) == IndiceDe(h, nome)
  {
    if g != [] {
      IndiceDeMesmosNomes(g[1..], h[1..], nome);
    }
  }

  lemma {:induction false} IndiceDeAcrescentado(g: seq<Barra>, b: Barra, nome: string)
    ensures IndiceDe(g + [b], nome) ==
      if IndiceDe(g, nome).Some? then IndiceDe(g, nome) else if b.name == nome then Some(|g|) else None
  {
    if g != [] {
      assert (g + [b])[1..] == g[1..] + [b];
      IndiceDeAcrescentado(g[1..], b, nome);
    }
  }

  /** One step of the reduce adds the amount to its own group's bar and to no other. */
  lemma AcumularValorDe(g: seq<Barra>, nome: string, v: real, n: string)
    ensures ValorDe(Acumular(g, nome, v), n) == ValorDe(g, n) + (if n == nome then v else 0.0)
  {
    var k := IndiceDe(g, nome);
    var h := Acumular(g, nome, v);
    if k.Some? {
      IndiceDeMesmosNomes(g, h, n);
    } else {
      IndiceDeAcrescentado(g, Barra(nome, 0.0 + v), n);
    }
  }

  /** One step of the reduce adds a bar only for a new name and keeps the names distinct. */
  lemma AcumularNomes(g: seq<Barra>, nome: string, v: real)
    requires NomesDistintos(g)
    ensures var h := Acumular(g, nome, v);
      && NomesDistintos(h)
      && |h| == (if IndiceDe(g, nome).Some? then |g| else |g| + 1)
      && forall n :: IndiceDe(h, n).Some? <==> IndiceDe(g, n).Some? || n == nome
  {
    var k := IndiceDe(g, nome);
    var h := Acumular(g, nome, v);
    forall n
      ensures IndiceDe(h, n).Some? <==> IndiceDe(g, n).Some? || n == nome
    {
      if k.Some? {
        IndiceDeMesmosNomes(g, h, n);
      } else {
        IndiceDeAcrescentado(g, Barra(nome, 0.0 + v), n);
      }
    }
  }

  lemma {:induction false} TotalAtualizado(barras: seq<Barra>, i: nat, b: Barra)
    requires i < |barras|
    ensures TotalDasBarras(barras[i := b]) == TotalDasBarras(barras) - barras[i].value + b.value
  {
    var n := |barras| - 1;
    if i < n {
      assert barras[i := b][..n] == barras[..n][i := b];
      TotalAtualizado(barras[..n], i, b);
    } else {
      assert barras[i := b][..n] == barras[..n];
    }
  }

  /** One step of the reduce adds the amount to the chart's total. */
  lemma AcumularTotal(g: seq<Barra>, nome: string, v: real)
    ensures TotalDasBarras(Acumular(g, nome, v)) == TotalDasBarras(g) + v
  {
    var k := IndiceDe(g, nome);
    if k.Some? {
      TotalAtualizado(g, k.value, Barra(nome, g[k.value].value + v));
    } else {
      assert (g + [Barra(nome, 0.0 + v)])[..|g|] == g;
    }
  }

  /** Each group's bar holds the sum of that group's amounts; a group with no consultation has no bar. */
  lemma {:induction false} AgrupadoValores(cs: seq<Consulta>, n: string)
    ensures ValorDe(Agrupado(cs), n) == SomaDoGrupo(cs, n)
  {
    if cs != [] {
      var u := cs[|cs| - 1];
      AgrupadoValores(cs[..|cs| - 1], n);
      AcumularValorDe(Agrupado(cs[..|cs| - 1]), NomeDoGrupo(u), ValorOuZero(u), n);
    }
  }

  /** The bars add up to the sum of all the amounts. */
  lemma {:induction false} AgrupadoTotal(cs: seq<Consulta>)
    ensures TotalDasBarras(Agrupado(cs)) == Soma(Valores(cs))
  {
    if cs != [] {
      var u := cs[|cs| - 1];
      AgrupadoTotal(cs[..|cs| - 1]);
      AcumularTotal(Agrupado(cs[..|cs| - 1]), NomeDoGrupo(u), ValorOuZero(u));
      assert Valores(cs)[..|cs| - 1] == Valores(cs[..|cs| - 1]);
    }
  }

  /**
   * No name has two bars; a name has a bar exactly when some consultation
   * falls in that group; and there are never more bars than consultations.
   */
  lemma {:induction false} AgrupadoNomes(cs: seq<Consulta>)
    ensures var g := Agrupado(cs);
      && NomesDistintos(g)
      && |g| <= |cs|
      && forall nome :: IndiceDe(g, nome).Some? <==> exists c :: c in cs && NomeDoGrupo(c) == nome
  {
    if cs != [] {
      var ini := cs[..|cs| - 1];
      var u := cs[|cs| - 1];
      AgrupadoNomes(ini);
      AcumularNomes(Agrupado(ini), NomeDoGrupo(u), ValorOuZero(u));
      assert cs == ini + [u];
      assert forall c :: c in cs <==> c in ini || c == u;
    }
  }

  /** One step of the reduce keeps the bars it had, in place, under their names. */
  lemma AcumularMantemNomes(g: seq<Barra>, nome: string, v: real)
    ensures |Acumular(g, nome, v)| >= |g|
    ensures forall i :: 0 <= i < |g| ==> Acumular(g, nome, v)[i].name == g[i].name
  {
  }

  /**
   * The bars come in the order their groups first appear: the bars of a
   * prefix of the consultations are, name for name, the first bars of the
   * whole chart.
   */
  lemma {:induction false} AgrupadoOrdem(cs: seq<Consulta>, k: nat)
    requires k <= |cs|
    ensures |Agrupado(cs[..k])| <= |Agrupado(cs)|
    ensures forall i :: 0 <= i < |Agrupado(cs[..k])| ==> Agrupado(cs)[i].name == Agrupado(cs[..k])[i].name
    decreases |cs| - k
  {
    if k == |cs| {
      assert cs[..k] == cs;
    } else {
      var ini := cs[..|cs| - 1];
      var u := cs[|cs| - 1];
      assert ini[..k] == cs[..k];
      AgrupadoOrdem(ini, k);
      AcumularMantemNomes(Agrupado(ini), NomeDoGrupo(u), ValorOuZero(u));
    }
  }

  /** With distinct names, a bar's amount is the one `ValorDe` finds for its name. */
  lemma {:induction false} ValorDeDistintos(g: seq<Barra>, i: nat)
    requires NomesDistintos(g) && i < |g|
    ensures ValorDe(g, g[i].name) == g[i].value
  {
    var k := IndiceDe(g, g[i].name);
    assert k.Some?;
  }

  /**
   * The chart, bar by bar: every bar holds the sum of its group's amounts,
   * and the bars add up to the total of the concluded consultations.
   */
  lemma AgrupadoCaracterizacao(cs: seq<Consulta>)
    ensures var g := Agrupado(cs);
      && (forall i :: 0 <= i < |g| ==> g[i].value == SomaDoGrupo(cs, g[i].name))
      && TotalDasBarras(g) == Soma(Valores(cs))
  {
    var g := Agrupado(cs);
    AgrupadoNomes(cs);
    AgrupadoTotal(cs);
    forall i | 0 <= i < |g|
      ensures g[i].value == SomaDoGrupo(cs, g[i].name)
    {
      ValorDeDistintos(g, i);
      AgrupadoValores(cs, g[i].name);
    }
  }

  /** `c.status == "CONCLUIDA"`, the chart's filter: every concluded consultation, of any month. */
  function ConcluidasDoGrafico(consultas: seq<Consulta>): seq<Consulta>
  {
    Selecionar(consultas, (c: Consulta) => c.status == Concluida)
  }

  lemma AgrupadoPasso(cs: seq<Consulta>, i: nat)
    requires i < |cs|
    ensures Agrupado(cs[..i + 1]) == Acumular(Agrupado(cs[..i]), NomeDoGrupo(cs[i]), ValorOuZero(cs[i]))
  {
    assert cs[..i + 1][..i] == cs[..i];
  }

  /** The reduce's callback: `if (!acc[nome]) acc[nome] = { name: nome, value: 0 }; acc[nome].value += valor`. */
  method SomarAoGrupo(acc: seq<Barra>, nome: string, valor: real) returns (r: seq<Barra>)
    ensures r == Acumular(acc, nome, valor)
  {
    r := acc;
    var k := IndiceDe(r, nome);
    if k.None? {
      r := r + [Barra(nome, 0.0)];
      k := Some(|r| - 1);
    }
    r := r[k.value := Barra(nome, r[k.value].value + valor)];
  }

  /** The reduce as a loop over the concluded consultations. */
  method AgruparPorTipo(concluidas: seq<Consulta>) returns (barras: seq<Barra>)
    ensures barras == Agrupado(concluidas)
  {
    barras := [];
    var i := 0;
    while i < |concluidas|
      invariant 0 <= i <= |concluidas|
      invariant barras == Agrupado(concluidas[..i])
    {
      var curr := concluidas[i];
      barras := SomarAoGrupo(barras, NomeDoGrupo(curr), ValorOuZero(curr));
      AgrupadoPasso(concluidas, i);
      i := i + 1;
    }
    assert concluidas[..i] == concluidas;
  }

  /** `DashboardGrafico`: the concluded consultations and the chart built from them. */
  class GraficoDashboard {
    var consultas: seq<Consulta>
    var dataGrafico: seq<Barra>
    var efeitos: seq<Efeito>

    constructor ()
      ensures consultas == [] && dataGrafico == [] && efeitos == []
    {
      consultas, dataGrafico, efeitos := [], [], [];
    }

    /**
     * `fetchConsultas`, run on mount and whenever `refreshKey` changes:
     * GET /consultas; with an answer, the concluded consultations and their
     * bars replace the old ones. A failed request is not caught and changes
     * nothing.
     */
    method FetchConsultas(resposta: Option<seq<Consulta>>)
      modifies this
      ensures efeitos == old(efeitos) + [Http(GetConsultas)]
      ensures resposta.Some? ==> consultas == ConcluidasDoGrafico(resposta.value) && dataGrafico == Agrupado(consultas)
      ensures resposta.None? ==> consultas == old(consultas) && dataGrafico == old(dataGrafico)
    {
      efeitos := efeitos + [Http(GetConsultas)];
      if resposta.Some? {
        var consultasConcluidas := ConcluidasDoGrafico(resposta.value);
        consultas := consultasConcluidas;
        dataGrafico := AgruparPorTipo(consultasConcluidas);
      }
    }
  }
}

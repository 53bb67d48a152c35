/**
 * The two pages that list consultations: `ConsultasAgendadas`, with its
 * date, status and text filters and its status counts, and `Dashboard`,
 * with its day list of scheduled consultations, the three nearest
 * patients and the cancel action that refreshes the chart. The date
 * picked in the filter is held as its YYYY-MM-DD key
 * (`toISOString().slice(0, 10)`), and the current instant as milliseconds.
 */
module PaginasConsultas {
  import opened Wrappers
  import opened Text
  import opened Modelo
  import opened Paginacao
  import opened Filtro

  /** `statusFiltro`'s initial value: only the consultations not yet concluded. */
  const StatusFiltroInicial: string := "agendadas"

  /** The date filter: with a date, only consultations on a slot of that date. */
  predicate PassaData(c: Consulta, dataFiltro: Option<string>)
  {
    dataFiltro.None? || (c.agendaDisponivel.Some? && c.agendaDisponivel.value.data == dataFiltro.value)
  }

  /**
   * The status filter: "agendadas" keeps `dataConclusao === null`,
   * "concluidas" the rest (an absent field included), "todas" and any
   * other value keep everything.
   */
  predicate PassaStatus(c: Consulta, statusFiltro: string)
  {
    statusFiltro == "todas"
    || ((statusFiltro == "agendadas" ==> c.dataConclusao == Nulo)
        && (statusFiltro == "concluidas" ==> c.dataConclusao != Nulo))
  }

  /** `nome?.toLowerCase().includes(termo)` for an optional record's name. */
  predicate NomeContem(nome: Option<string>, termo: string)
  {
    nome.Some? && Includes(ToLower(nome.value), termo)
  }

  /**
   * The text filter: applied only when the trimmed term is not empty, it
   * matches the lower-cased, untrimmed term against the patient's or the
   * type's name.
   */
  predicate PassaBusca(c: Consulta, searchTerm: string)
  {
    var termo := ToLower(searchTerm);
    Trim(searchTerm) == ""
    || NomeContem(if c.paciente.Some? then Some(c.paciente.value.nome) else None, termo)
    || NomeContem(if c.tipoConsulta.Some? then Some(c.tipoConsulta.value.nome) else None, termo)
  }

  predicate PassaFiltros(c: Consulta, dataFiltro: Option<string>, statusFiltro: string, searchTerm: string)
  {
    PassaData(c, dataFiltro) && PassaStatus(c, statusFiltro) && PassaBusca(c, searchTerm)
  }

  /** `consultasFiltradas`. */
  function ConsultasFiltradas(consultas: seq<Consulta>, dataFiltro: Option<string>, statusFiltro: string, searchTerm: string): seq<Consulta>
  {
    Selecionar(consultas, c => PassaFiltros(c, dataFiltro, statusFiltro, searchTerm))
  }

  /**
   * A consultation is listed exactly when it is in the list and passes the
   * three filters at once; the list keeps the original order (filtering
   * two lists in a row is filtering each); and with no date, "todas" and a
   * blank term every consultation is listed.
   */
  lemma FiltradasCaracterizacao(consultas: seq<Consulta>, mais: seq<Consulta>, dataFiltro: Option<string>, statusFiltro: string, searchTerm: string)
    ensures forall c :: c in ConsultasFiltradas(consultas, dataFiltro, statusFiltro, searchTerm) <==>
      c in consultas && PassaData(c, dataFiltro) && PassaStatus(c, statusFiltro) && PassaBusca(c, searchTerm)
    ensures ConsultasFiltradas(consultas + mais, dataFiltro, statusFiltro, searchTerm) ==
      ConsultasFiltradas(consultas, dataFiltro, statusFiltro, searchTerm) + ConsultasFiltradas(mais, dataFiltro, statusFiltro, searchTerm)
    ensures dataFiltro.None? && statusFiltro == "todas" && Trim(searchTerm) == "" ==>
      ConsultasFiltradas(consultas, dataFiltro, statusFiltro, searchTerm) == consultas
  {
    SelecionarCaracterizacao(consultas, c => PassaFiltros(c, dataFiltro, statusFiltro, searchTerm));
    SelecionarConcat(consultas, mais, c => PassaFiltros(c, dataFiltro, statusFiltro, searchTerm));
  }

  /**
   * "agendadas" and "concluidas" split the list: with the same date and
   * term, every consultation "todas" shows is in exactly one of the two.
   */
  lemma StatusParticao(consultas: seq<Consulta>, dataFiltro: Option<string>, searchTerm: string)
    ensures |ConsultasFiltradas(consultas, dataFiltro, "agendadas", searchTerm)|
          + |ConsultasFiltradas(consultas, dataFiltro, "concluidas", searchTerm)|
         == |ConsultasFiltradas(consultas, dataFiltro, "todas", searchTerm)|
  {
    SelecionarParticao(consultas,
      c => PassaFiltros(c, dataFiltro, "todas", searchTerm),
      c => PassaFiltros(c, dataFiltro, "agendadas", searchTerm),
      c => PassaFiltros(c, dataFiltro, "concluidas", searchTerm));
  }

  /**
   * "agendadas" looks only at `dataConclusao`: a cancelled consultation
   * with a null conclusion date is listed, a concluded one whose field is
   * absent is not.
   */
  lemma StatusSoOlhaConclusao(c: Consulta)
    ensures PassaStatus(c, "agendadas") <==> c.dataConclusao == Nulo
    ensures PassaStatus(c, "concluidas") <==> c.dataConclusao != Nulo
    ensures PassaStatus(c, "todas")
  {
  }

  /** A consultation without a slot is dropped as soon as a date is chosen. */
  lemma SemSlotSemData(c: Consulta, data: string, statusFiltro: string, searchTerm: string)
    requires c.agendaDisponivel.None?
    ensures !PassaFiltros(c, Some(data), statusFiltro, searchTerm)
    ensures ConsultasFiltradas([c], Some(data), statusFiltro, searchTerm) == []
  {
    assert [c][1..] == [];
  }

  /** A blank term, spaces included, filters nothing; a non-blank one is matched untrimmed. */
  lemma BuscaEmBranco(c: Consulta, searchTerm: string)
    ensures Trim(searchTerm) == "" ==> PassaBusca(c, searchTerm)
    ensures Trim(searchTerm) != "" && c.paciente.None? && c.tipoConsulta.None? ==> !PassaBusca(c, searchTerm)
  {
  }

  /** The number of consultations with a status. */
  function ContarStatus(consultas: seq<Consulta>, s: Status): nat
  {
    |Selecionar(consultas, (c: Consulta) => c.status == s)|
  }

  /** `stats` of `ConsultasAgendadas`. */
  datatype Contagens = Contagens(total: nat, agendadas: nat, concluidas: nat, canceladas: nat)

  function ContagensDe(consultas: seq<Consulta>): Contagens
  {
    Contagens(|consultas|, ContarStatus(consultas, Agendada), ContarStatus(consultas, Concluida), ContarStatus(consultas, Cancelada))
  }

  /** Every consultation has exactly one of the three statuses, so the three counts add up to the total. */
  lemma {:induction false} ContagensSomam(consultas: seq<Consulta>)
    ensures var k := ContagensDe(consultas); k.agendadas + k.concluidas + k.canceladas == k.total
  {
    if consultas != [] {
      ContagensSomam(consultas[1..]);
    }
  }

  /** "Mostrando a..b de n": the first and last positions, counted from 1, of page `pagina`. */
  function Intervalo(pagina: int, tamanho: nat, n: nat): (int, int)
  {
    ((pagina - 1) * tamanho + 1, if pagina * tamanho < n then pagina * tamanho else n)
  }

  /**
   * For an existing page the range is the positions of exactly the records
   * the page shows; past the last page, which the page kept across a
   * narrower search can be, it comes out inverted.
   */
  lemma IntervaloCaracterizacao<T>(itens: seq<T>, pagina: int, tamanho: nat)
    requires tamanho > 0 && pagina >= 1
    ensures var (de, ate) := Intervalo(pagina, tamanho, |itens|);
      && (pagina <= Teto(|itens|, tamanho) ==>
            1 <= de <= ate <= |itens| && Fatia(itens, pagina, tamanho) == itens[de - 1..ate])
      && (pagina > Teto(|itens|, tamanho) ==> ate < de && Fatia(itens, pagina, tamanho) == [])
  {
    var n := |itens|;
    TetoCaracterizacao(n, tamanho);
    FatiaCaracterizacao(itens, pagina, tamanho);
    var t := Teto(n, tamanho);
    assert pagina * tamanho == (pagina - 1) * tamanho + tamanho;
    if pagina <= t {
      MultiplicacaoMonotona(t - 1, pagina - 1, tamanho);
    } else {
      MultiplicacaoMonotona(pagina - 1, t, tamanho);
    }
  }

  /** The dashboard's list: the consultations of the day with status AGENDADA. */
  function ConsultasAgendadasDoPainel(consultas: seq<Consulta>): seq<Consulta>
  {
    Selecionar(consultas, (c: Consulta) => c.status == Agendada)
  }

  /** The records of one page of the dashboard's list (`paginatedItems(consultasAgendadas)`). */
  function ConsultasPaginadas(consultas: seq<Consulta>, pagina: int, tamanho: nat): seq<Consulta>
  {
    Fatia(ConsultasAgendadasDoPainel(consultas), pagina, tamanho)
  }

  /** The dashboard pages over the scheduled consultations only: every record shown is AGENDADA and of the day. */
  lemma PaginacaoSoAgendadas(consultas: seq<Consulta>, pagina: int, tamanho: nat)
    ensures |ConsultasPaginadas(consultas, pagina, tamanho)| <= tamanho
    ensures forall c :: c in ConsultasPaginadas(consultas, pagina, tamanho) ==> c in consultas && c.status == Agendada
  {
    var ag := ConsultasAgendadasDoPainel(consultas);
    FatiaCaracterizacao(ag, pagina, tamanho);
    var a := SliceIndex((pagina - 1) * tamanho, |ag|);
    var b := SliceIndex(pagina * tamanho, |ag|);
    forall c | c in ConsultasPaginadas(consultas, pagina, tamanho)
      ensures c in ag
    {
      assert a < b;
      var k :| 0 <= k < b - a && ag[a..b][k] == c;
      assert ag[a + k] == c;
    }
  }

  /** A candidate for the "next patients" card: the consultation and its distance from now (`{...c, diff}`). */
  datatype Proximo = Proximo(consulta: Consulta, diff: nat)

  /** `Math.abs(inicio - agora)`. */
  function Distancia(inicio: int, agora: int): nat
  {
    if inicio >= agora then inicio - agora else agora - inicio
  }

  /** `c.dataHoraInicio && c.status === AGENDADA`. */
  predicate Elegivel(c: Consulta)
  {
    c.inicio.Some? && c.status == Agendada
  }

  /** The filter and the map: the eligible consultations with their distances, in order. */
  function Candidatos(consultas: seq<Consulta>, agora: int): (r: seq<Proximo>)
    ensures |r| <= |consultas|
    ensures forall k :: 0 <= k < |r| ==>
      r[k].consulta in consultas && Elegivel(r[k].consulta) && r[k].diff == Distancia(r[k].consulta.inicio.value, agora)
  {
    if consultas == [] then []
    else
      var c := consultas[0];
      (if Elegivel(c) then [Proximo(c, Distancia(c.inicio.value, agora))] else []) + Candidatos(consultas[1..], agora)
  }

  lemma {:induction false} CandidatosCompletos(consultas: seq<Consulta>, agora: int, c: Consulta)
    requires c in consultas && Elegivel(c)
    ensures Proximo(c, Distancia(c.inicio.value, agora)) in Candidatos(consultas, agora)
  {
    if consultas[0] != c {
      CandidatosCompletos(consultas[1..], agora, c);
    }
  }

  predicate Ordenado(s: seq<Proximo>)
  {
    forall i, j :: 0 <= i < j < |s| ==> s[i].diff <= s[j].diff
  }

  /** Inserting in front of the first element at least as far: equal distances keep their order. */
  function Inserir(x: Proximo, s: seq<Proximo>): seq<Proximo>
  {
    if s == [] || x.diff <= s[0].diff then [x] + s else [s[0]] + Inserir(x, s[1..])
  }

  /** Inserting keeps a lower bound every entry already meets. */
  lemma {:induction false} InserirLimite(x: Proximo, s: seq<Proximo>, m: nat)
    requires x.diff >= m && forall k :: 0 <= k < |s| ==> s[k].diff >= m
    ensures forall k :: 0 <= k < |Inserir(x, s)| ==> Inserir(x, s)[k].diff >= m
  {
    if s != [] && x.diff > s[0].diff {
      InserirLimite(x, s[1..], m);
    }
  }

  lemma {:induction false} InserirOrdenado(x: Proximo, s: seq<Proximo>)
    requires Ordenado(s)
    ensures Ordenado(Inserir(x, s))
  {
    if s != [] && x.diff > s[0].diff {
      InserirOrdenado(x, s[1..]);
      InserirLimite(x, s[1..], s[0].diff);
    }
  }

  lemma {:induction false} InserirPermuta(x: Proximo, s: seq<Proximo>)
    ensures multiset(Inserir(x, s)) == multiset(s) + multiset{x}
  {
    if s != [] && x.diff > s[0].diff {
      InserirPermuta(x, s[1..]);
      assert s == [s[0]] + s[1..];
    }
  }

  /** `sort((a, b) => a.diff - b.diff)`: a stable sort by distance. */
  function OrdenarPorDiff(s: seq<Proximo>): seq<Proximo>
  {
    if s == [] then [] else Inserir(s[0], OrdenarPorDiff(s[1..]))
  }

  /** The sort yields the same entries, in increasing distance. */
  lemma {:induction false} OrdenarCaracterizacao(s: seq<Proximo>)
    ensures Ordenado(OrdenarPorDiff(s))
    ensures multiset(OrdenarPorDiff(s)) == multiset(s)
  {
    if s != [] {
      OrdenarCaracterizacao(s[1..]);
      InserirOrdenado(s[0], OrdenarPorDiff(s[1..]));
      InserirPermuta(s[0], OrdenarPorDiff(s[1..]));
      assert s == [s[0]] + s[1..];
    }
  }

  /** `proximosPacientes`: the first three after sorting. */
  function ProximosPacientes(consultas: seq<Consulta>, agora: int): seq<Proximo>
  {
    var ordenados := OrdenarPorDiff(Candidatos(consultas, agora));
    if |ordenados| <= 3 then ordenados else ordenados[..3]
  }

  /** The sort keeps exactly the entries it was given. */
  lemma OrdenarMembros(s: seq<Proximo>)
    ensures forall y :: y in OrdenarPorDiff(s) <==> y in s
  {
    OrdenarCaracterizacao(s);
    forall y
      ensures y in OrdenarPorDiff(s) <==> y in s
    {
      assert y in OrdenarPorDiff(s) <==> y in multiset(OrdenarPorDiff(s));
      assert y in s <==> y in multiset(s);
    }
  }

  /** Each entry kept is an eligible consultation from the list, with its distance. */
  lemma ProximosElegiveis(consultas: seq<Consulta>, agora: int)
    ensures var r := ProximosPacientes(consultas, agora);
      forall k :: 0 <= k < |r| ==>
        r[k].consulta in consultas && Elegivel(r[k].consulta) && r[k].diff == Distancia(r[k].consulta.inicio.value, agora)
  {
    var cand := Candidatos(consultas, agora);
    var s := OrdenarPorDiff(cand);
    var r := ProximosPacientes(consultas, agora);
    OrdenarMembros(cand);
    forall k | 0 <= k < |r|
      ensures r[k] in cand
    {
      assert r[k] == s[k];
    }
  }

  /** An eligible consultation left out is no nearer than the third one kept. */
  lemma ProximosMaisPerto(consultas: seq<Consulta>, agora: int, c: Consulta)
    requires c in consultas && Elegivel(c)
    requires var r := ProximosPacientes(consultas, agora); forall k :: 0 <= k < |r| ==> r[k].consulta != c
    ensures var r := ProximosPacientes(consultas, agora); |r| == 3 && r[2].diff <= Distancia(c.inicio.value, agora)
  {
    var cand := Candidatos(consultas, agora);
    var s := OrdenarPorDiff(cand);
    var r := ProximosPacientes(consultas, agora);
    OrdenarCaracterizacao(cand);
    OrdenarMembros(cand);
    var p := Proximo(c, Distancia(c.inicio.value, agora));
    CandidatosCompletos(consultas, agora, c);
    var j :| 0 <= j < |s| && s[j] == p;
    assert j >= |r|;
  }

  /**
   * At most three entries, each a scheduled consultation with a start from
   * the list carrying its distance from now; in increasing distance; and
   * an eligible consultation left out is no nearer than the last one kept
   * (and is only left out when three are kept).
   */
  lemma ProximosCaracterizacao(consultas: seq<Consulta>, agora: int)
    ensures var r := ProximosPacientes(consultas, agora);
      && |r| <= 3
      && (forall k :: 0 <= k < |r| ==>
            r[k].consulta in consultas && Elegivel(r[k].consulta) && r[k].diff == Distancia(r[k].consulta.inicio.value, agora))
      && Ordenado(r)
      && (forall c :: c in consultas && Elegivel(c) && (forall k :: 0 <= k < |r| ==> r[k].consulta != c) ==>
            |r| == 3 && r[2].diff <= Distancia(c.inicio.value, agora))
  {
    var r := ProximosPacientes(consultas, agora);
    OrdenarCaracterizacao(Candidatos(consultas, agora));
    ProximosElegiveis(consultas, agora);
    forall c | c in consultas && Elegivel(c) && (forall k :: 0 <= k < |r| ==> r[k].consulta != c)
      ensures |r| == 3 && r[2].diff <= Distancia(c.inicio.value, agora)
    {
      ProximosMaisPerto(consultas, agora, c);
    }
  }

  /** `error.response?.data?.message || "Erro ao cancelar consulta!"`, with "" for no message. */
  function MensagemDeCancelamento(erroServidor: string): (m: string)
    ensures erroServidor != "" ==> m == erroServidor
    ensures erroServidor == "" ==> m == "Erro ao cancelar consulta!"
  {
    if erroServidor != "" then erroServidor else "Erro ao cancelar consulta!"
  }

  /** The `Dashboard` page: the consultations of the day and the key that makes the chart reload. */
  class PainelDashboard {
    var consultas: seq<Consulta>
    var graficoRefreshKey: int
    var isLoading: bool
    var efeitos: seq<Efeito>

    constructor ()
      ensures consultas == [] && graficoRefreshKey == 0 && isLoading && efeitos == []
    {
      consultas, graficoRefreshKey, isLoading, efeitos := [], 0, true, [];
    }

    /** The scheduled consultations the page lists and pages over. */
    function Agendadas(): seq<Consulta>
      reads this
    {
      ConsultasAgendadasDoPainel(consultas)
    }

    /**
     * `fetchConsultas`: the day's consultations; an answer replaces the
     * list, a failure shows an error toast and keeps it.
     */
    method FetchConsultas(resposta: Option<seq<Consulta>>)
      modifies this
      ensures efeitos == old(efeitos) + [Http(GetConsultasHoje)]
                         + (if resposta.None? then [Toast(Erro, "Erro ao carregar consultas")] else [])
      ensures consultas == (if resposta.Some? then resposta.value else old(consultas))
      ensures !isLoading && graficoRefreshKey == old(graficoRefreshKey)
    {
      isLoading := true;
      efeitos := efeitos + [Http(GetConsultasHoje)];
      if resposta.Some? {
        consultas := resposta.value;
      } else {
        efeitos := efeitos + [Toast(Erro, "Erro ao carregar consultas")];
      }
      isLoading := false;
    }

    /** `handleGraficoRefresh`: the key goes up by one, which makes the chart fetch again. */
    method HandleGraficoRefresh()
      modifies this
      ensures graficoRefreshKey == old(graficoRefreshKey) + 1
      ensures consultas == old(consultas) && isLoading == old(isLoading) && efeitos == old(efeitos)
    {
      graficoRefreshKey := graficoRefreshKey + 1;
    }

    /**
     * `cancelarConsulta`: PUT /consultas/:id/cancelar. On success a toast,
     * the day's list fetched again (which ends with loading off) and the
     * chart key raised by exactly one;
     * on failure the server's message (or the default) and nothing else
     * changes. `putOk` is the request's outcome, `erroServidor` its error
     * message and `resposta` the refetch's answer.
     */
    method CancelarConsulta(consultaId: int, putOk: bool, erroServidor: string, resposta: Option<seq<Consulta>>)
      modifies this
      ensures putOk ==>
        && efeitos == old(efeitos) + [Http(PutCancelar(consultaId)), Toast(Sucesso, "Consulta cancelada com sucesso!"), Http(GetConsultasHoje)]
                                    + (if resposta.None? then [Toast(Erro, "Erro ao carregar consultas")] else [])
        && consultas == (if resposta.Some? then resposta.value else old(consultas))
        && graficoRefreshKey == old(graficoRefreshKey) + 1 && !isLoading
      ensures !putOk ==>
        && efeitos == old(efeitos) + [Http(PutCancelar(consultaId)), Toast(Erro, MensagemDeCancelamento(erroServidor))]
        && consultas == old(consultas) && graficoRefreshKey == old(graficoRefreshKey) && isLoading == old(isLoading)
    {
      efeitos := efeitos + [Http(PutCancelar(consultaId))];
      if putOk {
        efeitos := efeitos + [Toast(Sucesso, "Consulta cancelada com sucesso!")];
        FetchConsultas(resposta);
        HandleGraficoRefresh();
      } else {
        efeitos := efeitos + [Toast(Erro, MensagemDeCancelamento(erroServidor))];
      }
    }
  }
}

/**
 * The records the screens receive from the API, and the effects a component
 * has on the outside world: requests sent, toasts shown and parent
 * callbacks run. A component keeps these effects, in order, in a log.
 */
module Modelo {
  import opened Wrappers

  /** `StatusConsulta`. */
  datatype Status = Agendada | Concluida | Cancelada

  datatype Paciente = Paciente(id: int, nome: string, telefone: string, email: string, createdAt: string)

  /** A consultation type; `preco` is `None` when it is missing or null. */
  datatype TipoConsulta = TipoConsulta(id: int, nome: string, preco: Option<real>, duracaoEstimadaMinutos: int)

  /** A free agenda slot (`agendaDisponivel`): a YYYY-MM-DD date and HH:MM:SS times. */
  datatype Slot = Slot(id: int, data: string, horaInicio: string, horaFim: string)

  /** A dentist's weekly shift. */
  datatype Escala = Escala(id: int, diaSemana: string, horaInicio: string, horaFim: string, intervaloMinutos: real, ativo: bool)

  /**
   * A consultation as the API returns it. `dataConclusao` distinguishes an
   * absent field from `null`; `valorCobrado` is `None` when missing or null;
   * `inicio` is the start instant in milliseconds, `None` when
   * `dataHoraInicio` is empty or missing.
   */
  datatype Consulta = Consulta(
    id: int,
    status: Status,
    paciente: Option<Paciente>,
    tipoConsulta: Option<TipoConsulta>,
    agendaDisponivel: Option<Slot>,
    dataConclusao: Campo<string>,
    valorCobrado: Option<real>,
    inicio: Option<int>)

  /** The logged-in user. */
  datatype Usuario = Usuario(id: int, nome: string)

  /** One HTTP request, with its method, path and body. */
  datatype Requisicao =
    | PutValorCobrado(consulta: int, valor: real)                  // PUT /consultas/:id {valorCobrado}
    | PutConcluir(consulta: int)                                   // PUT /consultas/:id/concluir
    | PutCancelar(consulta: int)                                   // PUT /consultas/:id/cancelar
    | PutDescancelar(consulta: int)                                // PUT /consultas/:id/descancelar
    | DeleteConsulta(consulta: int)                                // DELETE /consultas/:id
    | PutReagendar(consulta: int, paciente: Paciente, tipo: TipoConsulta, slot: Slot, observacoes: string)
    | GetDisponiveis                                               // GET /agenda/disponiveis
    | GetConsultasHoje                                             // the dashboard's list of the day
    | GetConsultas                                                 // GET /consultas
    | PostConsulta(pacienteId: int, tipoConsultaId: int, agendaDisponivelId: int, observacoes: string)
    | PostEscala(diaSemana: string, horaInicio: string, horaFim: string, intervalo: string, dentista: Option<Usuario>)
    | PutEscala(id: int, diaSemana: string, horaInicio: string, horaFim: string, intervaloMinutos: Option<real>)
    | PostGerarAgenda(dentistaId: int, escalaId: int, dataInicio: Option<string>, dataFim: Option<string>)
    | DeleteAgenda(dentistaId: int, escalaId: int, dataInicio: Option<string>, dataFim: Option<string>)

  datatype Aviso = Sucesso | Erro | Info

  /** The parent callbacks a component may run. */
  datatype Callback =
    | AtualizarConsultas | AtualizarGrafico | FecharDialogo
    | EscalaCadastrada | AtualizarEscalas | AgendaGerada | AgendaExcluida

  datatype Efeito =
    | Http(requisicao: Requisicao)
    | Toast(aviso: Aviso, mensagem: string)
    | Chamada(callback: Callback)

  /** The requests of a log, in order. */
  function Requisicoes(efeitos: seq<Efeito>): (r: seq<Requisicao>)
    ensures |r| <= |efeitos|
    ensures forall q :: q in r <==> Http(q) in efeitos
  {
    if efeitos == [] then []
    else (if efeitos[0].Http? then [efeitos[0].requisicao] else []) + Requisicoes(efeitos[1..])
  }

  lemma {:induction false} RequisicoesConcat(a: seq<Efeito>, b: seq<Efeito>)
    ensures Requisicoes(a + b) == Requisicoes(a) + Requisicoes(b)
  {
    if a != [] {
      assert (a + b)[1..] == a[1..] + b;
      RequisicoesConcat(a[1..], b);
    } else {
      assert a + b == b;
    }
  }

  /** Appending one request followed only by toasts and callbacks adds exactly that request. */
  lemma {:induction false} RequisicoesUmPedido(antes: seq<Efeito>, pedido: Requisicao, resto: seq<Efeito>)
    requires forall i :: 0 <= i < |resto| ==> !resto[i].Http?
    ensures Requisicoes(antes + [Http(pedido)] + resto) == Requisicoes(antes) + [pedido]
  {
    SemRequisicoes(resto);
    RequisicoesConcat(antes, [Http(pedido)]);
    RequisicoesConcat(antes + [Http(pedido)], resto);
    assert [Http(pedido)][1..] == [];
  }

  lemma {:induction false} SemRequisicoes(efeitos: seq<Efeito>)
    requires forall i :: 0 <= i < |efeitos| ==> !efeitos[i].Http?
    ensures Requisicoes(efeitos) == []
  {
    if efeitos != [] {
      SemRequisicoes(efeitos[1..]);
    }
  }
}

/**
 * `ConsultaAgendadaCard`: the card of one consultation in the consultations
 * list, with the actions it offers in each status and the requests each
 * action sends.
 */
module CartaoConsulta {
  import opened Wrappers
  import opened Text
  import opened Modelo

  /** Which dialog of the card is open (`dialogType?.type`). */
  datatype Dialogo = Fechado | DialogoConcluir | DialogoReagendar | DialogoCancelar | DialogoDescancelar

  /** The buttons a card can show. */
  datatype Acao = BotaoConcluir | BotaoReagendar | BotaoDesmarcar | BotaoCancelar | BotaoDescancelar

  /** `isConsultaConcluida`: status CONCLUIDA, or a `dataConclusao` that is not `null` (an absent field counts). */
  predicate ConsultaConcluida(c: Consulta)
  {
    c.status == Concluida || c.dataConclusao != Nulo
  }

  /** `isConsultaCancelada`. */
  predicate ConsultaCancelada(c: Consulta)
  {
    c.status == Cancelada
  }

  /**
   * The buttons of the card, in screen order: none once concluded; a
   * cancelled card only the "Descancelar" toggle; any other card Concluir,
   * Reagendar, Desmarcar and the "Cancelar" toggle.
   */
  function AcoesDoCartao(c: Consulta): seq<Acao>
  {
    if ConsultaConcluida(c) then []
    else if ConsultaCancelada(c) then [BotaoDescancelar]
    else [BotaoConcluir, BotaoReagendar, BotaoDesmarcar, BotaoCancelar]
  }

  /** The request a one-request action sends for this consultation. */
  function PedidoDaAcao(c: Consulta, a: Acao): Option<Requisicao>
  {
    match a
    case BotaoDesmarcar => Some(DeleteConsulta(c.id))
    case BotaoCancelar => Some(PutCancelar(c.id))
    case BotaoDescancelar => Some(PutDescancelar(c.id))
    case _ => None
  }

  /**
   * The value typed in the conclusion dialog, as `concluir` accepts it:
   * non-empty, a number, and not negative. Zero is accepted.
   */
  function ValorDoCartao(valor: string): Option<real>
  {
    if valor == "" then None
    else match ParseNumber(valor)
      case None => None
      case Some(v) => if v < 0.0 then None else Some(v)
  }

  /**
   * A concluded card offers nothing; a cancelled one only Descancelar; any
   * other card Concluir, Reagendar, Desmarcar and Cancelar. Desmarcar
   * deletes the consultation, Cancelar and Descancelar only change its
   * status, and the toggle is never both at once.
   */
  lemma AcoesDoCartaoCaracterizacao(c: Consulta)
    ensures AcoesDoCartao(c) == [] <==> ConsultaConcluida(c)
    ensures c.dataConclusao == Ausente ==> AcoesDoCartao(c) == []
    ensures forall a :: a in AcoesDoCartao(c) && a != BotaoDescancelar ==> !ConsultaConcluida(c) && !ConsultaCancelada(c)
    ensures BotaoDescancelar in AcoesDoCartao(c) <==> !ConsultaConcluida(c) && ConsultaCancelada(c)
    ensures !ConsultaConcluida(c) && ConsultaCancelada(c) ==> AcoesDoCartao(c) == [BotaoDescancelar]
    ensures !ConsultaConcluida(c) && !ConsultaCancelada(c) ==>
      && (forall a :: a in AcoesDoCartao(c) <==> a != BotaoDescancelar)
      && PedidoDaAcao(c, BotaoDesmarcar) == Some(DeleteConsulta(c.id))
      && PedidoDaAcao(c, BotaoCancelar) == Some(PutCancelar(c.id))
    ensures !(BotaoCancelar in AcoesDoCartao(c) && BotaoDescancelar in AcoesDoCartao(c))
  {
    if !ConsultaConcluida(c) && !ConsultaCancelada(c) {
      assert AcoesDoCartao(c) == [BotaoConcluir, BotaoReagendar, BotaoDesmarcar, BotaoCancelar];
    }
  }

  /** The value rule: exactly the non-empty numeric strings whose value is not negative. */
  lemma ValorDoCartaoCaracterizacao(valor: string)
    ensures ValorDoCartao(valor).Some? <==>
      valor != "" && ParseNumber(valor).Some? && ParseNumber(valor).value >= 0.0
    ensures ValorDoCartao(valor).Some? ==> ValorDoCartao(valor) == ParseNumber(valor)
  {
  }

  /** "0" is accepted with value 0; "-5" and "" are refused. */
  lemma ValorDoCartaoExemplos(zero: string, menosCinco: string)
    requires zero == "0" && menosCinco == "-5"
    ensures ValorDoCartao(zero) == Some(0.0)
    ensures ValorDoCartao(menosCinco).None? && ValorDoCartao("").None?
  {
    ParseNumberDigits(zero);
    assert Trim(menosCinco) == menosCinco by { TrimNoSpace(menosCinco); }
    ParseNumberDigits(menosCinco[1..]);
  }

  class CartaoAgendado {
    const consulta: Consulta
    var dialogo: Dialogo
    var actionLoading: bool
    var valorCobrado: string
    var valorError: string
    var efeitos: seq<Efeito>

    constructor (consulta: Consulta)
      ensures this.consulta == consulta && dialogo == Fechado && !actionLoading
      ensures valorCobrado == "" && valorError == "" && efeitos == []
    {
      this.consulta := consulta;
      dialogo := Fechado;
      actionLoading := false;
      valorCobrado := "";
      valorError := "";
      efeitos := [];
    }

    /** A button of the card opens its dialog; only the buttons the card shows can be pressed. */
    method Abrir(acao: Acao)
      requires acao in AcoesDoCartao(consulta) && acao != BotaoDesmarcar
      modifies this
      ensures dialogo == match acao
        case BotaoConcluir => DialogoConcluir
        case BotaoReagendar => DialogoReagendar
        case BotaoCancelar => DialogoCancelar
        case _ => DialogoDescancelar
      ensures valorCobrado == old(valorCobrado) && valorError == old(valorError)
      ensures actionLoading == old(actionLoading) && efeitos == old(efeitos)
    {
      if acao == BotaoConcluir {
        dialogo := DialogoConcluir;
      } else if acao == BotaoReagendar {
        dialogo := DialogoReagendar;
      } else if acao == BotaoCancelar {
        dialogo := DialogoCancelar;
      } else {
        dialogo := DialogoDescancelar;
      }
    }

    method DigitarValor(valor: string)
      modifies this
      ensures valorCobrado == valor
      ensures dialogo == old(dialogo) && valorError == old(valorError)
      ensures actionLoading == old(actionLoading) && efeitos == old(efeitos)
    {
      valorCobrado := valor;
    }

    /** Closing the conclusion dialog clears the value and its error. */
    method FecharConcluir()
      modifies this
      ensures dialogo == Fechado && valorCobrado == "" && valorError == ""
      ensures actionLoading == old(actionLoading) && efeitos == old(efeitos)
    {
      dialogo := Fechado;
      valorCobrado := "";
      valorError := "";
    }

    /**
     * `concluir`. A cancelled consultation: an error toast, the dialog
     * closes, nothing is sent. A refused value: the field error is set and
     * nothing is sent. Otherwise PUT /consultas/:id {valorCobrado} and then
     * PUT /consultas/:id/concluir; only when both succeed is the dialog
     * closed, the value cleared and the list refreshed. `okValor` and
     * `okConcluir` are the two requests' outcomes.
     */
    method Concluir(okValor: bool, okConcluir: bool)
      modifies this
      ensures ConsultaCancelada(consulta) ==>
        && efeitos == old(efeitos) + [Toast(Erro, "Não é possível concluir uma consulta cancelada!")]
        && dialogo == Fechado && valorCobrado == old(valorCobrado)
        && valorError == old(valorError) && actionLoading == old(actionLoading)
      ensures !ConsultaCancelada(consulta) && ValorDoCartao(old(valorCobrado)).None? ==>
        && efeitos == old(efeitos) && valorError == "Informe um valor válido."
        && dialogo == old(dialogo) && valorCobrado == old(valorCobrado) && actionLoading == old(actionLoading)
      ensures !ConsultaCancelada(consulta) && ValorDoCartao(old(valorCobrado)).Some? ==>
        var pedidos := [Http(PutValorCobrado(consulta.id, ValorDoCartao(old(valorCobrado)).value))]
          + (if okValor then [Http(PutConcluir(consulta.id))] else []);
        && valorError == "" && !actionLoading
        && (okValor && okConcluir ==>
              && efeitos == old(efeitos) + pedidos + [Toast(Sucesso, "Consulta concluída!"), Chamada(AtualizarConsultas)]
              && dialogo == Fechado && valorCobrado == "")
        && (!(okValor && okConcluir) ==>
              && efeitos == old(efeitos) + pedidos + [Toast(Erro, "Erro ao concluir consulta")]
              && dialogo == old(dialogo) && valorCobrado == old(valorCobrado))
    {
      if consulta.status == Cancelada {
        efeitos := efeitos + [Toast(Erro, "Não é possível concluir uma consulta cancelada!")];
        dialogo := Fechado;
        return;
      }
      var valor := ValorDoCartao(valorCobrado);
      if valor.None? {
        valorError := "Informe um valor válido.";
        return;
      }
      valorError := "";
      Registrar(valor.value, okValor, okConcluir);
    }

    /**
     * The requests of `concluir` once the value is accepted: the value, then
     * the conclusion if the first succeeded; on success the dialog closes
     * and the list is refreshed.
     */
    method Registrar(valor: real, okValor: bool, okConcluir: bool)
      modifies this
      ensures var pedidos := [Http(PutValorCobrado(consulta.id, valor))] + (if okValor then [Http(PutConcluir(consulta.id))] else []);
        && (okValor && okConcluir ==>
              && efeitos == old(efeitos) + pedidos + [Toast(Sucesso, "Consulta concluída!"), Chamada(AtualizarConsultas)]
              && dialogo == Fechado && valorCobrado == "")
        && (!(okValor && okConcluir) ==>
              && efeitos == old(efeitos) + pedidos + [Toast(Erro, "Erro ao concluir consulta")]
              && dialogo == old(dialogo) && valorCobrado == old(valorCobrado))
      ensures !actionLoading && valorError == old(valorError)
    {
      actionLoading := true;
      efeitos := efeitos + [Http(PutValorCobrado(consulta.id, valor))];
      if okValor {
        efeitos := efeitos + [Http(PutConcluir(consulta.id))];
      }
      if okValor && okConcluir {
        efeitos := efeitos + [Toast(Sucesso, "Consulta concluída!")];
        dialogo := Fechado;
        valorCobrado := "";
        efeitos := efeitos + [Chamada(AtualizarConsultas)];
      } else {
        efeitos := efeitos + [Toast(Erro, "Erro ao concluir consulta")];
      }
      actionLoading := false;
    }

    /**
     * The shape shared by `cancelar`, `descancelar` and `desmarcar`: one
     * request; on success a toast, the dialog closes and the list is
     * refreshed; on failure an error toast.
     */
    method UmPedido(pedido: Requisicao, ok: bool, sucesso: string, erro: string)
      modifies this
      ensures ok ==> efeitos == old(efeitos) + [Http(pedido), Toast(Sucesso, sucesso), Chamada(AtualizarConsultas)]
      ensures ok ==> dialogo == Fechado
      ensures !ok ==> efeitos == old(efeitos) + [Http(pedido), Toast(Erro, erro)] && dialogo == old(dialogo)
      ensures !actionLoading && valorCobrado == old(valorCobrado) && valorError == old(valorError)
      ensures Requisicoes(efeitos) == Requisicoes(old(efeitos)) + [pedido]
    {
      var antes := efeitos;
      ghost var depois: seq<Efeito>;
      actionLoading := true;
      efeitos := efeitos + [Http(pedido)];
      if ok {
        efeitos := efeitos + [Toast(Sucesso, sucesso)];
        dialogo := Fechado;
        efeitos := efeitos + [Chamada(AtualizarConsultas)];
        depois := [Toast(Sucesso, sucesso), Chamada(AtualizarConsultas)];
      } else {
        efeitos := efeitos + [Toast(Erro, erro)];
        depois := [Toast(Erro, erro)];
      }
      actionLoading := false;
      assert efeitos == antes + [Http(pedido)] + depois;
      RequisicoesUmPedido(antes, pedido, depois);
    }

    /** `cancelar`: PUT /consultas/:id/cancelar. */
    method Cancelar(ok: bool)
      modifies this
      ensures ok ==> efeitos == old(efeitos) + [Http(PutCancelar(consulta.id)), Toast(Sucesso, "Consulta cancelada!"), Chamada(AtualizarConsultas)]
      ensures ok ==> dialogo == Fechado
      ensures !ok ==> efeitos == old(efeitos) + [Http(PutCancelar(consulta.id)), Toast(Erro, "Erro ao cancelar consulta!")] && dialogo == old(dialogo)
      ensures !actionLoading && valorCobrado == old(valorCobrado) && valorError == old(valorError)
      ensures Requisicoes(efeitos) == Requisicoes(old(efeitos)) + [PutCancelar(consulta.id)]
    {
      UmPedido(PutCancelar(consulta.id), ok, "Consulta cancelada!", "Erro ao cancelar consulta!");
    }

    /** `descancelar`: PUT /consultas/:id/descancelar; its error message is the one of `desmarcar`. */
    method Descancelar(ok: bool)
      modifies this
      ensures ok ==> efeitos == old(efeitos) + [Http(PutDescancelar(consulta.id)), Toast(Sucesso, "Consulta descancelada!"), Chamada(AtualizarConsultas)]
      ensures ok ==> dialogo == Fechado
      ensures !ok ==> efeitos == old(efeitos) + [Http(PutDescancelar(consulta.id)), Toast(Erro, "Erro ao desmarcar consulta!")] && dialogo == old(dialogo)
      ensures !actionLoading && valorCobrado == old(valorCobrado) && valorError == old(valorError)
      ensures Requisicoes(efeitos) == Requisicoes(old(efeitos)) + [PutDescancelar(consulta.id)]
    {
      UmPedido(PutDescancelar(consulta.id), ok, "Consulta descancelada!", "Erro ao desmarcar consulta!");
    }

    /** `desmarcar`: DELETE /consultas/:id; the refresh is started without waiting for it. */
    method Desmarcar(ok: bool)
      modifies this
      ensures ok ==> efeitos == old(efeitos) + [Http(DeleteConsulta(consulta.id)), Toast(Sucesso, "Consulta desmarcada com sucesso!"), Chamada(AtualizarConsultas)]
      ensures ok ==> dialogo == Fechado
      ensures !ok ==> efeitos == old(efeitos) + [Http(DeleteConsulta(consulta.id)), Toast(Erro, "Erro ao desmarcar consulta!")] && dialogo == old(dialogo)
      ensures !actionLoading && valorCobrado == old(valorCobrado) && valorError == old(valorError)
      ensures Requisicoes(efeitos) == Requisicoes(old(efeitos)) + [DeleteConsulta(consulta.id)]
    {
      UmPedido(DeleteConsulta(consulta.id), ok, "Consulta desmarcada com sucesso!", "Erro ao desmarcar consulta!");
    }

    /**
     * The confirm button of the cancel/uncancel dialog: `descancelar` for a
     * cancelled consultation, `cancelar` otherwise. Either way exactly the
     * one request of the toggle the card shows is sent.
     */
    method ConfirmarAlternancia(ok: bool)
      modifies this
      ensures var acao := if ConsultaCancelada(consulta) then BotaoDescancelar else BotaoCancelar;
        Requisicoes(efeitos) == Requisicoes(old(efeitos)) + [PedidoDaAcao(consulta, acao).value]
      ensures !actionLoading
    {
      if consulta.status == Cancelada {
        Descancelar(ok);
      } else {
        Cancelar(ok);
      }
    }
  }
}

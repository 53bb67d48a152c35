/**
 * `DashboardCardConsulta`: the compact card of a consultation of the day on
 * the dashboard. It always offers "Concluir" and "Desmarcar", whatever the
 * consultation's status.
 */
module CartaoPainel {
  import opened Wrappers
  import opened Text
  import opened Modelo
  import opened CartaoConsulta

  /**
   * The value typed in the conclusion dialog, as this card's `concluir`
   * accepts it: non-empty and a number. Unlike the list card, a negative
   * value passes.
   */
  function ValorDoPainel(valor: string): Option<real>
  {
    if valor == "" then None else ParseNumber(valor)
  }

  /**
   * The dashboard card accepts every value the list card accepts, with the
   * same number, and in addition exactly the negative ones.
   */
  lemma ValorDoPainelComparado(valor: string)
    ensures ValorDoCartao(valor).Some? ==> ValorDoPainel(valor) == ValorDoCartao(valor)
    ensures ValorDoPainel(valor).Some? && ValorDoCartao(valor).None? <==>
      ValorDoPainel(valor).Some? && ValorDoPainel(valor).value < 0.0
    ensures ValorDoPainel(valor).None? <==> valor == "" || ParseNumber(valor).None?
  {
  }

  /** "-5" passes on the dashboard card with value -5, while the list card refuses it. */
  lemma ValorDoPainelNegativo(menosCinco: string)
    requires menosCinco == "-5"
    ensures ValorDoPainel(menosCinco) == Some(-5.0)
    ensures ValorDoCartao(menosCinco).None?
  {
    assert Trim(menosCinco) == menosCinco by { TrimNoSpace(menosCinco); }
    var cinco := menosCinco[1..];
    assert cinco == "5";
    ParseNumberDigits(cinco);
    assert DigitsValue(cinco) == 5 by { assert cinco[..0] == []; }
  }

  class CartaoDoPainel {
    const consulta: Consulta
    /** Whether the dashboard passed an `atualizarGrafico` callback. */
    const comGrafico: bool
    var dialogo: Dialogo
    var actionLoading: bool
    var valorCobrado: string
    var valorError: string
    var efeitos: seq<Efeito>

    constructor (consulta: Consulta, comGrafico: bool)
      ensures this.consulta == consulta && this.comGrafico == comGrafico
      ensures dialogo == Fechado && !actionLoading && valorCobrado == "" && valorError == "" && efeitos == []
    {
      this.consulta := consulta;
      this.comGrafico := comGrafico;
      dialogo := Fechado;
      actionLoading := false;
      valorCobrado := "";
      valorError := "";
      efeitos := [];
    }

    /** The "Concluir" button, offered in every status. */
    method AbrirConcluir()
      modifies this
      ensures dialogo == DialogoConcluir
      ensures valorCobrado == old(valorCobrado) && valorError == old(valorError)
      ensures actionLoading == old(actionLoading) && efeitos == old(efeitos)
    {
      dialogo := DialogoConcluir;
    }

    /** The "Desmarcar" button, offered in every status: it opens the dialog of type "cancelar". */
    method AbrirDesmarcar()
      modifies this
      ensures dialogo == DialogoCancelar
      ensures valorCobrado == old(valorCobrado) && valorError == old(valorError)
      ensures actionLoading == old(actionLoading) && efeitos == old(efeitos)
    {
      dialogo := DialogoCancelar;
    }

    method DigitarValor(valor: string)
      modifies this
      ensures valorCobrado == valor
      ensures dialogo == old(dialogo) && valorError == old(valorError)
      ensures actionLoading == old(actionLoading) && efeitos == old(efeitos)
    {
      valorCobrado := valor;
    }

    /** Closing the conclusion dialog clears the value and its error. */
    method FecharConcluir()
      modifies this
      ensures dialogo == Fechado && valorCobrado == "" && valorError == ""
      ensures actionLoading == old(actionLoading) && efeitos == old(efeitos)
    {
      dialogo := Fechado;
      valorCobrado := "";
      valorError := "";
    }

    /**
     * `concluir`: as on the list card, but any number is accepted, and
     * after both requests succeed the list and, when given, the chart are
     * refreshed without waiting for them.
     */
    method Concluir(okValor: bool, okConcluir: bool)
      modifies this
      ensures ConsultaCancelada(consulta) ==>
        && efeitos == old(efeitos) + [Toast(Erro, "Não é possível concluir uma consulta cancelada!")]
        && dialogo == Fechado && valorCobrado == old(valorCobrado)
        && valorError == old(valorError) && actionLoading == old(actionLoading)
      ensures !ConsultaCancelada(consulta) && ValorDoPainel(old(valorCobrado)).None? ==>
        && efeitos == old(efeitos) && valorError == "Informe um valor válido."
        && dialogo == old(dialogo) && valorCobrado == old(valorCobrado) && actionLoading == old(actionLoading)
      ensures !ConsultaCancelada(consulta) && ValorDoPainel(old(valorCobrado)).Some? ==>
        var pedidos := [Http(PutValorCobrado(consulta.id, ValorDoPainel(old(valorCobrado)).value))]
          + (if okValor then [Http(PutConcluir(consulta.id))] else []);
        && valorError == "" && !actionLoading
        && (okValor && okConcluir ==>
              && efeitos == old(efeitos) + pedidos + [Toast(Sucesso, "Consulta concluída!"), Chamada(AtualizarConsultas)]
                 + (if comGrafico then [Chamada(AtualizarGrafico)] else [])
              && dialogo == Fechado && valorCobrado == "")
        && (!(okValor && okConcluir) ==>
              && efeitos == old(efeitos) + pedidos + [Toast(Erro, "Erro ao concluir consulta")]
              && dialogo == old(dialogo) && valorCobrado == old(valorCobrado))
    {
      if consulta.status == Cancelada {
        efeitos := efeitos + [Toast(Erro, "Não é possível concluir uma consulta cancelada!")];
        dialogo := Fechado;
        return;
      }
      var valor := ValorDoPainel(valorCobrado);
      if valor.None? {
        valorError := "Informe um valor válido.";
        return;
      }
      valorError := "";
      Registrar(valor.value, okValor, okConcluir);
    }

    /**
     * The requests of `concluir` once the value is accepted: the value, then
     * the conclusion if the first succeeded; on success the dialog closes
     * and the list and, when given, the chart are refreshed.
     */
    method Registrar(valor: real, okValor: bool, okConcluir: bool)
      modifies this
      ensures var pedidos := [Http(PutValorCobrado(consulta.id, valor))] + (if okValor then [Http(PutConcluir(consulta.id))] else []);
        && (okValor && okConcluir ==>
              && efeitos == old(efeitos) + pedidos + [Toast(Sucesso, "Consulta concluída!"), Chamada(AtualizarConsultas)]
                 + (if comGrafico then [Chamada(AtualizarGrafico)] else [])
              && dialogo == Fechado && valorCobrado == "")
        && (!(okValor && okConcluir) ==>
              && efeitos == old(efeitos) + pedidos + [Toast(Erro, "Erro ao concluir consulta")]
              && dialogo == old(dialogo) && valorCobrado == old(valorCobrado))
      ensures !actionLoading && valorError == old(valorError)
    {
      actionLoading := true;
      efeitos := efeitos + [Http(PutValorCobrado(consulta.id, valor))];
      if okValor {
        efeitos := efeitos + [Http(PutConcluir(consulta.id))];
      }
      if okValor && okConcluir {
        efeitos := efeitos + [Toast(Sucesso, "Consulta concluída!")];
        dialogo := Fechado;
        valorCobrado := "";
        efeitos := efeitos + [Chamada(AtualizarConsultas)];
        if comGrafico {
          efeitos := efeitos + [Chamada(AtualizarGrafico)];
        }
      } else {
        efeitos := efeitos + [Toast(Erro, "Erro ao concluir consulta")];
      }
      actionLoading := false;
    }

    /**
     * The confirm button of the "Desmarcar" dialog: `desmarcar`, which
     * sends DELETE /consultas/:id and never the cancel request.
     */
    method Desmarcar(ok: bool)
      modifies this
      ensures ok ==> efeitos == old(efeitos) + [Http(DeleteConsulta(consulta.id)), Toast(Sucesso, "Consulta desmarcada com sucesso!"), Chamada(AtualizarConsultas)]
      ensures ok ==> dialogo == Fechado
      ensures !ok ==> efeitos == old(efeitos) + [Http(DeleteConsulta(consulta.id)), Toast(Erro, "Erro ao desmarcar consulta!")] && dialogo == old(dialogo)
      ensures Requisicoes(efeitos) == Requisicoes(old(efeitos)) + [DeleteConsulta(consulta.id)]
      ensures !actionLoading && valorCobrado == old(valorCobrado) && valorError == old(valorError)
    {
      var antes := efeitos;
      ghost var depois: seq<Efeito>;
      actionLoading := true;
      efeitos := efeitos + [Http(DeleteConsulta(consulta.id))];
      if ok {
        efeitos := efeitos + [Toast(Sucesso, "Consulta desmarcada com sucesso!")];
        dialogo := Fechado;
        efeitos := efeitos + [Chamada(AtualizarConsultas)];
        depois := [Toast(Sucesso, "Consulta desmarcada com sucesso!"), Chamada(AtualizarConsultas)];
      } else {
        efeitos := efeitos + [Toast(Erro, "Erro ao desmarcar consulta!")];
        depois := [Toast(Erro, "Erro ao desmarcar consulta!")];
      }
      actionLoading := false;
      assert efeitos == antes + [Http(DeleteConsulta(consulta.id))] + depois;
      RequisicoesUmPedido(antes, DeleteConsulta(consulta.id), depois);
    }
  }
}

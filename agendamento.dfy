/**
 * The booking page (`Agendamento`): patient, type, day and time selection,
 * the free slots grouped by date, and the submission that resolves the
 * chosen day and time to a slot and books it. The chosen day is held as its
 * YYYY-MM-DD key (`toISOString().slice(0, 10)` of the picked date).
 */
module PaginaAgendamento {
  import opened Wrappers
  import opened Modelo
  import opened Disponibilidade

  class Agendamento {
    var paciente: Option<Paciente>
    var tipoConsulta: Option<TipoConsulta>
    var dataSelecionada: Option<string>
    var horarioSelecionado: string
    var observacoes: string
    var isSubmitting: bool
    var horariosDisponiveisRaw: seq<Slot>
    var horariosDisponiveis: map<string, seq<string>>
    var efeitos: seq<Efeito>

    /** The grouping always matches the slots it was built from. */
    predicate Valid()
      reads this
    {
      horariosDisponiveis == Agrupar(horariosDisponiveisRaw)
    }

    /** Some of the four required selections is missing. */
    predicate FaltaCampo()
      reads this
    {
      paciente.None? || tipoConsulta.None? || dataSelecionada.None? || horarioSelecionado == ""
    }

    /** The submit button's `disabled`: while submitting, or while a selection is missing. */
    predicate BotaoDesabilitado()
      reads this
    {
      isSubmitting || FaltaCampo()
    }

    constructor ()
      ensures Valid() && FaltaCampo() && !isSubmitting
      ensures paciente.None? && tipoConsulta.None? && dataSelecionada.None?
      ensures horarioSelecionado == "" && observacoes == ""
      ensures horariosDisponiveisRaw == [] && efeitos == []
    {
      paciente, tipoConsulta, dataSelecionada := None, None, None;
      horarioSelecionado, observacoes := "", "";
      isSubmitting := false;
      horariosDisponiveisRaw := [];
      horariosDisponiveis := map[];
      efeitos := [];
    }

    /**
     * `fetchHorariosDisponiveis`: GET /agenda/disponiveis; the answer, when
     * there is one, replaces the slots and their grouping, and a failure
     * shows an error toast.
     */
    method CarregarHorarios(resposta: Option<seq<Slot>>)
      requires Valid()
      modifies this
      ensures Valid()
      ensures resposta.Some? ==> efeitos == old(efeitos) + [Http(GetDisponiveis)] && horariosDisponiveisRaw == resposta.value
      ensures resposta.None? ==>
        && efeitos == old(efeitos) + [Http(GetDisponiveis), Toast(Erro, "Erro ao carregar horários disponíveis!")]
        && horariosDisponiveisRaw == old(horariosDisponiveisRaw)
      ensures paciente == old(paciente) && tipoConsulta == old(tipoConsulta) && dataSelecionada == old(dataSelecionada)
      ensures horarioSelecionado == old(horarioSelecionado) && observacoes == old(observacoes)
      ensures isSubmitting == old(isSubmitting)
    {
      efeitos := efeitos + [Http(GetDisponiveis)];
      if resposta.Some? {
        horariosDisponiveisRaw := resposta.value;
        horariosDisponiveis := AgruparHorarios(resposta.value);
      } else {
        efeitos := efeitos + [Toast(Erro, "Erro ao carregar horários disponíveis!")];
      }
    }

    /** The patient, type, day, time and notes chosen on the page. */
    method Selecionar(p: Option<Paciente>, t: Option<TipoConsulta>, data: Option<string>, horario: string, obs: string)
      requires Valid()
      modifies this
      ensures Valid()
      ensures paciente == p && tipoConsulta == t && dataSelecionada == data
      ensures horarioSelecionado == horario && observacoes == obs
      ensures isSubmitting == old(isSubmitting) && efeitos == old(efeitos)
      ensures horariosDisponiveisRaw == old(horariosDisponiveisRaw)
    {
      paciente, tipoConsulta, dataSelecionada := p, t, data;
      horarioSelecionado, observacoes := horario, obs;
    }

    /** The reset after a booking: the five fields are cleared. */
    method LimparFormulario()
      requires Valid()
      modifies this
      ensures Valid()
      ensures paciente.None? && tipoConsulta.None? && dataSelecionada.None?
      ensures horarioSelecionado == "" && observacoes == ""
      ensures isSubmitting == old(isSubmitting) && efeitos == old(efeitos)
      ensures horariosDisponiveisRaw == old(horariosDisponiveisRaw)
    {
      paciente, tipoConsulta, dataSelecionada := None, None, None;
      horarioSelecionado, observacoes := "", "";
    }

    /**
     * `handleSubmit`. A missing selection: an error toast and nothing sent.
     * No slot of that day and time: "Horário não encontrado!" and nothing
     * sent. Otherwise POST /consultas with the patient's, the type's and the
     * matched slot's ids and the notes; on success the five fields are
     * cleared and the slots fetched again. `isSubmitting` ends false on
     * every path past the first check. `postOk` is the request's outcome and
     * `resposta` the refetch's answer.
     */
    method HandleSubmit(postOk: bool, resposta: Option<seq<Slot>>)
      requires Valid()
      modifies this
      ensures Valid()
      ensures old(FaltaCampo()) ==>
        && efeitos == old(efeitos) + [Toast(Erro, "Preencha todos os campos obrigatórios!")]
        && paciente == old(paciente) && tipoConsulta == old(tipoConsulta) && dataSelecionada == old(dataSelecionada)
        && horarioSelecionado == old(horarioSelecionado) && observacoes == old(observacoes)
        && isSubmitting == old(isSubmitting) && horariosDisponiveisRaw == old(horariosDisponiveisRaw)
      ensures !old(FaltaCampo()) ==>
        var slot := Encontrar(old(horariosDisponiveisRaw), old(dataSelecionada).value, old(horarioSelecionado));
        var pedido := PostConsulta(old(paciente).value.id, old(tipoConsulta).value.id,
                                   if slot.Some? then slot.value.id else 0, old(observacoes));
        && !isSubmitting
        && (slot.None? ==> efeitos == old(efeitos) + [Toast(Erro, "Horário não encontrado!")])
        && (slot.Some? && postOk ==>
              && efeitos == old(efeitos) + [Http(pedido), Toast(Sucesso, "Agendamento realizado com sucesso!"), Http(GetDisponiveis)]
                 + (if resposta.None? then [Toast(Erro, "Erro ao carregar horários disponíveis!")] else [])
              && paciente.None? && tipoConsulta.None? && dataSelecionada.None?
              && horarioSelecionado == "" && observacoes == ""
              && horariosDisponiveisRaw == (if resposta.Some? then resposta.value else old(horariosDisponiveisRaw)))
        && (slot.Some? && !postOk ==> efeitos == old(efeitos) + [Http(pedido), Toast(Erro, "Erro ao agendar!")])
        && (!(slot.Some? && postOk) ==>
              && paciente == old(paciente) && tipoConsulta == old(tipoConsulta) && dataSelecionada == old(dataSelecionada)
              && horarioSelecionado == old(horarioSelecionado) && observacoes == old(observacoes)
              && horariosDisponiveisRaw == old(horariosDisponiveisRaw))
    {
      if paciente.None? || tipoConsulta.None? || dataSelecionada.None? || horarioSelecionado == "" {
        efeitos := efeitos + [Toast(Erro, "Preencha todos os campos obrigatórios!")];
        return;
      }
      isSubmitting := true;
      var dataISO := dataSelecionada.value;
      var agendaObj := Encontrar(horariosDisponiveisRaw, dataISO, horarioSelecionado);
      if agendaObj.None? {
        efeitos := efeitos + [Toast(Erro, "Horário não encontrado!")];
        isSubmitting := false;
        return;
      }
      Enviar(agendaObj.value, postOk, resposta);
      isSubmitting := false;
    }

    /**
     * The booking request of `handleSubmit` once the slot is known, and what
     * follows it: on success a toast, the reset and the refetch; on failure
     * an error toast.
     */
    method Enviar(slot: Slot, postOk: bool, resposta: Option<seq<Slot>>)
      requires Valid() && paciente.Some? && tipoConsulta.Some?
      modifies this
      ensures Valid() && isSubmitting == old(isSubmitting)
      ensures var pedido := PostConsulta(old(paciente).value.id, old(tipoConsulta).value.id, slot.id, old(observacoes));
        && (postOk ==>
              && efeitos == old(efeitos) + [Http(pedido), Toast(Sucesso, "Agendamento realizado com sucesso!"), Http(GetDisponiveis)]
                 + (if resposta.None? then [Toast(Erro, "Erro ao carregar horários disponíveis!")] else [])
              && paciente.None? && tipoConsulta.None? && dataSelecionada.None?
              && horarioSelecionado == "" && observacoes == ""
              && horariosDisponiveisRaw == (if resposta.Some? then resposta.value else old(horariosDisponiveisRaw)))
        && (!postOk ==> efeitos == old(efeitos) + [Http(pedido), Toast(Erro, "Erro ao agendar!")])
      ensures !postOk ==>
        && paciente == old(paciente) && tipoConsulta == old(tipoConsulta) && dataSelecionada == old(dataSelecionada)
        && horarioSelecionado == old(horarioSelecionado) && observacoes == old(observacoes)
        && horariosDisponiveisRaw == old(horariosDisponiveisRaw)
    {
      efeitos := efeitos + [Http(PostConsulta(paciente.value.id, tipoConsulta.value.id, slot.id, observacoes))];
      if postOk {
        efeitos := efeitos + [Toast(Sucesso, "Agendamento realizado com sucesso!")];
        LimparFormulario();
        CarregarHorarios(resposta);
      } else {
        efeitos := efeitos + [Toast(Erro, "Erro ao agendar!")];
      }
    }
  }
}

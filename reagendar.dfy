/**
 * `ReagendarForm`, the rescheduling form inside the consultation card: it
 * loads the free slots, groups their times by date, and on submit resolves
 * the chosen date and time back to a slot before sending the reschedule.
 * The chosen day is held as its YYYY-MM-DD key (`toISOString().slice(0, 10)`
 * of the picked date).
 */
module Reagendamento {
  import opened Wrappers
  import opened Modelo
  import opened Disponibilidade

  class ReagendarForm {
    const consulta: Consulta
    var paciente: Option<Paciente>
    var tipoConsulta: Option<TipoConsulta>
    var dataSelecionada: Option<string>
    var horarioSelecionado: string
    var observacoes: string
    var loading: bool
    var horariosDisponiveisRaw: seq<Slot>
    var horariosDisponiveis: map<string, seq<string>>
    var efeitos: seq<Efeito>

    /** The grouping always matches the slots it was built from. */
    predicate Valid()
      reads this
    {
      horariosDisponiveis == Agrupar(horariosDisponiveisRaw)
    }

    constructor (consulta: Consulta)
      ensures Valid() && this.consulta == consulta
      ensures paciente.None? && tipoConsulta.None? && dataSelecionada.None?
      ensures horarioSelecionado == "" && observacoes == "" && !loading
      ensures horariosDisponiveisRaw == [] && efeitos == []
    {
      this.consulta := consulta;
      paciente, tipoConsulta, dataSelecionada := None, None, None;
      horarioSelecionado, observacoes := "", "";
      loading := false;
      horariosDisponiveisRaw := [];
      horariosDisponiveis := map[];
      efeitos := [];
    }

    /** The times the time select lists for the chosen day (`horariosDisponiveis[dataISO] || []`). */
    function HorariosOferecidos(): seq<string>
      reads this
    {
      if dataSelecionada.None? then [] else HorariosNaData(horariosDisponiveis, dataSelecionada.value)
    }

    /**
     * `fetchHorariosDisponiveis`: GET /agenda/disponiveis; the answer, when
     * there is one, replaces the slots and their grouping. A failure is only
     * logged.
     */
    method CarregarHorarios(resposta: Option<seq<Slot>>)
      requires Valid()
      modifies this
      ensures Valid()
      ensures efeitos == old(efeitos) + [Http(GetDisponiveis)]
      ensures resposta.Some? ==> horariosDisponiveisRaw == resposta.value
      ensures resposta.None? ==> horariosDisponiveisRaw == old(horariosDisponiveisRaw)
      ensures paciente == old(paciente) && tipoConsulta == old(tipoConsulta) && dataSelecionada == old(dataSelecionada)
      ensures horarioSelecionado == old(horarioSelecionado) && observacoes == old(observacoes) && loading == old(loading)
    {
      efeitos := efeitos + [Http(GetDisponiveis)];
      if resposta.Some? {
        horariosDisponiveisRaw := resposta.value;
        horariosDisponiveis := AgruparHorarios(resposta.value);
      }
    }

    /** The patient, type, day, time and notes chosen in the form. */
    method Selecionar(p: Option<Paciente>, t: Option<TipoConsulta>, data: Option<string>, horario: string, obs: string)
      requires Valid()
      modifies this
      ensures Valid()
      ensures paciente == p && tipoConsulta == t && dataSelecionada == data
      ensures horarioSelecionado == horario && observacoes == obs
      ensures loading == old(loading) && efeitos == old(efeitos)
      ensures horariosDisponiveisRaw == old(horariosDisponiveisRaw)
    {
      paciente, tipoConsulta, dataSelecionada := p, t, data;
      horarioSelecionado, observacoes := horario, obs;
    }

    /**
     * `handleSubmit`. A missing patient, type, day or time: an error toast
     * and nothing sent. No slot of that day and time: "Horário não
     * encontrado!" and nothing sent. Otherwise PUT /consultas/:id/reagendar
     * with the matched slot object; on success the dialog closes, the slots
     * are fetched again and only then the consultations. `putOk` is the
     * request's outcome and `resposta` the refetch's answer.
     */
    method HandleSubmit(putOk: bool, resposta: Option<seq<Slot>>)
      requires Valid()
      modifies this
      ensures Valid()
      ensures paciente == old(paciente) && tipoConsulta == old(tipoConsulta) && dataSelecionada == old(dataSelecionada)
      ensures horarioSelecionado == old(horarioSelecionado) && observacoes == old(observacoes)
      ensures old(paciente).None? || old(tipoConsulta).None? || old(dataSelecionada).None? || old(horarioSelecionado) == "" ==>
        && efeitos == old(efeitos) + [Toast(Erro, "Preencha todos os campos obrigatórios!")]
        && horariosDisponiveisRaw == old(horariosDisponiveisRaw) && loading == old(loading)
      ensures old(paciente).Some? && old(tipoConsulta).Some? && old(dataSelecionada).Some? && old(horarioSelecionado) != "" ==>
        var slot := Encontrar(old(horariosDisponiveisRaw), old(dataSelecionada).value, old(horarioSelecionado));
        && (slot.None? ==>
              && efeitos == old(efeitos) + [Toast(Erro, "Horário não encontrado!")]
              && horariosDisponiveisRaw == old(horariosDisponiveisRaw) && loading == old(loading))
        && (slot.Some? ==>
              var pedido := PutReagendar(consulta.id, old(paciente).value, old(tipoConsulta).value, slot.value, old(observacoes));
              && !loading
              && (putOk ==>
                    && efeitos == old(efeitos) + [Http(pedido), Toast(Sucesso, "Consulta reagendada com sucesso!"),
                                                   Chamada(FecharDialogo), Http(GetDisponiveis), Chamada(AtualizarConsultas)]
                    && horariosDisponiveisRaw == (if resposta.Some? then resposta.value else old(horariosDisponiveisRaw)))
              && (!putOk ==>
                    && efeitos == old(efeitos) + [Http(pedido), Toast(Erro, "Erro ao reagendar!")]
                    && horariosDisponiveisRaw == old(horariosDisponiveisRaw)))
    {
      if paciente.None? || tipoConsulta.None? || dataSelecionada.None? || horarioSelecionado == "" {
        efeitos := efeitos + [Toast(Erro, "Preencha todos os campos obrigatórios!")];
        return;
      }
      var dataISO := dataSelecionada.value;
      var agendaObj := Encontrar(horariosDisponiveisRaw, dataISO, horarioSelecionado);
      if agendaObj.None? {
        efeitos := efeitos + [Toast(Erro, "Horário não encontrado!")];
        return;
      }
      Enviar(PutReagendar(consulta.id, paciente.value, tipoConsulta.value, agendaObj.value, observacoes), putOk, resposta);
    }

    /**
     * The request of `handleSubmit` once the slot is known: on success a
     * toast, the dialog closed, the slots fetched again and the list
     * refreshed; on failure an error toast. `loading` ends false.
     */
    method Enviar(pedido: Requisicao, putOk: bool, resposta: Option<seq<Slot>>)
      requires Valid()
      modifies this
      ensures Valid() && !loading
      ensures paciente == old(paciente) && tipoConsulta == old(tipoConsulta) && dataSelecionada == old(dataSelecionada)
      ensures horarioSelecionado == old(horarioSelecionado) && observacoes == old(observacoes)
      ensures putOk ==>
        && efeitos == old(efeitos) + [Http(pedido), Toast(Sucesso, "Consulta reagendada com sucesso!"),
                                       Chamada(FecharDialogo), Http(GetDisponiveis), Chamada(AtualizarConsultas)]
        && horariosDisponiveisRaw == (if resposta.Some? then resposta.value else old(horariosDisponiveisRaw))
      ensures !putOk ==>
        && efeitos == old(efeitos) + [Http(pedido), Toast(Erro, "Erro ao reagendar!")]
        && horariosDisponiveisRaw == old(horariosDisponiveisRaw)
    {
      loading := true;
      efeitos := efeitos + [Http(pedido)];
      if putOk {
        efeitos := efeitos + [Toast(Sucesso, "Consulta reagendada com sucesso!"), Chamada(FecharDialogo)];
        CarregarHorarios(resposta);
        efeitos := efeitos + [Chamada(AtualizarConsultas)];
      } else {
        efeitos := efeitos + [Toast(Erro, "Erro ao reagendar!")];
      }
      loading := false;
    }
  }
}

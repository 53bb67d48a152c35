/**
 * The two agenda forms of the shifts page: `GerarAgenda` asks the server to
 * generate the free slots of a shift between two dates, `ExcluirAgenda` to
 * delete them. Dates are typed as DD/MM/YYYY and sent as YYYY-MM-DD. A
 * JavaScript `Date` at local midnight is modelled by its day number, and an
 * invalid `Date` by `None`.
 */
module FormularioAgenda {
  import opened Wrappers
  import opened Text
  import opened Calendario
  import opened Datas
  import opened Modelo
  import opened Mascaras

  /** The reasons a submission is refused, in the order they are checked. */
  datatype ErroAgenda = NaoAutenticado | SemEscala | CamposVazios | FimAntesDoInicio | DataPassada

  function MensagemErro(e: ErroAgenda): string
  {
    match e
    case NaoAutenticado => "Usuário não autenticado!"
    case SemEscala => "Selecione uma escala!"
    case CamposVazios => "Preencha todos os campos!"
    case FimAntesDoInicio => "A data final não pode ser antes da data inicial!"
    case DataPassada => "As datas não podem ser anteriores à data atual!"
  }

  /**
   * `parseISODate` up to the `Date` constructor: "" gives an invalid
   * `Date`; otherwise the three parts split at '-' are read with `Number`,
   * the month made 0-based, and a `NaN` among them makes the date invalid.
   * The constructor truncates each argument and reads a year 0..99 as
   * 1900..1999.
   */
  function ArgumentosISO(s: string): Option<ArgumentosData>
  {
    if s == "" then None else ArgumentosDasPartes(Split(s, '-'))
  }

  /** `parseISODate`: the day of `new Date(...)`, a month or day out of range rolling over. */
  function ParseISODate(s: string): Option<int>
  {
    var args := ArgumentosISO(s);
    if args.None? then None else Some(DiaJs(args.value.ano, args.value.indiceMes, args.value.dia))
  }

  /** The day a typed DD/MM/YYYY date becomes: `parseISODate(converteDataParaISO(s) || "")`. */
  function DiaDoCampo(s: string): Option<int>
  {
    ParseISODate(ConverteDataParaISO(s).GetOr(""))
  }

  /** `a < b` between two `Date`s: false when either is invalid. */
  predicate Menor(a: Option<int>, b: Option<int>)
  {
    a.Some? && b.Some? && a.value < b.value
  }

  /** The checks both forms run: a logged-in user with an id, a shift with an id, both dates filled in. */
  function ValidarBase(usuario: Option<Usuario>, escala: Option<Escala>, dataInicio: string, dataFinal: string): Option<ErroAgenda>
  {
    if usuario.None? || usuario.value.id == 0 then Some(NaoAutenticado)
    else if escala.None? || escala.value.id == 0 then Some(SemEscala)
    else if dataInicio == "" || dataFinal == "" then Some(CamposVazios)
    else None
  }

  /**
   * `GerarAgenda`'s checks: the common ones, then the end not before the
   * start, then neither date before today (`hoje`, a day number).
   */
  function ValidarGeracao(usuario: Option<Usuario>, escala: Option<Escala>, dataInicio: string, dataFinal: string, hoje: int): Option<ErroAgenda>
  {
    var base := ValidarBase(usuario, escala, dataInicio, dataFinal);
    if base.Some? then base else ValidarDatas(DiaDoCampo(dataInicio), DiaDoCampo(dataFinal), hoje)
  }

  /** The two date checks of `GerarAgenda`, on the parsed dates (`None` for an invalid `Date`). */
  function ValidarDatas(inicio: Option<int>, fim: Option<int>, hoje: int): Option<ErroAgenda>
  {
    if Menor(fim, inicio) then Some(FimAntesDoInicio)
    else if Menor(inicio, Some(hoje)) || Menor(fim, Some(hoje)) then Some(DataPassada)
    else None
  }

  /** `ExcluirAgenda`'s checks: only the common ones. */
  function ValidarExclusao(usuario: Option<Usuario>, escala: Option<Escala>, dataInicio: string, dataFinal: string): Option<ErroAgenda>
  {
    ValidarBase(usuario, escala, dataInicio, dataFinal)
  }

  /** `error.response?.data?.error || "Erro ao gerar agenda"`. */
  function MensagemDeFalha(erroServidor: Option<string>): string
  {
    if erroServidor.Some? && erroServidor.value != "" then erroServidor.value else "Erro ao gerar agenda"
  }

  /**
   * The toast after a deletion: informational when both counts are 0, a
   * success reporting the deleted slots otherwise. A missing count
   * (`undefined`) is not `== 0` and prints as "undefined".
   */
  function ClassificarExclusao(horariosExcluidos: Option<int>, consultasDesmarcadas: Option<int>): (Aviso, string)
  {
    if horariosExcluidos == Some(0) && consultasDesmarcadas == Some(0) then (Info, "Nenhum horário encontrado no período!")
    else (Sucesso, (if horariosExcluidos.Some? then IntToString(horariosExcluidos.value) else "undefined") + " horários excluídos")
  }

  /**
   * YYYY-MM-DD written in digits, with a year from 100 on, is read as those
   * numbers, the month made 0-based. The day is not checked against the
   * month: the `Date` constructor rolls it over.
   */
  lemma {:induction false} ParseISODateDigitos(ano: string, mes: string, dia: string, y: int, m: int, d: int)
    requires Numeral(ano) && Numeral(mes) && Numeral(dia)
    requires y == DigitsValue(ano) && m == DigitsValue(mes) && d == DigitsValue(dia) && y >= 100
    ensures ArgumentosISO(ano + "-" + mes + "-" + dia) == Some(ArgumentosData(y, m - 1, d))
  {
    PartesISO(ano, mes, dia);
    var partes := [ano, mes, dia];
    ParteNumeral(partes, 0);
    ParteNumeral(partes, 1);
    ParteNumeral(partes, 2);
    PartesNumerais(partes, y, m, d);
    ISOPorPartes(ano + "-" + mes + "-" + dia, partes);
  }

  /** A non-empty text is read through the parts it splits into. */
  lemma ISOPorPartes(texto: string, partes: seq<string>)
    requires |texto| > 0 && Split(texto, '-') == partes
    ensures ArgumentosISO(texto) == ArgumentosDasPartes(partes)
  {
  }

  /**
   * Two valid dates pass the date checks exactly when the range starts no
   * earlier than today and ends no earlier than it starts, a one-day range
   * included; a reversed range is reported as such even when it also lies
   * in the past.
   */
  lemma ValidarDatasIntervalo(inicio: int, fim: int, hoje: int)
    ensures ValidarDatas(Some(inicio), Some(fim), hoje).None? <==> hoje <= inicio <= fim
    ensures fim < inicio ==> ValidarDatas(Some(inicio), Some(fim), hoje) == Some(FimAntesDoInicio)
    ensures inicio <= fim && inicio < hoje ==> ValidarDatas(Some(inicio), Some(fim), hoje) == Some(DataPassada)
  {
  }

  /**
   * An invalid `Date` fails no comparison: with one date invalid only the
   * other is checked against today, and with both invalid nothing is.
   */
  lemma ValidarDatasInvalida(data: Option<int>, hoje: int)
    ensures ValidarDatas(None, data, hoje).None? <==> data.None? || hoje <= data.value
    ensures ValidarDatas(data, None, hoje).None? <==> data.None? || hoje <= data.value
    ensures ValidarDatas(None, None, hoje).None?
  {
  }

  /**
   * A date that `converteDataParaISO` rejects becomes an invalid `Date`: it
   * fails no comparison, so two rejected dates pass both date checks and
   * are sent as `null`.
   */
  lemma GeracaoDataInvalida(usuario: Option<Usuario>, escala: Option<Escala>, dataInicio: string, dataFinal: string, hoje: int)
    requires ValidarBase(usuario, escala, dataInicio, dataFinal).None?
    requires ConverteDataParaISO(dataInicio).None? && ConverteDataParaISO(dataFinal).None?
    ensures DiaDoCampo(dataInicio).None? && DiaDoCampo(dataFinal).None?
    ensures ValidarGeracao(usuario, escala, dataInicio, dataFinal, hoje).None?
  {
  }

  /**
   * Eight digits typed into a date field become DD/MM/YYYY, which
   * `converteDataParaISO` turns into YYYY-MM-DD when the day, the month and
   * the year are in range: typing "01012025" sends "2025-01-01".
   */
  lemma {:induction false} DataDigitadaAceita(entrada: string)
    requires |OnlyDigits(entrada)| >= 8
    requires var d := OnlyDigits(entrada);
      1 <= DigitsValue(d[..2]) <= 31 && 1 <= DigitsValue(d[2..4]) <= 12 && DigitsValue(d[4..8]) >= 1900
    ensures var d := OnlyDigits(entrada);
      ConverteDataParaISO(FormatarDataNascimento(entrada)) == Some(d[4..8] + "-" + d[2..4] + "-" + d[..2])
  {
    var d := OnlyDigits(entrada);
    var e := Prefixo(d, 8);
    FormatarDataNascimentoForma(entrada);
    assert e[..2] == d[..2] && e[2..4] == d[2..4] && e[4..] == d[4..8];
    ConverteDataParaISOAceita(d[..2], d[2..4], d[4..8]);
  }

  /**
   * With fewer than eight digits typed, the field is nothing
   * `converteDataParaISO` accepts: it has no third part, or its year is
   * below 1000. `GerarAgenda` then lets it through and sends `null`.
   */
  lemma {:induction false} DataIncompletaRejeitada(entrada: string)
    requires |OnlyDigits(entrada)| < 8
    ensures ConverteDataParaISO(FormatarDataNascimento(entrada)) == None
  {
    var d := OnlyDigits(entrada);
    FormatarDataNascimentoForma(entrada);
    assert Prefixo(d, 8) == d;
    if |d| <= 2 {
      SemBarra(d);
      SplitNoSep(d, '/');
      ConverteDataParaISOIncompleta(d);
    } else if |d| <= 4 {
      SemBarra(d[..2]);
      SemBarra(d[2..]);
      SplitNoSep(d[2..], '/');
      SplitAppend(d[..2], '/', d[2..]);
      ConverteDataParaISOIncompleta(d[..2] + "/" + d[2..]);
    } else {
      var ano := d[4..];
      ValorAbaixoDaPotencia(ano);
      PotenciaCrescente(|ano|, 3);
      assert Pow10(3) == 1000;
      ConverteDataParaISORejeita(d[..2], d[2..4], ano);
    }
  }

  lemma SemBarra(s: string)
    requires AllDigits(s)
    ensures '/' !in s
  {
  }

  /** A number written with `n` digits is below 10^n. */
  lemma {:induction false} ValorAbaixoDaPotencia(s: string)
    requires AllDigits(s)
    ensures DigitsValue(s) < Pow10(|s|)
  {
    if s != [] {
      ValorAbaixoDaPotencia(s[..|s| - 1]);
    }
  }

  lemma {:induction false} PotenciaCrescente(m: nat, n: nat)
    requires m <= n
    ensures Pow10(m) <= Pow10(n)
    decreases n
  {
    if m < n {
      PotenciaCrescente(m, n - 1);
    }
  }

  /**
   * Both forms report the same error for the common checks, and deletion
   * never checks the dates: wherever the common checks pass it is accepted,
   * whatever the order of the dates or how far in the past they are.
   */
  lemma ExclusaoSoChecaBase(usuario: Option<Usuario>, escala: Option<Escala>, dataInicio: string, dataFinal: string, hoje: int)
    ensures ValidarBase(usuario, escala, dataInicio, dataFinal).Some? ==>
      ValidarGeracao(usuario, escala, dataInicio, dataFinal, hoje) == ValidarExclusao(usuario, escala, dataInicio, dataFinal)
    ensures ValidarExclusao(usuario, escala, dataInicio, dataFinal).None? <==>
      usuario.Some? && usuario.value.id != 0 && escala.Some? && escala.value.id != 0 && dataInicio != "" && dataFinal != ""
    ensures ValidarExclusao(usuario, escala, dataInicio, dataFinal) != Some(FimAntesDoInicio)
    ensures ValidarExclusao(usuario, escala, dataInicio, dataFinal) != Some(DataPassada)
  {
  }

  /**
   * Both counts 0 give the informational toast; anything else a success
   * toast that starts with the number of deleted slots, so 0 deleted slots
   * with 2 unbooked consultations is reported as "0 horários excluídos".
   */
  lemma ClassificarExclusaoCaracterizacao(h: Option<int>, c: Option<int>)
    ensures ClassificarExclusao(h, c).0 == Info <==> h == Some(0) && c == Some(0)
    ensures ClassificarExclusao(h, c).0 != Erro
    ensures h.Some? && h.value >= 0 && ClassificarExclusao(h, c).0 == Sucesso ==>
      ClassificarExclusao(h, c).1 == NatToString(h.value) + " horários excluídos"
    ensures h == Some(0) && c.Some? && c.value > 0 ==> ClassificarExclusao(h, c) == (Sucesso, "0 horários excluídos")
  {
    assert IntToString(0) == "0" by { assert NatToString(0) == [DigitChar(0)]; }
    assert "0" + " horários excluídos" == "0 horários excluídos";
  }

  /** `MensagemDeFalha` keeps a non-empty server message and falls back to the default otherwise. */
  lemma MensagemDeFalhaCaracterizacao(erroServidor: Option<string>)
    ensures MensagemDeFalha(erroServidor) != ""
    ensures erroServidor.Some? && erroServidor.value != "" <==> MensagemDeFalha(erroServidor) != "Erro ao gerar agenda" || erroServidor == Some("Erro ao gerar agenda")
  {
  }

  /** `GerarAgenda`. */
  class GerarAgendaForm {
    /** The logged-in user, if any. */
    const usuario: Option<Usuario>
    /** Whether an `onAgendaGerada` callback was passed. */
    const comCallback: bool
    var dataInicio: string
    var dataFinal: string
    var escala: Option<Escala>
    var efeitos: seq<Efeito>

    constructor (usuario: Option<Usuario>, comCallback: bool)
      ensures this.usuario == usuario && this.comCallback == comCallback
      ensures dataInicio == "" && dataFinal == "" && escala.None? && efeitos == []
    {
      this.usuario := usuario;
      this.comCallback := comCallback;
      dataInicio, dataFinal := "", "";
      escala := None;
      efeitos := [];
    }

    /** The start-date input keeps what was typed through the DD/MM/YYYY mask. */
    method DigitarDataInicio(entrada: string)
      modifies this
      ensures dataInicio == FormatarDataNascimento(entrada)
      ensures dataFinal == old(dataFinal) && escala == old(escala) && efeitos == old(efeitos)
    {
      dataInicio := FormatarDataNascimento(entrada);
    }

    /** The end-date input keeps what was typed through the DD/MM/YYYY mask. */
    method DigitarDataFinal(entrada: string)
      modifies this
      ensures dataFinal == FormatarDataNascimento(entrada)
      ensures dataInicio == old(dataInicio) && escala == old(escala) && efeitos == old(efeitos)
    {
      dataFinal := FormatarDataNascimento(entrada);
    }

    /** The shift select: the shift whose id was picked, `None` when none has it. */
    method EscolherEscala(e: Option<Escala>)
      modifies this
      ensures escala == e
      ensures dataInicio == old(dataInicio) && dataFinal == old(dataFinal) && efeitos == old(efeitos)
    {
      escala := e;
    }

    /**
     * `handleSubmit`: the first failed check is reported and nothing is
     * sent; otherwise POST /agenda/gerar with both dates converted to ISO.
     * On success the three fields are cleared before the success toast and
     * the callback; on failure they stay and the server's message, or the
     * default one, is shown. `hoje` is today's day number, `postOk` the
     * request's outcome and `erroServidor` the error body's `error` field.
     */
    method HandleSubmit(hoje: int, postOk: bool, erroServidor: Option<string>)
      modifies this
      ensures var erro := ValidarGeracao(usuario, old(escala), old(dataInicio), old(dataFinal), hoje);
        && (erro.Some? ==>
              && efeitos == old(efeitos) + [Toast(Erro, MensagemErro(erro.value))]
              && dataInicio == old(dataInicio) && dataFinal == old(dataFinal) && escala == old(escala))
        && (erro.None? ==>
              var pedido := PostGerarAgenda(usuario.value.id, old(escala).value.id,
                                            ConverteDataParaISO(old(dataInicio)), ConverteDataParaISO(old(dataFinal)));
              && (postOk ==>
                    && efeitos == old(efeitos) + [Http(pedido), Toast(Sucesso, "Agenda gerada com sucesso!")]
                       + (if comCallback then [Chamada(AgendaGerada)] else [])
                    && dataInicio == "" && dataFinal == "" && escala.None?)
              && (!postOk ==>
                    && efeitos == old(efeitos) + [Http(pedido), Toast(Erro, MensagemDeFalha(erroServidor))]
                    && dataInicio == old(dataInicio) && dataFinal == old(dataFinal) && escala == old(escala)))
    {
      var erro := ValidarGeracao(usuario, escala, dataInicio, dataFinal, hoje);
      if erro.Some? {
        efeitos := efeitos + [Toast(Erro, MensagemErro(erro.value))];
        return;
      }
      var agenda := PostGerarAgenda(usuario.value.id, escala.value.id, ConverteDataParaISO(dataInicio), ConverteDataParaISO(dataFinal));
      Enviar(agenda, postOk, erroServidor);
    }

    /** The request of an accepted submission and what follows its outcome. */
    method Enviar(agenda: Requisicao, postOk: bool, erroServidor: Option<string>)
      modifies this
      ensures postOk ==>
        && efeitos == old(efeitos) + [Http(agenda), Toast(Sucesso, "Agenda gerada com sucesso!")]
           + (if comCallback then [Chamada(AgendaGerada)] else [])
        && dataInicio == "" && dataFinal == "" && escala.None?
      ensures !postOk ==>
        && efeitos == old(efeitos) + [Http(agenda), Toast(Erro, MensagemDeFalha(erroServidor))]
        && dataInicio == old(dataInicio) && dataFinal == old(dataFinal) && escala == old(escala)
    {
      efeitos := efeitos + [Http(agenda)];
      if postOk {
        dataFinal, dataInicio, escala := "", "", None;
        efeitos := efeitos + [Toast(Sucesso, "Agenda gerada com sucesso!")];
        if comCallback {
          efeitos := efeitos + [Chamada(AgendaGerada)];
        }
      } else {
        efeitos := efeitos + [Toast(Erro, MensagemDeFalha(erroServidor))];
      }
    }
  }

  /** The answer of DELETE /agenda/excluir: its two counts, `None` when absent. */
  datatype RespostaExclusao = RespostaExclusao(horariosExcluidos: Option<int>, consultasDesmarcadas: Option<int>)

  /** `ExcluirAgenda`. */
  class ExcluirAgendaForm {
    const usuario: Option<Usuario>
    /** Whether an `onAgendaExcluida` callback was passed. */
    const comCallback: bool
    var dataInicio: string
    var dataFinal: string
    var escala: Option<Escala>
    var efeitos: seq<Efeito>

    constructor (usuario: Option<Usuario>, comCallback: bool)
      ensures this.usuario == usuario && this.comCallback == comCallback
      ensures dataInicio == "" && dataFinal == "" && escala.None? && efeitos == []
    {
      this.usuario := usuario;
      this.comCallback := comCallback;
      dataInicio, dataFinal := "", "";
      escala := None;
      efeitos := [];
    }

    /** The start-date input keeps what was typed through the DD/MM/YYYY mask. */
    method DigitarDataInicio(entrada: string)
      modifies this
      ensures dataInicio == FormatarDataNascimento(entrada)
      ensures dataFinal == old(dataFinal) && escala == old(escala) && efeitos == old(efeitos)
    {
      dataInicio := FormatarDataNascimento(entrada);
    }

    /** The end-date input keeps what was typed through the DD/MM/YYYY mask. */
    method DigitarDataFinal(entrada: string)
      modifies this
      ensures dataFinal == FormatarDataNascimento(entrada)
      ensures dataInicio == old(dataInicio) && escala == old(escala) && efeitos == old(efeitos)
    {
      dataFinal := FormatarDataNascimento(entrada);
    }

    /** The shift select: the shift whose id was picked, `None` when none has it. */
    method EscolherEscala(e: Option<Escala>)
      modifies this
      ensures escala == e
      ensures dataInicio == old(dataInicio) && dataFinal == old(dataFinal) && efeitos == old(efeitos)
    {
      escala := e;
    }

    /**
     * `handleSubmit`: only the common checks, then DELETE /agenda/excluir
     * with both dates converted to ISO. After an answer the three fields
     * are cleared and the counts classified; after a failure they stay and
     * an error toast is shown. `resposta` is the answer, `None` on failure.
     */
    method HandleSubmit(resposta: Option<RespostaExclusao>, erroServidor: Option<string>)
      modifies this
      ensures var erro := ValidarExclusao(usuario, old(escala), old(dataInicio), old(dataFinal));
        && (erro.Some? ==>
              && efeitos == old(efeitos) + [Toast(Erro, MensagemErro(erro.value))]
              && dataInicio == old(dataInicio) && dataFinal == old(dataFinal) && escala == old(escala))
        && (erro.None? ==>
              var pedido := DeleteAgenda(usuario.value.id, old(escala).value.id,
                                         ConverteDataParaISO(old(dataInicio)), ConverteDataParaISO(old(dataFinal)));
              && (resposta.Some? ==>
                    var aviso := ClassificarExclusao(resposta.value.horariosExcluidos, resposta.value.consultasDesmarcadas);
                    && efeitos == old(efeitos) + [Http(pedido), Toast(aviso.0, aviso.1)]
                       + (if comCallback then [Chamada(AgendaExcluida)] else [])
                    && dataInicio == "" && dataFinal == "" && escala.None?)
              && (resposta.None? ==>
                    && efeitos == old(efeitos) + [Http(pedido), Toast(Erro, MensagemDeFalha(erroServidor))]
                    && dataInicio == old(dataInicio) && dataFinal == old(dataFinal) && escala == old(escala)))
    {
      if usuario.None? || usuario.value.id == 0 {
        efeitos := efeitos + [Toast(Erro, "Usuário não autenticado!")];
        return;
      }
      if escala.None? || escala.value.id == 0 {
        efeitos := efeitos + [Toast(Erro, "Selecione uma escala!")];
        return;
      }
      if dataInicio == "" || dataFinal == "" {
        efeitos := efeitos + [Toast(Erro, "Preencha todos os campos!")];
        return;
      }
      var agenda := DeleteAgenda(usuario.value.id, escala.value.id, ConverteDataParaISO(dataInicio), ConverteDataParaISO(dataFinal));
      Enviar(agenda, resposta, erroServidor);
    }

    /** The request of an accepted submission and what follows its answer. */
    method Enviar(agenda: Requisicao, resposta: Option<RespostaExclusao>, erroServidor: Option<string>)
      modifies this
      ensures resposta.Some? ==>
        var aviso := ClassificarExclusao(resposta.value.horariosExcluidos, resposta.value.consultasDesmarcadas);
        && efeitos == old(efeitos) + [Http(agenda), Toast(aviso.0, aviso.1)]
           + (if comCallback then [Chamada(AgendaExcluida)] else [])
        && dataInicio == "" && dataFinal == "" && escala.None?
      ensures resposta.None? ==>
        && efeitos == old(efeitos) + [Http(agenda), Toast(Erro, MensagemDeFalha(erroServidor))]
        && dataInicio == old(dataInicio) && dataFinal == old(dataFinal) && escala == old(escala)
    {
      efeitos := efeitos + [Http(agenda)];
      if resposta.Some? {
        dataFinal, dataInicio, escala := "", "", None;
        var r := resposta.value;
        if r.horariosExcluidos == Some(0) && r.consultasDesmarcadas == Some(0) {
          efeitos := efeitos + [Toast(Info, "Nenhum horário encontrado no período!")];
        } else {
          var n := if r.horariosExcluidos.Some? then IntToString(r.horariosExcluidos.value) else "undefined";
          efeitos := efeitos + [Toast(Sucesso, n + " horários excluídos")];
        }
        if comCallback {
          efeitos := efeitos + [Chamada(AgendaExcluida)];
        }
      } else {
        efeitos := efeitos + [Toast(Erro, MensagemDeFalha(erroServidor))];
      }
    }
  }
}

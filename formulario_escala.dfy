/**
 * The shift create form (`CadastroEscala`) and the shift edit form
 * (`EscalaList`). Both run the same three checks before sending anything:
 * no empty field, both times valid, end strictly after start.
 */
module FormularioEscala {
  import opened Wrappers
  import opened Text
  import opened Horas
  import opened Mascaras
  import opened Modelo

  datatype ErroEscala = CamposVazios | HorarioInvalido | FimNaoPosterior

  function MensagemErro(e: ErroEscala): string
  {
    match e
    case CamposVazios => "Preencha todos os campos!"
    case HorarioInvalido => "Horário deve estar entre 00:00 e 23:59!"
    case FimNaoPosterior => "A hora final deve ser maior que a hora inicial!"
  }

  /** `a <= b` on numbers: false when either is `NaN`. */
  predicate MenorOuIgual(a: Option<real>, b: Option<real>) { a.Some? && b.Some? && a.value <= b.value }

  /**
   * The checks of `handleSubmit`, in order; the first that fails is the
   * error. `intervaloVazio` is the interval test, which only the create form
   * can fail.
   */
  function ValidarEscala(diaSemana: string, horaInicio: string, horaFim: string, intervaloVazio: bool): Option<ErroEscala>
  {
    var ini := NormalizaHora(horaInicio);
    var fim := NormalizaHora(horaFim);
    if diaSemana == "" || horaInicio == "" || horaFim == "" || intervaloVazio then Some(CamposVazios)
    else if !HoraValida(ini) || !HoraValida(fim) then Some(HorarioInvalido)
    else if MenorOuIgual(HoraParaMinutos(fim), HoraParaMinutos(ini)) then Some(FimNaoPosterior)
    else None
  }

  /** A time as the API receives it: normalised, then with seconds. */
  function HoraEnviada(hora: string): string
  {
    ToLocalTime(NormalizaHora(hora))
  }

  /**
   * A shift is accepted exactly when every field is filled, both times are
   * valid and the end is strictly later in the day than the start.
   */
  lemma {:induction false} ValidarEscalaAceita(diaSemana: string, horaInicio: string, horaFim: string, intervaloVazio: bool)
    ensures ValidarEscala(diaSemana, horaInicio, horaFim, intervaloVazio).None? <==>
      (diaSemana != "" && horaInicio != "" && horaFim != "" && !intervaloVazio
       && HoraValida(horaInicio) && HoraValida(horaFim)
       && Minutos(NormalizaHora(horaInicio)) < Minutos(NormalizaHora(horaFim)))
  {
    NormalizaHoraIdempotente(horaInicio);
    NormalizaHoraIdempotente(horaFim);
    var ini, fim := NormalizaHora(horaInicio), NormalizaHora(horaFim);
    if HoraValida(horaInicio) && HoraValida(horaFim) {
      HoraParaMinutosValida(ini);
      HoraParaMinutosValida(fim);
    }
  }

  /**
   * With every field filled and both times valid, the error is "end not
   * after start" exactly when the end's minute of the day is not greater.
   */
  lemma {:induction false} ValidarEscalaFimNaoPosterior(diaSemana: string, horaInicio: string, horaFim: string, intervaloVazio: bool)
    requires diaSemana != "" && horaInicio != "" && horaFim != "" && !intervaloVazio
    requires HoraValida(horaInicio) && HoraValida(horaFim)
    ensures ValidarEscala(diaSemana, horaInicio, horaFim, intervaloVazio) == Some(FimNaoPosterior)
      <==> Minutos(NormalizaHora(horaFim)) <= Minutos(NormalizaHora(horaInicio))
  {
    NormalizaHoraIdempotente(horaInicio);
    NormalizaHoraIdempotente(horaFim);
    HoraParaMinutosValida(NormalizaHora(horaInicio));
    HoraParaMinutosValida(NormalizaHora(horaFim));
  }

  /** A shift that ends when it starts is always refused. */
  lemma ValidarEscalaMesmaHora(diaSemana: string, hora: string, intervaloVazio: bool)
    ensures ValidarEscala(diaSemana, hora, hora, intervaloVazio).Some?
  {
    ValidarEscalaAceita(diaSemana, hora, hora, intervaloVazio);
  }

  /** An accepted time reaches the API as HH:MM:SS: the normalised HH:MM followed by ":00". */
  lemma HoraEnviadaFormato(hora: string)
    requires HoraValida(hora)
    ensures |HoraEnviada(hora)| == 8 && HoraEnviada(hora)[..5] == NormalizaHora(hora)
    ensures FormatoHHMM(HoraEnviada(hora)[..5]) && HoraEnviada(hora)[5..] == ":00"
  {
    ToLocalTimeHHMM(NormalizaHora(hora));
  }

  /**
   * What the time field can hold: with `d` the first four digits typed, the
   * masked value is a valid time exactly when `d` is a bare hour 0-23 or
   * four digits HHMM with hour below 24 and minute below 60. Three digits
   * ("930" shows as "93:0") are never valid.
   */
  lemma {:induction false} HoraDigitadaValida(entrada: string)
    ensures var d := Prefixo(OnlyDigits(entrada), 4);
      HoraValida(FormatTimeInput(entrada)) <==>
        ((1 <= |d| <= 2 && DigitsValue(d) < 24)
         || (|d| == 4 && DigitsValue(d[..2]) < 24 && DigitsValue(d[2..]) < 60))
  {
    var d := Prefixo(OnlyDigits(entrada), 4);
    var r := FormatTimeInput(entrada);
    SliceFromZero(OnlyDigits(entrada), 4);
    assert Slice(OnlyDigits(entrada), 0, 4) == d;
    DigitosDoPrefixo(OnlyDigits(entrada), 4);
    if |d| <= 2 {
      assert r == d;
      if |d| >= 1 {
        HoraNuaValida(d);
      }
    } else {
      assert Slice(d, 0, 2) == d[..2];
      assert Slice(d, 2, |d|) == d[2..];
      assert r == d[..2] + ":" + d[2..];
      if |d| == 4 {
        DoisDigitos(d[..2]);
        DoisDigitos(d[2..]);
        assert r[3..] == d[2..];
        DoisDigitos(r[..2]);
        DoisDigitos(r[3..]);
      }
    }
  }

  /** `CadastroEscala`: the create form and the effects of submitting it. */
  class CadastroEscala {
    var diaSemana: string
    var horaInicio: string
    var horaFinal: string
    var duracaoMinutos: string
    var efeitos: seq<Efeito>
    /** The logged-in user, sent as the shift's dentist. */
    const usuario: Option<Usuario>
    /** An `onEscalaCadastrada` callback was given. */
    const comCallback: bool

    constructor (usuario: Option<Usuario>, comCallback: bool)
      ensures diaSemana == "" && horaInicio == "" && horaFinal == "" && duracaoMinutos == ""
      ensures efeitos == [] && this.usuario == usuario && this.comCallback == comCallback
    {
      diaSemana, horaInicio, horaFinal, duracaoMinutos := "", "", "", "";
      efeitos := [];
      this.usuario := usuario;
      this.comCallback := comCallback;
    }

    method EscolherDia(dia: string)
      modifies this
      ensures diaSemana == dia
      ensures horaInicio == old(horaInicio) && horaFinal == old(horaFinal) && duracaoMinutos == old(duracaoMinutos)
      ensures efeitos == old(efeitos)
    {
      diaSemana := dia;
    }

    /** The start field goes through the HH:MM digit mask. */
    method DigitarHoraInicio(entrada: string)
      modifies this
      ensures horaInicio == FormatTimeInput(entrada)
      ensures diaSemana == old(diaSemana) && horaFinal == old(horaFinal) && duracaoMinutos == old(duracaoMinutos)
      ensures efeitos == old(efeitos)
    {
      horaInicio := FormatTimeInput(entrada);
    }

    method DigitarHoraFinal(entrada: string)
      modifies this
      ensures horaFinal == FormatTimeInput(entrada)
      ensures diaSemana == old(diaSemana) && horaInicio == old(horaInicio) && duracaoMinutos == old(duracaoMinutos)
      ensures efeitos == old(efeitos)
    {
      horaFinal := FormatTimeInput(entrada);
    }

    /** The interval is kept as typed, with no check of its value. */
    method DigitarDuracao(entrada: string)
      modifies this
      ensures duracaoMinutos == entrada
      ensures diaSemana == old(diaSemana) && horaInicio == old(horaInicio) && horaFinal == old(horaFinal)
      ensures efeitos == old(efeitos)
    {
      duracaoMinutos := entrada;
    }

    /**
     * `handleSubmit`: a failed check shows its message and sends nothing;
     * otherwise POST /escalas. On success the four fields are cleared, a
     * success toast is shown and the callback runs; on failure the fields
     * stay and an error toast is shown. `postOk` is the request's outcome.
     */
    method HandleSubmit(postOk: bool)
      modifies this
      ensures var erro := ValidarEscala(old(diaSemana), old(horaInicio), old(horaFinal), old(duracaoMinutos) == "");
        var pedido := PostEscala(old(diaSemana), HoraEnviada(old(horaInicio)), HoraEnviada(old(horaFinal)), old(duracaoMinutos), usuario);
        && (erro.Some? ==>
              efeitos == old(efeitos) + [Toast(Erro, MensagemErro(erro.value))])
        && (erro.None? && postOk ==>
              efeitos == old(efeitos) + [Http(pedido), Toast(Sucesso, "Escala cadastrada com sucesso!")]
                + (if comCallback then [Chamada(EscalaCadastrada)] else []))
        && (erro.None? && !postOk ==>
              efeitos == old(efeitos) + [Http(pedido), Toast(Erro, "Erro ao cadastrar escala!")])
        && (erro.None? && postOk ==>
              diaSemana == "" && horaInicio == "" && horaFinal == "" && duracaoMinutos == "")
        && (!(erro.None? && postOk) ==>
              diaSemana == old(diaSemana) && horaInicio == old(horaInicio)
              && horaFinal == old(horaFinal) && duracaoMinutos == old(duracaoMinutos))
    {
      var erro := ValidarEscala(diaSemana, horaInicio, horaFinal, duracaoMinutos == "");
      if erro.Some? {
        efeitos := efeitos + [Toast(Erro, MensagemErro(erro.value))];
      } else {
        Enviar(PostEscala(diaSemana, HoraEnviada(horaInicio), HoraEnviada(horaFinal), duracaoMinutos, usuario), postOk);
      }
    }

    /**
     * The request of `handleSubmit` once the checks pass: on success the
     * four fields are cleared, a success toast is shown and the callback
     * runs; on failure an error toast is shown.
     */
    method Enviar(pedido: Requisicao, postOk: bool)
      modifies this
      ensures postOk ==>
        && efeitos == old(efeitos) + [Http(pedido), Toast(Sucesso, "Escala cadastrada com sucesso!")]
             + (if comCallback then [Chamada(EscalaCadastrada)] else [])
        && diaSemana == "" && horaInicio == "" && horaFinal == "" && duracaoMinutos == ""
      ensures !postOk ==>
        && efeitos == old(efeitos) + [Http(pedido), Toast(Erro, "Erro ao cadastrar escala!")]
        && diaSemana == old(diaSemana) && horaInicio == old(horaInicio)
        && horaFinal == old(horaFinal) && duracaoMinutos == old(duracaoMinutos)
    {
      efeitos := efeitos + [Http(pedido)];
      if postOk {
        diaSemana, horaInicio, horaFinal, duracaoMinutos := "", "", "", "";
        efeitos := efeitos + [Toast(Sucesso, "Escala cadastrada com sucesso!")];
        if comCallback {
          efeitos := efeitos + [Chamada(EscalaCadastrada)];
        }
      } else {
        efeitos := efeitos + [Toast(Erro, "Erro ao cadastrar escala!")];
      }
    }
  }

  /** `EscalaList`: the edit form of one stored shift. */
  class EdicaoEscala {
    const escala: Escala
    var diaSemana: string
    var horaInicio: string
    var horaFim: string
    /** `Number(...)` of the typed interval; `None` is `NaN`. */
    var intervaloMinutos: Option<real>
    var efeitos: seq<Efeito>

    /** The form opens on the stored weekday and interval and the HH:MM of the stored times. */
    constructor (escala: Escala)
      ensures this.escala == escala && diaSemana == escala.diaSemana
      ensures horaInicio == HoraDoFormulario(escala.horaInicio) && horaFim == HoraDoFormulario(escala.horaFim)
      ensures intervaloMinutos == Some(escala.intervaloMinutos) && efeitos == []
    {
      this.escala := escala;
      diaSemana := escala.diaSemana;
      horaInicio := HoraDoFormulario(escala.horaInicio);
      horaFim := HoraDoFormulario(escala.horaFim);
      intervaloMinutos := Some(escala.intervaloMinutos);
      efeitos := [];
    }

    method EscolherDia(dia: string)
      modifies this
      ensures diaSemana == dia
      ensures horaInicio == old(horaInicio) && horaFim == old(horaFim) && intervaloMinutos == old(intervaloMinutos)
      ensures efeitos == old(efeitos)
    {
      diaSemana := dia;
    }

    method DigitarHoraInicio(entrada: string)
      modifies this
      ensures horaInicio == FormatTimeInput(entrada)
      ensures diaSemana == old(diaSemana) && horaFim == old(horaFim) && intervaloMinutos == old(intervaloMinutos)
      ensures efeitos == old(efeitos)
    {
      horaInicio := FormatTimeInput(entrada);
    }

    method DigitarHoraFim(entrada: string)
      modifies this
      ensures horaFim == FormatTimeInput(entrada)
      ensures diaSemana == old(diaSemana) && horaInicio == old(horaInicio) && intervaloMinutos == old(intervaloMinutos)
      ensures efeitos == old(efeitos)
    {
      horaFim := FormatTimeInput(entrada);
    }

    /** The interval field stores `Number(value)`: an emptied field holds 0. */
    method DigitarIntervalo(entrada: string)
      modifies this
      ensures intervaloMinutos == ParseNumber(entrada)
      ensures entrada == "" ==> intervaloMinutos == Some(0.0)
      ensures diaSemana == old(diaSemana) && horaInicio == old(horaInicio) && horaFim == old(horaFim)
      ensures efeitos == old(efeitos)
    {
      intervaloMinutos := ParseNumber(entrada);
    }

    /**
     * `handleSubmit`: the same checks as the create form, except that the
     * interval test (`== null`) never fails, so any interval, 0 included, is
     * sent. On success PUT /escalas/:id, then the list refresh (not awaited)
     * and a success toast; the form keeps its values.
     */
    method HandleSubmit(putOk: bool)
      modifies this
      ensures diaSemana == old(diaSemana) && horaInicio == old(horaInicio) && horaFim == old(horaFim)
      ensures intervaloMinutos == old(intervaloMinutos)
      ensures var erro := ValidarEscala(diaSemana, horaInicio, horaFim, false);
        var pedido := PutEscala(escala.id, diaSemana, HoraEnviada(horaInicio), HoraEnviada(horaFim), intervaloMinutos);
        && (erro.Some? ==>
              efeitos == old(efeitos) + [Toast(Erro, MensagemErro(erro.value))])
        && (erro.None? && putOk ==>
              efeitos == old(efeitos) + [Http(pedido), Chamada(AtualizarEscalas), Toast(Sucesso, "Escala atualizada com sucesso!")])
        && (erro.None? && !putOk ==>
              efeitos == old(efeitos) + [Http(pedido), Toast(Erro, "Erro ao atualizar escala!")])
    {
      var intervaloNulo := false;  // `Number(...)` is never null or undefined
      var erro := ValidarEscala(diaSemana, horaInicio, horaFim, intervaloNulo);
      if erro.Some? {
        efeitos := efeitos + [Toast(Erro, MensagemErro(erro.value))];
      } else {
        var atualizada := PutEscala(escala.id, diaSemana, HoraEnviada(horaInicio), HoraEnviada(horaFim), intervaloMinutos);
        efeitos := efeitos + [Http(atualizada)];
        if putOk {
          efeitos := efeitos + [Chamada(AtualizarEscalas), Toast(Sucesso, "Escala atualizada com sucesso!")];
        } else {
          efeitos := efeitos + [Toast(Erro, "Erro ao atualizar escala!")];
        }
      }
    }
  }

  /** A stored shift opened in the edit form and saved unchanged is sent with the same times. */
  lemma EdicaoSemAlteracao(armazenada: string)
    requires |armazenada| == 8 && FormatoHHMM(armazenada[..5]) && armazenada[5..] == ":00"
    ensures HoraValida(HoraDoFormulario(armazenada))
    ensures HoraEnviada(HoraDoFormulario(armazenada)) == armazenada
  {
    assert armazenada[5] == ':' && armazenada[6] == '0' && armazenada[7] == '0';
    HoraDoFormularioArmazenada(armazenada);
    var s := armazenada[..5];
    assert armazenada == s + ":00";
  }
}

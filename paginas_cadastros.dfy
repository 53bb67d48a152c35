/**
 * The registration pages' figures: the patient search, counts and page
 * range of `Pacientes`, the shift counts of `Escalas`, and the price
 * figures of `TiposConsulta`. Prices are exact reals; a missing or null
 * price counts as 0.
 */
module PaginasCadastros {
  import opened Wrappers
  import opened Text
  import opened Modelo
  import opened ConverteDiaSemana
  import opened Filtro
  import opened EstatisticasPainel

  /**
   * The patient search: the term, lower-cased, inside the lower-cased name
   * or e-mail, or the term as typed inside the phone number.
   */
  predicate PacienteCombina(p: Paciente, searchTerm: string)
  {
    var termo := ToLower(searchTerm);
    Includes(ToLower(p.nome), termo) || Includes(ToLower(p.email), termo) || Includes(p.telefone, searchTerm)
  }

  /** `pacientesFiltrados`. */
  function PacientesFiltrados(pacientes: seq<Paciente>, searchTerm: string): seq<Paciente>
  {
    Selecionar(pacientes, p => PacienteCombina(p, searchTerm))
  }

  /**
   * A patient is listed exactly when it matches by name, e-mail or phone;
   * an empty term lists everyone in order; a phone match is enough even
   * when name and e-mail do not match.
   */
  lemma PacientesFiltradosCaracterizacao(pacientes: seq<Paciente>, searchTerm: string)
    ensures forall p :: p in PacientesFiltrados(pacientes, searchTerm) <==>
      p in pacientes && (Includes(ToLower(p.nome), ToLower(searchTerm))
                         || Includes(ToLower(p.email), ToLower(searchTerm))
                         || Includes(p.telefone, searchTerm))
    ensures searchTerm == "" ==> PacientesFiltrados(pacientes, searchTerm) == pacientes
  {
    SelecionarCaracterizacao(pacientes, p => PacienteCombina(p, searchTerm));
    if searchTerm == "" {
      forall p | p in pacientes
        ensures PacienteCombina(p, searchTerm)
      {
        IncludesEmpty(ToLower(p.nome));
      }
    }
  }

  /** `stats` of `Pacientes`. */
  datatype EstatisticasPacientes = EstatisticasPacientes(total: nat, novosEsteAno: nat, comEmail: nat, comTelefone: nat)

  /**
   * The patient figures. `anoAtual` is the current year and `anoDoCadastro`
   * the year `new Date(createdAt)` falls in, `None` for a date that does
   * not parse.
   */
  function EstatisticasDosPacientes(pacientes: seq<Paciente>, anoAtual: int, anoDoCadastro: string -> Option<int>): EstatisticasPacientes
  {
    EstatisticasPacientes(
      |pacientes|,
      |Selecionar(pacientes, (p: Paciente) => anoDoCadastro(p.createdAt) == Some(anoAtual))|,
      |Selecionar(pacientes, (p: Paciente) => Trim(p.email) != "")|,
      |Selecionar(pacientes, (p: Paciente) => Trim(p.telefone) != "")|)
  }

  /**
   * Each count is at most the total; every patient counts as having an
   * e-mail (a phone) exactly when none has a blank one; an empty list
   * gives zeros.
   */
  lemma EstatisticasPacientesCaracterizacao(pacientes: seq<Paciente>, anoAtual: int, anoDoCadastro: string -> Option<int>)
    ensures var e := EstatisticasDosPacientes(pacientes, anoAtual, anoDoCadastro);
      && e.total == |pacientes|
      && e.novosEsteAno <= e.total && e.comEmail <= e.total && e.comTelefone <= e.total
      && (e.comEmail == e.total <==> forall p :: p in pacientes ==> Trim(p.email) != "")
      && (e.comTelefone == e.total <==> forall p :: p in pacientes ==> Trim(p.telefone) != "")
      && (pacientes == [] ==> e == EstatisticasPacientes(0, 0, 0, 0))
  {
    SelecionarTodos(pacientes, (p: Paciente) => Trim(p.email) != "");
    SelecionarTodos(pacientes, (p: Paciente) => Trim(p.telefone) != "");
  }

  /** An e-mail of spaces only (or none at all) is not counted. */
  lemma EmailEmBrancoNaoConta(p: Paciente, anoAtual: int, anoDoCadastro: string -> Option<int>)
    requires forall i :: 0 <= i < |p.email| ==> IsSpace(p.email[i])
    ensures EstatisticasDosPacientes([p], anoAtual, anoDoCadastro).comEmail == 0
  {
    assert [p][1..] == [];
    TrimStartTodoEspaco(p.email);
  }

  lemma {:induction false} TrimStartTodoEspaco(s: string)
    requires forall i :: 0 <= i < |s| ==> IsSpace(s[i])
    ensures TrimStart(s) == "" && Trim(s) == ""
  {
    if s != [] {
      TrimStartTodoEspaco(s[1..]);
    }
  }

  /** The page-number buttons of `Pacientes`: pages 1 to `min(5, totalPages)`. */
  function BotoesDePagina(totalPages: int): (r: seq<int>)
    ensures |r| == (if totalPages < 0 then 0 else if totalPages < 5 then totalPages else 5)
    ensures forall k :: 0 <= k < |r| ==> r[k] == k + 1
  {
    var n := if totalPages < 0 then 0 else if totalPages < 5 then totalPages else 5;
    seq(n, i => i + 1)
  }

  /** A button exists for a page exactly when it is among the first five existing pages. */
  lemma BotoesDePaginaCaracterizacao(totalPages: int)
    ensures forall k :: k in BotoesDePagina(totalPages) <==> 1 <= k <= totalPages && k <= 5
  {
    var r := BotoesDePagina(totalPages);
    forall k | 1 <= k <= totalPages && k <= 5
      ensures k in r
    {
      assert r[k - 1] == k;
    }
  }

  /** The distinct weekday codes of the shifts (`new Set(escalas.map(e => e.diaSemana))`). */
  function DiasDaSemana(escalas: seq<Escala>): (r: set<string>)
    ensures forall d :: d in r <==> exists e :: e in escalas && e.diaSemana == d
  {
    if escalas == [] then {}
    else
      var ini := escalas[..|escalas| - 1];
      assert escalas == ini + [escalas[|escalas| - 1]];
      DiasDaSemana(ini) + {escalas[|escalas| - 1].diaSemana}
  }

  /** `stats` of `Escalas`. */
  datatype EstatisticasEscalas = EstatisticasEscalas(total: nat, ativas: nat, inativas: nat, diasSemana: nat)

  function EstatisticasDasEscalas(escalas: seq<Escala>): EstatisticasEscalas
  {
    EstatisticasEscalas(
      |escalas|,
      |Selecionar(escalas, (e: Escala) => e.ativo)|,
      |Selecionar(escalas, (e: Escala) => !e.ativo)|,
      |DiasDaSemana(escalas)|)
  }

  lemma {:induction false} DiasDaSemanaLimitado(escalas: seq<Escala>)
    ensures |DiasDaSemana(escalas)| <= |escalas|
  {
    if escalas != [] {
      var ini := escalas[..|escalas| - 1];
      DiasDaSemanaLimitado(ini);
      var d := escalas[|escalas| - 1].diaSemana;
      if d in DiasDaSemana(ini) {
        assert DiasDaSemana(escalas) == DiasDaSemana(ini);
      }
    }
  }

  lemma {:induction false} SubconjuntoCardinalidade(a: set<string>, b: set<string>)
    requires a <= b
    ensures |a| <= |b|
    decreases a
  {
    if a != {} {
      var x :| x in a;
      SubconjuntoCardinalidade(a - {x}, b - {x});
    }
  }

  lemma {:induction false} ElementosCardinalidade(s: seq<string>)
    ensures |set x | x in s| <= |s|
  {
    if s != [] {
      ElementosCardinalidade(s[1..]);
      assert (set x | x in s) == (set x | x in s[1..]) + {s[0]};
    }
  }

  /**
   * Active and inactive shifts add up to the total; the distinct weekdays
   * are at most the total, and at most seven when every shift uses one of
   * the seven codes; an empty list gives zeros.
   */
  lemma EstatisticasEscalasCaracterizacao(escalas: seq<Escala>)
    ensures var e := EstatisticasDasEscalas(escalas);
      && e.ativas + e.inativas == e.total
      && e.diasSemana <= e.total
      && ((forall x :: x in escalas ==> x.diaSemana in Codigos) ==> e.diasSemana <= 7)
      && (escalas == [] ==> e == EstatisticasEscalas(0, 0, 0, 0))
  {
    SelecionarParticao(escalas, (e: Escala) => true, (e: Escala) => e.ativo, (e: Escala) => !e.ativo);
    SelecionarCaracterizacao(escalas, (e: Escala) => true);
    DiasDaSemanaLimitado(escalas);
    if forall x :: x in escalas ==> x.diaSemana in Codigos {
      SubconjuntoCardinalidade(DiasDaSemana(escalas), set x | x in Codigos);
      ElementosCardinalidade(Codigos);
    }
  }

  /** `tipo.preco || 0` for every type. */
  function Precos(tipos: seq<TipoConsulta>): (r: seq<real>)
    ensures |r| == |tipos| && forall k :: 0 <= k < |tipos| ==> r[k] == tipos[k].preco.GetOr(0.0)
  {
    if tipos == [] then [] else Precos(tipos[..|tipos| - 1]) + [tipos[|tipos| - 1].preco.GetOr(0.0)]
  }

  /** `Math.min(...vs.filter(v => v > 0))`; `None` for the minimum of nothing, `Infinity`. */
  function MenorPositivo(vs: seq<real>): (r: Option<real>)
  {
    if vs == [] then None
    else
      var m := MenorPositivo(vs[..|vs| - 1]);
      var v := vs[|vs| - 1];
      if v <= 0.0 then m
      else if m.Some? && m.value <= v then m
      else Some(v)
  }

  /** The least positive value: positive, one of the values, and at most every positive value; `None` exactly when no value is positive. */
  lemma {:induction false} MenorPositivoCaracterizacao(vs: seq<real>)
    ensures MenorPositivo(vs).None? <==> forall k :: 0 <= k < |vs| ==> vs[k] <= 0.0
    ensures MenorPositivo(vs).Some? ==>
      && MenorPositivo(vs).value > 0.0
      && (exists k :: 0 <= k < |vs| && vs[k] == MenorPositivo(vs).value)
      && (forall k :: 0 <= k < |vs| && vs[k] > 0.0 ==> MenorPositivo(vs).value <= vs[k])
  {
    if vs != [] {
      var ini := vs[..|vs| - 1];
      MenorPositivoCaracterizacao(ini);
      var m := MenorPositivo(ini);
      if m.Some? && MenorPositivo(vs) == m {
        var k :| 0 <= k < |ini| && ini[k] == m.value;
        assert vs[k] == m.value;
      }
    }
  }

  /** `stats` of `TiposConsulta`; `menorValor` is `None` where the page would show `Infinity`. */
  datatype EstatisticasTipos = EstatisticasTipos(total: nat, valorMedio: real, maiorValor: real, menorValor: Option<real>)

  function EstatisticasDosTipos(tipos: seq<TipoConsulta>): EstatisticasTipos
  {
    var precos := Precos(tipos);
    EstatisticasTipos(|tipos|, Media(precos), Maior(precos), if |tipos| > 0 then MenorPositivo(precos) else Some(0.0))
  }

  /**
   * The average is the sum over the count, 0 with no types, and never above
   * the largest price; the largest price is at least 0 and every price;
   * the smallest is 0 with no types, otherwise the least positive price,
   * missing (`Infinity`) when no price is positive, and never above the
   * largest.
   */
  lemma EstatisticasTiposCaracterizacao(tipos: seq<TipoConsulta>)
    ensures var e := EstatisticasDosTipos(tipos);
      && (|tipos| > 0 ==> e.valorMedio == Soma(Precos(tipos)) / (|tipos| as real))
      && (tipos == [] ==> e == EstatisticasTipos(0, 0.0, 0.0, Some(0.0)))
      && e.valorMedio <= e.maiorValor
      && e.maiorValor >= 0.0
      && (forall t :: t in tipos ==> t.preco.GetOr(0.0) <= e.maiorValor)
      && (|tipos| > 0 ==>
            && (e.menorValor.None? <==> forall t :: t in tipos ==> t.preco.GetOr(0.0) <= 0.0)
            && (e.menorValor.Some? ==>
                  && e.menorValor.value > 0.0
                  && (exists t :: t in tipos && t.preco.GetOr(0.0) == e.menorValor.value)
                  && (forall t :: t in tipos && t.preco.GetOr(0.0) > 0.0 ==> e.menorValor.value <= t.preco.GetOr(0.0))))
      && (e.menorValor.Some? ==> e.menorValor.value <= e.maiorValor)
  {
    var precos := Precos(tipos);
    MediaLimitada(precos);
    MaiorCaracterizacao(precos);
    MenorPositivoCaracterizacao(precos);
    assert forall t :: t in tipos ==> exists k :: 0 <= k < |tipos| && tipos[k] == t;
    if |tipos| > 0 && MenorPositivo(precos).Some? {
      var k :| 0 <= k < |precos| && precos[k] == MenorPositivo(precos).value;
      assert tipos[k] in tipos;
    }
  }
}

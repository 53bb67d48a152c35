/**
 * The three searchable lists of the registration pages (`TodosTiposConsulta`,
 * `TodosPacientes`, `TodasEscalas`): a case-insensitive search over one
 * text field, three records per page, and page buttons that show at most
 * three page numbers with ellipses.
 */
module ListasPaginadas {
  import opened Text
  import opened Modelo
  import opened Paginacao

  /** `registrosPorPagina`. */
  const RegistrosPorPagina: nat := 3

  /** `campo.toLowerCase().includes(busca.toLowerCase())`. */
  predicate Combina(campo: string, busca: string)
  {
    Includes(ToLower(campo), ToLower(busca))
  }

  /** `itens.filter(...)` keeping the records whose field matches the search. */
  function Filtrar<T>(itens: seq<T>, campo: T -> string, busca: string): (r: seq<T>)
    ensures |r| <= |itens|
    ensures forall k :: 0 <= k < |r| ==> r[k] in itens && Combina(campo(r[k]), busca)
  {
    if itens == [] then []
    else
      var resto := Filtrar(itens[1..], campo, busca);
      if Combina(campo(itens[0]), busca) then [itens[0]] + resto else resto
  }

  /**
   * The filter keeps exactly the matching records, in their order: the
   * result is the list with the records that do not match removed, and an
   * empty search keeps every record.
   */
  lemma {:induction false} FiltrarCaracterizacao<T>(itens: seq<T>, campo: T -> string, busca: string)
    ensures forall x :: x in Filtrar(itens, campo, busca) <==> x in itens && Combina(campo(x), busca)
    ensures busca == "" ==> Filtrar(itens, campo, busca) == itens
    ensures (forall x :: x in itens ==> Combina(campo(x), busca)) ==> Filtrar(itens, campo, busca) == itens
  {
    if itens != [] {
      FiltrarCaracterizacao(itens[1..], campo, busca);
      if busca == "" {
        assert ToLower(busca) == "";
        IncludesEmpty(ToLower(campo(itens[0])));
      }
      if forall x :: x in itens ==> Combina(campo(x), busca) {
        assert forall x :: x in itens[1..] ==> x in itens;
      }
      assert itens == [itens[0]] + itens[1..];
    }
  }

  /** The filter keeps the relative order: a record kept before another stood before it in the list. */
  lemma {:induction false} FiltrarSubsequencia<T>(itens: seq<T>, campo: T -> string, busca: string, extra: seq<T>)
    ensures Filtrar(itens + extra, campo, busca) == Filtrar(itens, campo, busca) + Filtrar(extra, campo, busca)
  {
    if itens != [] {
      assert (itens + extra)[1..] == itens[1..] + extra;
      FiltrarSubsequencia(itens[1..], campo, busca, extra);
    } else {
      assert itens + extra == extra;
    }
  }

  /** The search field of `TodosTiposConsulta`: the type's name. */
  function NomeDoTipo(t: TipoConsulta): string { t.nome }

  /** The search field of `TodosPacientes`: the patient's name. */
  function NomeDoPaciente(p: Paciente): string { p.nome }

  /** The search field of `TodasEscalas`: the weekday code (such as "SEGUNDA_FEIRA"), not its label. */
  function CodigoDaEscala(e: Escala): string { e.diaSemana }

  /** The shifts are searched by weekday code: "segunda" finds a Monday shift. */
  lemma BuscaSegunda(segunda: Escala)
    requires segunda.diaSemana == "SEGUNDA_FEIRA"
    ensures Combina(CodigoDaEscala(segunda), "segunda")
  {
    var baixo := ToLower(segunda.diaSemana);
    assert ToLower("segunda") == "segunda";
    assert baixo[..7] == "segunda";
  }

  /**
   * "terça", as the weekday is written, does not find a Tuesday shift,
   * whose code is spelt without the cedilla.
   */
  lemma BuscaTerca(terca: Escala)
    requires terca.diaSemana == "TERCA_FEIRA"
    ensures !Combina(CodigoDaEscala(terca), "terça")
    ensures Filtrar([terca], CodigoDaEscala, "terça") == []
  {
    var t := ToLower("terça");
    var baixo := ToLower(terca.diaSemana);
    CedilhaNaBusca(t);
    CodigoAscii(terca.diaSemana);
    SemCedilha(terca.diaSemana, baixo);
    if Includes(baixo, t) {
      IncludesChars(baixo, t, 'ç');
    }
  }

  lemma CedilhaNaBusca(t: string)
    requires t == ToLower("terça")
    ensures 'ç' in t
  {
    assert t[3] == LowerChar('ç');
  }

  /** Every character is ASCII. */
  predicate Ascii(s: string)
  {
    forall i :: 0 <= i < |s| ==> s[i] < 128 as char
  }

  lemma CodigoAscii(codigo: string)
    requires codigo == "TERCA_FEIRA"
    ensures Ascii(codigo)
  {
  }

  /** Lowercasing ASCII text gives ASCII text, which has no 'ç'. */
  lemma SemCedilha(codigo: string, baixo: string)
    requires Ascii(codigo) && baixo == ToLower(codigo)
    ensures 'ç' !in baixo
  {
    forall i | 0 <= i < |baixo|
      ensures baixo[i] != 'ç'
    {
      assert baixo[i] == LowerChar(codigo[i]);
    }
  }

  /** A page button of the lists: a page number or an ellipsis. */
  datatype ItemLista = Numero(n: int) | Elipse

  /** The numbers `de` to `ate`. */
  function Numeros(de: int, ate: int): (r: seq<ItemLista>)
    decreases ate - de
    ensures |r| == if ate >= de then ate - de + 1 else 0
    ensures forall k :: 0 <= k < |r| ==> r[k] == Numero(de + k)
  {
    if ate < de then [] else Numeros(de, ate - 1) + [Numero(ate)]
  }

  /**
   * `getPaginationItems(pagina, totalPaginas)`: every page when there are
   * at most three; otherwise three page numbers around the current page
   * with an ellipsis on each side where pages are left out.
   */
  function ItensDaLista(pagina: int, total: int): seq<ItemLista>
  {
    if total <= 3 then Numeros(1, total)
    else if pagina <= 2 then [Numero(1), Numero(2), Numero(3), Elipse]
    else if pagina >= total - 1 then [Elipse, Numero(total - 2), Numero(total - 1), Numero(total)]
    else [Elipse, Numero(pagina - 1), Numero(pagina), Numero(pagina + 1), Elipse]
  }

  /** `getPaginationItems`, pushing in a loop. */
  method GetPaginationItems(pagina: int, total: int) returns (items: seq<ItemLista>)
    ensures items == ItensDaLista(pagina, total)
  {
    items := [];
    if total <= 3 {
      var i := 1;
      while i <= total
        invariant 1 <= i <= (if total >= 1 then total + 1 else 1)
        invariant items == Numeros(1, i - 1)
      {
        items := items + [Numero(i)];
        i := i + 1;
      }
    } else {
      if pagina <= 2 {
        items := items + [Numero(1), Numero(2), Numero(3), Elipse];
      } else if pagina >= total - 1 {
        items := items + [Elipse, Numero(total - 2), Numero(total - 1), Numero(total)];
      } else {
        items := items + [Elipse, Numero(pagina - 1), Numero(pagina), Numero(pagina + 1), Elipse];
      }
    }
  }

  /** With at most three pages every page is listed, in order, with no ellipsis. */
  lemma PoucasPaginasDaLista(pagina: int, total: int)
    requires total <= 3
    ensures |ItensDaLista(pagina, total)| == if total > 0 then total else 0
    ensures forall k :: 0 <= k < |ItensDaLista(pagina, total)| ==> ItensDaLista(pagina, total)[k] == Numero(k + 1)
  {
  }

  /**
   * The page numbers listed are consecutive and increasing, all of them
   * existing pages; an ellipsis only stands at an end, in front of a number
   * after page 1 or behind one before the last page; and a current page in
   * range is always listed.
   */
  lemma ItensDaListaCaracterizacao(pagina: int, total: int)
    ensures var r := ItensDaLista(pagina, total);
      && (forall i, j :: 0 <= i < j < |r| && r[i].Numero? && r[j].Numero? ==> r[j].n == r[i].n + (j - i))
      && (forall k :: 0 <= k < |r| && r[k].Numero? ==> 1 <= r[k].n <= total)
      && (forall k :: 0 <= k < |r| && r[k].Elipse? ==>
            (k == 0 && 1 < |r| && r[1].Numero? && r[1].n > 1) || (k == |r| - 1 && 1 < |r| && r[k - 1].Numero? && r[k - 1].n < total))
      && (1 <= pagina <= total ==> Numero(pagina) in r)
  {
    var r := ItensDaLista(pagina, total);
    if 1 <= pagina <= total && total <= 3 {
      assert r[pagina - 1] == Numero(pagina);
    }
  }

  /** A page past the last one, as after a narrower search, is empty. */
  lemma PaginaAlemDoFim<T>(itens: seq<T>, pagina: int, n: nat)
    requires n > 0 && pagina > Teto(|itens|, n)
    ensures Fatia(itens, pagina, n) == []
  {
    TetoCaracterizacao(|itens|, n);
    var t := Teto(|itens|, n);
    MultiplicacaoMonotona(pagina - 1, t, n);
    FatiaCaracterizacao(itens, pagina, n);
  }

  /**
   * One of the three lists: its records, the search text and the current
   * page. `campo` is the field searched.
   */
  class ListaPaginada<T> {
    const campo: T -> string
    var itens: seq<T>
    var busca: string
    var pagina: int

    constructor (campo: T -> string, itens: seq<T>)
      ensures this.campo == campo && this.itens == itens && busca == "" && pagina == 1
    {
      this.campo := campo;
      this.itens := itens;
      busca := "";
      pagina := 1;
    }

    function Filtrados(): seq<T>
      reads this
    {
      Filtrar(itens, campo, busca)
    }

    function TotalPaginas(): nat
      reads this
    {
      Teto(|Filtrados()|, RegistrosPorPagina)
    }

    /** The records shown: the current page's slice of the filtered list. */
    function Paginados(): seq<T>
      reads this
    {
      Fatia(Filtrados(), pagina, RegistrosPorPagina)
    }

    /** The page buttons are shown while some record matches. */
    predicate BotoesVisiveis()
      reads this
    {
      |Filtrados()| > 0 && TotalPaginas() > 0
    }

    /** Typing in the search box: the page is not reset. */
    method Buscar(texto: string)
      modifies this
      ensures busca == texto && pagina == old(pagina) && itens == old(itens)
    {
      busca := texto;
    }

    /** "«": page 1. */
    method Primeira()
      requires BotoesVisiveis()
      modifies this
      ensures pagina == 1 && busca == old(busca) && itens == old(itens)
    {
      pagina := 1;
    }

    /** "‹": one page back, never below 1. */
    method Anterior()
      requires BotoesVisiveis()
      modifies this
      ensures pagina == if old(pagina) - 1 > 1 then old(pagina) - 1 else 1
      ensures busca == old(busca) && itens == old(itens)
      ensures pagina >= 1
    {
      pagina := if 1 > pagina - 1 then 1 else pagina - 1;
    }

    /** "›": one page on, never past the last page. */
    method Proxima()
      requires BotoesVisiveis()
      modifies this
      ensures pagina == if old(pagina) + 1 < TotalPaginas() then old(pagina) + 1 else TotalPaginas()
      ensures busca == old(busca) && itens == old(itens)
      ensures pagina <= TotalPaginas()
      ensures old(pagina) >= 1 ==> pagina >= 1
    {
      pagina := if TotalPaginas() < pagina + 1 then TotalPaginas() else pagina + 1;
    }

    /** "»": the last page. */
    method Ultima()
      requires BotoesVisiveis()
      modifies this
      ensures pagina == TotalPaginas() && busca == old(busca) && itens == old(itens)
    {
      pagina := TotalPaginas();
    }

    /** A page-number button: the page it shows. */
    method Ir(num: int)
      requires BotoesVisiveis() && Numero(num) in ItensDaLista(pagina, TotalPaginas())
      modifies this
      ensures pagina == num && busca == old(busca) && itens == old(itens)
      ensures 1 <= pagina <= TotalPaginas()
    {
      ItensDaListaCaracterizacao(pagina, TotalPaginas());
      pagina := num;
    }
  }
}

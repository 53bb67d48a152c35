/**
 * The `usePagination` hook shared by the consultations, dashboard and
 * patients pages: the current page, the number of pages, the slice of the
 * list shown on the current page, the navigation callbacks and the list of
 * page buttons with ellipses.
 */
module Paginacao {
  import opened Text

  /** `Math.ceil(a / b)` for a non-negative count and a positive page size. */
  function Teto(a: nat, b: nat): nat
    requires b > 0
  {
    (a + b - 1) / b
  }

  /** `Teto(a, b)` pages of `b` hold `a` items, and one page fewer does not. */
  lemma TetoCaracterizacao(a: nat, b: nat)
    requires b > 0
    ensures Teto(a, b) * b >= a
    ensures Teto(a, b) > 0 ==> (Teto(a, b) - 1) * b < a
    ensures Teto(a, b) == 0 <==> a == 0
  {
    var t := Teto(a, b);
    var r := (a + b - 1) % b;
    assert a + b - 1 == t * b + r;
    assert 0 <= r < b;
    if t > 0 {
      assert (t - 1) * b == t * b - b;
    }
  }

  /** `items.slice((p - 1) * n, p * n)`: the items of page `p` of `n`. */
  function Fatia<T>(items: seq<T>, p: int, n: nat): seq<T>
  {
    Slice(items, (p - 1) * n, p * n)
  }

  /** Multiplying by a natural number keeps the order. */
  lemma MultiplicacaoMonotona(a: int, b: int, n: nat)
    requires a >= b
    ensures a * n >= b * n
  {
    assert a * n - b * n == (a - b) * n;
  }

  /**
   * Resolving slice indices never widens a gap: of two indices `n` apart the
   * second lands at most `n` after the first (a negative index counts from
   * the end, so it may land before it).
   */
  lemma SliceIndexProxima(i: int, n: nat, len: nat)
    ensures SliceIndex(i + n, len) <= SliceIndex(i, len) + n
    ensures i >= 0 ==> SliceIndex(i, len) <= SliceIndex(i + n, len)
  {
  }

  /**
   * A page holds at most `n` items, whatever the page number (a page below
   * 1 gives negative indices, which `slice` counts from the end); from
   * page 1 on it holds the items from `(p - 1) * n` on, in order.
   */
  lemma FatiaCaracterizacao<T>(items: seq<T>, p: int, n: nat)
    ensures |Fatia(items, p, n)| <= n
    ensures p >= 1 ==>
      var inicio := (p - 1) * n;
      && |Fatia(items, p, n)| == (if inicio >= |items| then 0 else if |items| - inicio < n then |items| - inicio else n)
      && forall k :: 0 <= k < |Fatia(items, p, n)| ==> Fatia(items, p, n)[k] == items[inicio + k]
  {
    assert p * n == (p - 1) * n + n;
    SliceIndexProxima((p - 1) * n, n, |items|);
    if p >= 1 {
      assert (p - 1) * n >= 0;
    }
  }

  /** Pages 1 to `k` of `n` put one after the other. */
  function Paginas<T>(items: seq<T>, n: nat, k: nat): seq<T>
  {
    if k == 0 then [] else Paginas(items, n, k - 1) + Fatia(items, k, n)
  }

  /** An index cut down to a length. */
  function Ate(i: nat, len: nat): nat
  {
    if i <= len then i else len
  }

  /** From page 1 on, a page is the run of items from `(p - 1) * n` to `p * n`, cut to the list's length. */
  lemma FatiaComoIntervalo<T>(items: seq<T>, p: int, n: nat)
    requires p >= 1
    ensures (p - 1) * n >= 0 && p * n == (p - 1) * n + n
    ensures Fatia(items, p, n) == items[Ate((p - 1) * n, |items|)..Ate((p - 1) * n + n, |items|)]
  {
    MultiplicacaoMonotona(p - 1, 0, n);
    FatiaCaracterizacao(items, p, n);
    assert p * n == (p - 1) * n + n;
  }

  /** Pages 1 to `k` hold exactly the first `k * n` items, in order. */
  lemma {:induction false} PaginasPrefixo<T>(items: seq<T>, n: nat, k: nat)
    ensures Paginas(items, n, k) == items[..Ate(k * n, |items|)]
  {
    if k > 0 {
      PaginasPrefixo(items, n, k - 1);
      FatiaComoIntervalo(items, k, n);
      var lo, hi := Ate((k - 1) * n, |items|), Ate((k - 1) * n + n, |items|);
      assert items[..lo] + items[lo..hi] == items[..hi];
    }
  }

  /**
   * The pages 1 to `Teto(|items|, n)` together show every item exactly
   * once, in order.
   */
  lemma PaginasCobrem<T>(items: seq<T>, n: nat)
    requires n > 0
    ensures Paginas(items, n, Teto(|items|, n)) == items
  {
    TetoCaracterizacao(|items|, n);
    PaginasPrefixo(items, n, Teto(|items|, n));
  }

  /** A page button, marked active when it is the current page, or an ellipsis. */
  datatype ItemPaginacao = Pagina(valor: int, ativo: bool) | Reticencias

  /** The buttons of the pages `de` to `ate`, in order. */
  function Faixa(de: int, ate: int, atual: int): (r: seq<ItemPaginacao>)
    decreases ate - de
    ensures |r| == if ate >= de then ate - de + 1 else 0
    ensures forall k :: 0 <= k < |r| ==> r[k] == Pagina(de + k, de + k == atual)
  {
    if ate < de then [] else Faixa(de, ate - 1, atual) + [Pagina(ate, ate == atual)]
  }

  /**
   * The buttons `paginationItems` lists: every page when there are at most
   * 5; otherwise the first three pages and the last, the first and the last
   * three, or the first, the current one with its neighbours, and the last,
   * with an ellipsis wherever pages are left out.
   */
  function ItensDePaginacao(atual: int, total: int): seq<ItemPaginacao>
  {
    if total <= 5 then Faixa(1, total, atual)
    else if atual <= 3 then Faixa(1, 3, atual) + [Reticencias, Pagina(total, total == atual)]
    else if atual >= total - 2 then [Pagina(1, 1 == atual), Reticencias] + Faixa(total - 2, total, atual)
    else [Pagina(1, 1 == atual), Reticencias] + Faixa(atual - 1, atual + 1, atual) + [Reticencias, Pagina(total, total == atual)]
  }

  /** With at most 5 pages, each page 1..total is listed once, in order, and there is no ellipsis. */
  lemma PoucasPaginas(atual: int, total: int)
    requires total <= 5
    ensures |ItensDePaginacao(atual, total)| == if total > 0 then total else 0
    ensures forall k :: 0 <= k < |ItensDePaginacao(atual, total)| ==>
      ItensDePaginacao(atual, total)[k] == Pagina(k + 1, k + 1 == atual)
  {
  }

  /**
   * With more than 5 pages the first button is page 1 and the last is the
   * last page; there are 7 buttons when the current page is away from both
   * ends and 5 otherwise.
   */
  lemma MuitasPaginas(atual: int, total: int)
    requires total > 5
    ensures var r := ItensDePaginacao(atual, total);
      && r[0] == Pagina(1, 1 == atual)
      && r[|r| - 1] == Pagina(total, total == atual)
      && |r| == if 3 < atual < total - 2 then 7 else 5
  {
  }

  /** The listed pages strictly increase. */
  lemma PaginasCrescentes(atual: int, total: int)
    ensures var r := ItensDePaginacao(atual, total);
      forall i, j :: 0 <= i < j < |r| && r[i].Pagina? && r[j].Pagina? ==> r[i].valor < r[j].valor
  {
    var r := ItensDePaginacao(atual, total);
    if total <= 5 {
    } else if atual <= 3 {
      assert r[..3] == Faixa(1, 3, atual);
    } else if atual >= total - 2 {
      assert r[2..] == Faixa(total - 2, total, atual);
    } else {
      assert r[2..5] == Faixa(atual - 1, atual + 1, atual);
    }
  }

  /**
   * Two adjacent page buttons are consecutive pages, and an ellipsis sits
   * between two page buttons and stands for at least one page left out:
   * no page between the first and the last button is skipped silently.
   */
  predicate ReticenciasCorretas(r: seq<ItemPaginacao>)
  {
    && (forall k :: 0 <= k < |r| - 1 && r[k].Pagina? && r[k + 1].Pagina? ==> r[k + 1].valor == r[k].valor + 1)
    && (forall k :: 0 <= k < |r| && r[k].Reticencias? ==>
          0 < k < |r| - 1 && r[k - 1].Pagina? && r[k + 1].Pagina? && r[k + 1].valor > r[k - 1].valor + 1)
  }

  /** The buttons `paginationItems` lists never skip a page silently. */
  lemma ReticenciasOmitemPaginas(atual: int, total: int)
    ensures ReticenciasCorretas(ItensDePaginacao(atual, total))
  {
    var r := ItensDePaginacao(atual, total);
    if total <= 5 {
      FaixaSemReticencias(1, total, atual);
    } else if atual <= 3 {
      var f := Faixa(1, 3, atual);
      assert r == [f[0], f[1], f[2], Reticencias, Pagina(total, total == atual)];
      ReticenciasNoFim(f[0], f[1], f[2], Pagina(total, total == atual));
    } else if atual >= total - 2 {
      var f := Faixa(total - 2, total, atual);
      assert r == [Pagina(1, 1 == atual), Reticencias, f[0], f[1], f[2]];
      ReticenciasNoInicio(Pagina(1, 1 == atual), f[0], f[1], f[2]);
    } else {
      var f := Faixa(atual - 1, atual + 1, atual);
      assert r == [Pagina(1, 1 == atual), Reticencias, f[0], f[1], f[2], Reticencias, Pagina(total, total == atual)];
      ReticenciasDosDoisLados(Pagina(1, 1 == atual), f[0], f[1], f[2], Pagina(total, total == atual));
    }
  }

  /** A run of consecutive pages has no ellipsis. */
  lemma FaixaSemReticencias(de: int, ate: int, atual: int)
    ensures ReticenciasCorretas(Faixa(de, ate, atual))
  {
  }

  lemma ReticenciasNoFim(a: ItemPaginacao, b: ItemPaginacao, c: ItemPaginacao, d: ItemPaginacao)
    requires a.Pagina? && b.Pagina? && c.Pagina? && d.Pagina?
    requires b.valor == a.valor + 1 && c.valor == b.valor + 1 && d.valor > c.valor + 1
    ensures ReticenciasCorretas([a, b, c, Reticencias, d])
  {
  }

  lemma ReticenciasNoInicio(a: ItemPaginacao, b: ItemPaginacao, c: ItemPaginacao, d: ItemPaginacao)
    requires a.Pagina? && b.Pagina? && c.Pagina? && d.Pagina?
    requires b.valor > a.valor + 1 && c.valor == b.valor + 1 && d.valor == c.valor + 1
    ensures ReticenciasCorretas([a, Reticencias, b, c, d])
  {
  }

  lemma ReticenciasDosDoisLados(a: ItemPaginacao, b: ItemPaginacao, c: ItemPaginacao, d: ItemPaginacao, e: ItemPaginacao)
    requires a.Pagina? && b.Pagina? && c.Pagina? && d.Pagina? && e.Pagina?
    requires b.valor > a.valor + 1 && c.valor == b.valor + 1 && d.valor == c.valor + 1 && e.valor > d.valor + 1
    ensures ReticenciasCorretas([a, Reticencias, b, c, d, Reticencias, e])
  {
  }

  /**
   * A button is active exactly when it is the current page; when the
   * current page is between 1 and the last page exactly one button is
   * active, and otherwise none is.
   */
  lemma UmaPaginaAtiva(atual: int, total: int)
    ensures var r := ItensDePaginacao(atual, total);
      && (forall k :: 0 <= k < |r| && r[k].Pagina? ==> (r[k].ativo <==> r[k].valor == atual))
      && (1 <= atual <= total ==>
            exists k :: 0 <= k < |r| && r[k].Pagina? && r[k].ativo
                        && forall j :: 0 <= j < |r| && r[j].Pagina? && r[j].ativo ==> j == k)
      && (!(1 <= atual <= total) ==> forall k :: 0 <= k < |r| && r[k].Pagina? ==> !r[k].ativo)
  {
    var r := ItensDePaginacao(atual, total);
    PaginasCrescentes(atual, total);
    if 1 <= atual <= total {
      var k: int;
      if total <= 5 {
        k := atual - 1;
      } else if atual <= 3 {
        k := atual - 1;
      } else if atual >= total - 2 {
        k := atual - total + 4;
      } else {
        k := 3;
      }
      assert r[k].Pagina? && r[k].valor == atual;
    } else if total > 5 {
      MuitasPaginas(atual, total);
    }
  }

  /**
   * The pagination state of one list. `totalItems` is the length of the
   * list the page passes in on each render; `itemsPerPage` is the page's
   * constant page size.
   */
  class Paginador {
    var totalItems: nat
    const itemsPerPage: nat
    var currentPage: int

    predicate Valid()
      reads this
    {
      itemsPerPage > 0
    }

    /** `useState(initialPage)`, 1 when none is given. */
    constructor (totalItems: nat, itemsPerPage: nat, initialPage: int)
      requires itemsPerPage > 0
      ensures Valid()
      ensures this.totalItems == totalItems && this.itemsPerPage == itemsPerPage && currentPage == initialPage
    {
      this.totalItems := totalItems;
      this.itemsPerPage := itemsPerPage;
      currentPage := initialPage;
    }

    function TotalPages(): nat
      requires Valid()
      reads this
    {
      Teto(totalItems, itemsPerPage)
    }

    predicate CanGoNext()
      requires Valid()
      reads this
    {
      currentPage < TotalPages()
    }

    predicate CanGoPrevious()
      reads this
    {
      currentPage > 1
    }

    /** `paginatedItems`: the items of the current page. */
    function PaginatedItems<T>(items: seq<T>): seq<T>
      reads this
    {
      Fatia(items, currentPage, itemsPerPage)
    }

    /**
     * A new render with a list of another length: the number of pages
     * follows it, the current page stays, even past the new last page.
     */
    method AtualizarTotal(n: nat)
      requires Valid()
      modifies this
      ensures Valid() && totalItems == n && currentPage == old(currentPage)
    {
      totalItems := n;
    }

    /** `goToPage`: the page clamped to [1, totalPages], and 1 when there are no pages. */
    method GoToPage(page: int)
      requires Valid()
      modifies this
      ensures Valid() && totalItems == old(totalItems)
      ensures currentPage >= 1
      ensures TotalPages() >= 1 ==> currentPage <= TotalPages()
      ensures 1 <= page <= TotalPages() ==> currentPage == page
      ensures page < 1 || TotalPages() == 0 ==> currentPage == 1
      ensures page > TotalPages() >= 1 ==> currentPage == TotalPages()
    {
      var menor := if TotalPages() < page then TotalPages() else page;
      currentPage := if 1 > menor then 1 else menor;
    }

    /** `goToNextPage`: one page on, only when there is a next page. */
    method GoToNextPage()
      requires Valid()
      modifies this
      ensures Valid() && totalItems == old(totalItems)
      ensures currentPage == if old(currentPage) < TotalPages() then old(currentPage) + 1 else old(currentPage)
      ensures old(currentPage) <= TotalPages() ==> currentPage <= TotalPages()
    {
      if CanGoNext() {
        currentPage := currentPage + 1;
      }
    }

    /** `goToPreviousPage`: one page back, only when the current page is after page 1. */
    method GoToPreviousPage()
      requires Valid()
      modifies this
      ensures Valid() && totalItems == old(totalItems)
      ensures currentPage == if old(currentPage) > 1 then old(currentPage) - 1 else old(currentPage)
      ensures old(currentPage) >= 1 ==> currentPage >= 1
    {
      if CanGoPrevious() {
        currentPage := currentPage - 1;
      }
    }

    method GoToFirstPage()
      requires Valid()
      modifies this
      ensures Valid() && totalItems == old(totalItems) && currentPage == 1
    {
      currentPage := 1;
    }

    /** `goToLastPage`: the last page, which is 0 when the list is empty. */
    method GoToLastPage()
      requires Valid()
      modifies this
      ensures Valid() && totalItems == old(totalItems) && currentPage == TotalPages()
      ensures totalItems == 0 ==> currentPage == 0
    {
      currentPage := TotalPages();
      TetoCaracterizacao(totalItems, itemsPerPage);
    }

    /** The `for` loops of `paginationItems`: the buttons of pages `de` to `ate` pushed onto `items`. */
    method EmpilharFaixa(items: seq<ItemPaginacao>, de: int, ate: int) returns (r: seq<ItemPaginacao>)
      ensures r == items + Faixa(de, ate, currentPage)
    {
      r := items;
      var i := de;
      while i <= ate
        invariant i <= ate + 1 || (ate < de && i == de)
        invariant r == items + Faixa(de, i - 1, currentPage)
        decreases ate - i
      {
        r := r + [Pagina(i, i == currentPage)];
        i := i + 1;
      }
    }

    /** `paginationItems`. */
    method PaginationItems() returns (items: seq<ItemPaginacao>)
      requires Valid()
      ensures items == ItensDePaginacao(currentPage, TotalPages())
    {
      var totalPages := TotalPages();
      items := [];
      if totalPages <= 5 {
        items := EmpilharFaixa(items, 1, totalPages);
      } else {
        if currentPage <= 3 {
          items := EmpilharFaixa(items, 1, 3);
          items := items + [Reticencias];
          items := items + [Pagina(totalPages, totalPages == currentPage)];
        } else if currentPage >= totalPages - 2 {
          items := items + [Pagina(1, 1 == currentPage)];
          items := items + [Reticencias];
          items := EmpilharFaixa(items, totalPages - 2, totalPages);
        } else {
          items := items + [Pagina(1, 1 == currentPage)];
          items := items + [Reticencias];
          items := EmpilharFaixa(items, currentPage - 1, currentPage + 1);
          items := items + [Reticencias];
          items := items + [Pagina(totalPages, totalPages == currentPage)];
        }
      }
    }
  }
}

/**
 * `Array.prototype.filter` on a list, and what the pages and the dashboard
 * rely on about it.
 */
module Filtro {

  /** `lista.filter(p)`. */
  function Selecionar<T>(lista: seq<T>, p: T -> bool): (r: seq<T>)
    ensures |r| <= |lista|
    ensures forall k :: 0 <= k < |r| ==> r[k] in lista && p(r[k])
  {
    if lista == [] then []
    else (if p(lista[0]) then [lista[0]] else []) + Selecionar(lista[1..], p)
  }

  /** The filter keeps exactly the elements that satisfy the predicate. */
  lemma {:induction false} SelecionarCaracterizacao<T>(lista: seq<T>, p: T -> bool)
    ensures forall x :: x in Selecionar(lista, p) <==> x in lista && p(x)
    ensures (forall x :: x in lista ==> p(x)) ==> Selecionar(lista, p) == lista
    ensures (forall x :: x in lista ==> !p(x)) ==> Selecionar(lista, p) == []
  {
    if lista != [] {
      SelecionarCaracterizacao(lista[1..], p);
      assert forall x :: x in lista[1..] ==> x in lista;
      assert lista == [lista[0]] + lista[1..];
    }
  }

  /** Filtering a concatenation filters each part. */
  lemma {:induction false} SelecionarConcat<T>(a: seq<T>, b: seq<T>, p: T -> bool)
    ensures Selecionar(a + b, p) == Selecionar(a, p) + Selecionar(b, p)
  {
    if a != [] {
      assert (a + b)[1..] == a[1..] + b;
      SelecionarConcat(a[1..], b, p);
    } else {
      assert a + b == b;
    }
  }

  /** A stronger filter keeps no more elements than a weaker one. */
  lemma {:induction false} SelecionarImplica<T>(lista: seq<T>, p: T -> bool, q: T -> bool)
    requires forall x :: p(x) ==> q(x)
    ensures |Selecionar(lista, p)| <= |Selecionar(lista, q)|
  {
    if lista != [] {
      SelecionarImplica(lista[1..], p, q);
    }
  }

  /** The filter keeps every element exactly when every element satisfies the predicate. */
  lemma {:induction false} SelecionarTodos<T>(lista: seq<T>, p: T -> bool)
    ensures |Selecionar(lista, p)| == |lista| <==> forall x :: x in lista ==> p(x)
  {
    if lista != [] {
      SelecionarTodos(lista[1..], p);
      assert forall x :: x in lista <==> x == lista[0] || x in lista[1..];
    }
  }

  /** Two filters that split a third between them keep, together, as many elements as it does. */
  lemma {:induction false} SelecionarParticao<T>(lista: seq<T>, p: T -> bool, q: T -> bool, r: T -> bool)
    requires forall x :: p(x) <==> q(x) || r(x)
    requires forall x :: !(q(x) && r(x))
    ensures |Selecionar(lista, p)| == |Selecionar(lista, q)| + |Selecionar(lista, r)|
  {
    if lista != [] {
      SelecionarParticao(lista[1..], p, q, r);
    }
  }
}

/**
 * `calcularIdade`: age in whole years of a birth date on a given day. The
 * birth date is a calendar triple, or `None` for an empty or invalid input;
 * "today" is a parameter.
 */
module Idade {
  import opened Wrappers
  import opened Calendario

  /** Today's (month, day) comes before the birthday's in the calendar year. */
  predicate AntesDoAniversario(nascimento: Data, hoje: Data)
  {
    hoje.mes < nascimento.mes || (hoje.mes == nascimento.mes && hoje.dia < nascimento.dia)
  }

  function CalcularIdade(nascimento: Option<Data>, hoje: Data): (idade: int)
    ensures idade >= 0
    ensures nascimento.None? ==> idade == 0
  {
    match nascimento
    case None => 0
    case Some(n) =>
      var anos := hoje.ano - n.ano;
      var idade := if AntesDoAniversario(n, hoje) then anos - 1 else anos;
      if idade < 0 then 0 else idade
  }

  /** The `k`-th birthday, `k` years after the birth date (same month and day). */
  function Aniversario(nascimento: Data, k: int): Data
  {
    Data(nascimento.ano + k, nascimento.mes, nascimento.dia)
  }

  /** The `k`-th birthday has been reached on `hoje`. */
  predicate Atingido(nascimento: Data, k: int, hoje: Data)
  {
    !Antes(hoje, Aniversario(nascimento, k))
  }

  /**
   * A positive age is the number of the last birthday reached: the
   * `idade`-th birthday is not after today and the next one is.
   */
  lemma IdadeEhUltimoAniversario(nascimento: Data, hoje: Data)
    ensures var idade := CalcularIdade(Some(nascimento), hoje);
      idade > 0 ==> Atingido(nascimento, idade, hoje) && !Atingido(nascimento, idade + 1, hoje)
  {
  }

  /** Age 0 means the first birthday has not been reached. */
  lemma IdadeZero(nascimento: Data, hoje: Data)
    ensures CalcularIdade(Some(nascimento), hoje) == 0 <==> !Atingido(nascimento, 1, hoje)
  {
  }

  /** On the birthday itself the full year difference counts. */
  lemma IdadeNoAniversario(nascimento: Data, k: nat)
    ensures CalcularIdade(Some(nascimento), Aniversario(nascimento, k)) == k
  {
  }

  /** A birth date after today gives 0. */
  lemma IdadeNascimentoFuturo(nascimento: Data, hoje: Data)
    requires Antes(hoje, nascimento)
    ensures CalcularIdade(Some(nascimento), hoje) == 0
  {
  }

  /** For a fixed birth date the age never decreases as today advances. */
  lemma IdadeMonotona(nascimento: Option<Data>, hoje1: Data, hoje2: Data)
    requires Antes(hoje1, hoje2)
    ensures CalcularIdade(nascimento, hoje1) <= CalcularIdade(nascimento, hoje2)
  {
  }
}

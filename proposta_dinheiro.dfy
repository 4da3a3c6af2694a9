/** The Dinheiro value object: a non-negative decimal amount with exact
    addition, guarded subtraction and comparisons on the amount alone. */
module PropostaDinheiro {
  import opened Base

  /** A decimal amount that is not negative. */
  type Quantia = v: real | v >= 0.0

  /** Dinheiro, holding its Valor. */
  datatype Dinheiro = Dinheiro(valor: Quantia)

  /** Dinheiro.Criar: negative amounts are refused, zero is accepted. */
  function Criar(valor: real): (r: Result<Dinheiro, Error>)
    ensures valor < 0.0 ==> r == Failure(Error(Domain, Text("Valor monetário não pode ser negativo")))
    ensures valor >= 0.0 ==> r.Success? && r.value.valor == valor
  {
    if valor < 0.0 then Failure(Error(Domain, Text("Valor monetário não pode ser negativo")))
    else Success(Dinheiro(valor))
  }

  /** Dinheiro.Zero. */
  const Zero: Dinheiro := Dinheiro(0.0)

  /** Zero is what Criar(0) yields, and no amount is below it. */
  lemma ZeroEhMinimo(d: Dinheiro)
    ensures Criar(0.0) == Success(Zero)
    ensures MaiorOuIgual(d, Zero)
  {
  }

  /** Somar: a new amount, the sum of both (the operands are values and
      stay as they were). */
  function Somar(a: Dinheiro, b: Dinheiro): (r: Dinheiro)
    ensures r.valor >= a.valor && r.valor >= b.valor
  {
    Dinheiro(a.valor + b.valor)
  }

  /** Subtrair: the difference, or an error when it would be negative. */
  function Subtrair(a: Dinheiro, b: Dinheiro): (r: Result<Dinheiro, Error>)
    ensures a.valor < b.valor ==> r == Failure(Error(Domain, Text("Resultado da subtração não pode ser negativo")))
    ensures a.valor >= b.valor ==> r.Success? && r.value.valor + b.valor == a.valor
  {
    var resultado := a.valor - b.valor;
    if resultado < 0.0 then Failure(Error(Domain, Text("Resultado da subtração não pode ser negativo")))
    else Success(Dinheiro(resultado))
  }

  /** Adding and then subtracting the same amount gives back the original,
      and a successful subtraction is undone by adding the amount back. */
  lemma SomarSubtrair(a: Dinheiro, b: Dinheiro)
    ensures Subtrair(Somar(a, b), b) == Success(a)
    ensures Subtrair(a, b).Success? ==> Somar(Subtrair(a, b).value, b) == a
  {
  }

  /** Somar is commutative and associative, with Zero as its unit. */
  lemma SomarMonoide(a: Dinheiro, b: Dinheiro, c: Dinheiro)
    ensures Somar(a, b) == Somar(b, a)
    ensures Somar(Somar(a, b), c) == Somar(a, Somar(b, c))
    ensures Somar(a, Zero) == a
  {
  }

  /** Equals(Dinheiro?): false for null, otherwise Valor equality. */
  function Igual(a: Dinheiro, other: Option<Dinheiro>): (r: bool)
    ensures r <==> other == Some(a)
  {
    match other
    case None => false
    case Some(o) => a.valor == o.valor
  }

  /** operator ==: two nulls are equal, one null is not. */
  function OpIgual(left: Option<Dinheiro>, right: Option<Dinheiro>): (r: bool)
    ensures r <==> left == right
  {
    if left.None? then right.None? else Igual(left.value, right)
  }

  function OpDiferente(left: Option<Dinheiro>, right: Option<Dinheiro>): (r: bool)
    ensures r <==> left != right
  {
    !OpIgual(left, right)
  }

  predicate Maior(a: Dinheiro, b: Dinheiro) {
    a.valor > b.valor
  }

  predicate Menor(a: Dinheiro, b: Dinheiro) {
    a.valor < b.valor
  }

  predicate MaiorOuIgual(a: Dinheiro, b: Dinheiro) {
    a.valor >= b.valor
  }

  predicate MenorOuIgual(a: Dinheiro, b: Dinheiro) {
    a.valor <= b.valor
  }

  /** The operators form one total order that agrees with equality: exactly
      one of <, == and > holds, <= and >= are their unions, and > is < with
      the operands swapped. */
  lemma OrdemTotal(a: Dinheiro, b: Dinheiro)
    ensures Menor(a, b) || OpIgual(Some(a), Some(b)) || Maior(a, b)
    ensures !(Menor(a, b) && Maior(a, b))
    ensures OpIgual(Some(a), Some(b)) ==> !Menor(a, b) && !Maior(a, b)
    ensures MenorOuIgual(a, b) <==> Menor(a, b) || OpIgual(Some(a), Some(b))
    ensures MaiorOuIgual(a, b) <==> !Menor(a, b)
    ensures Maior(a, b) <==> Menor(b, a)
  {
  }

  /** GetHashCode delegates to the decimal's hash. */
  function HashCode(d: Dinheiro, decimalHash: real -> int): int {
    decimalHash(d.valor)
  }

  lemma IguaisTemMesmoHash(a: Dinheiro, b: Dinheiro, decimalHash: real -> int)
    requires OpIgual(Some(a), Some(b))
    ensures HashCode(a, decimalHash) == HashCode(b, decimalHash)
  {
  }
}

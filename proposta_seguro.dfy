/** The Seguro entity: the kind of insurance and its two amounts, with the
    invariant 0 < prêmio < cobertura. */
module PropostaSeguro {
  import opened Base
  import D = PropostaDinheiro
  import T = PropostaTipoSeguro

  /** The amount checks Criar and AtualizarValores both make, in their
      order: both amounts as Dinheiro, cobertura > 0, prêmio > 0, prêmio
      below cobertura. */
  function ValidarValores(valorCobertura: real, valorPremio: real): (r: Result<(D.Dinheiro, D.Dinheiro), Error>)
    ensures r.Success? <==> 0.0 < valorPremio < valorCobertura
    ensures r.Success? ==> r.value.0.valor == valorCobertura && r.value.1.valor == valorPremio
    ensures valorCobertura < 0.0 || (valorCobertura >= 0.0 && valorPremio < 0.0) ==>
      r == Failure(Error(Domain, Text("Valor monetário não pode ser negativo")))
    ensures valorCobertura == 0.0 && valorPremio >= 0.0 ==>
      r == Failure(Error(Domain, Text("Valor da cobertura deve ser maior que zero")))
    ensures valorCobertura > 0.0 && valorPremio == 0.0 ==>
      r == Failure(Error(Domain, Text("Valor do prêmio deve ser maior que zero")))
    ensures 0.0 < valorCobertura <= valorPremio ==>
      r == Failure(Error(Domain, Text("Valor do prêmio não pode ser maior ou igual ao valor da cobertura")))
  {
    match D.Criar(valorCobertura)
    case Failure(e) => Failure(e)
    case Success(cobertura) =>
      match D.Criar(valorPremio)
      case Failure(e) => Failure(e)
      case Success(premio) =>
        if D.MenorOuIgual(cobertura, D.Zero) then
          Failure(Error(Domain, Text("Valor da cobertura deve ser maior que zero")))
        else if D.MenorOuIgual(premio, D.Zero) then
          Failure(Error(Domain, Text("Valor do prêmio deve ser maior que zero")))
        else if D.MaiorOuIgual(premio, cobertura) then
          Failure(Error(Domain, Text("Valor do prêmio não pode ser maior ou igual ao valor da cobertura")))
        else Success((cobertura, premio))
  }

  class Seguro {
    const id: Guid
    const tipo: T.TipoSeguro
    var valorCobertura: D.Dinheiro
    var valorPremio: D.Dinheiro

    /** The insurance invariant: 0 < prêmio < cobertura. */
    ghost predicate Valid()
      reads this
    {
      0.0 < valorPremio.valor < valorCobertura.valor
    }

    /** The private constructor (also used when a row is materialised). */
    constructor Materializar(id: Guid, tipo: T.TipoSeguro, valorCobertura: D.Dinheiro, valorPremio: D.Dinheiro)
      ensures this.id == id && this.tipo == tipo
      ensures this.valorCobertura == valorCobertura && this.valorPremio == valorPremio
    {
      this.id := id;
      this.tipo := tipo;
      this.valorCobertura := valorCobertura;
      this.valorPremio := valorPremio;
    }

    /** Seguro.Criar: TipoSeguro.Criar first, then the amount checks; the
        new Id (Guid.NewGuid) is passed in. */
    static method Criar(tipo: string, valorCobertura: real, valorPremio: real, id: Guid) returns (r: Result<Seguro, Error>)
      ensures T.Criar(tipo).Failure? ==> r == Failure(T.Criar(tipo).error)
      ensures T.Criar(tipo).Success? && ValidarValores(valorCobertura, valorPremio).Failure? ==>
        r == Failure(ValidarValores(valorCobertura, valorPremio).error)
      ensures T.Criar(tipo).Success? && ValidarValores(valorCobertura, valorPremio).Success? ==>
        && r.Success? && fresh(r.value) && r.value.Valid()
        && r.value.id == id && r.value.tipo == T.Criar(tipo).value
        && r.value.valorCobertura.valor == valorCobertura && r.value.valorPremio.valor == valorPremio
    {
      var tipoSeguro := T.Criar(tipo);
      if tipoSeguro.Failure? {
        return Failure(tipoSeguro.error);
      }
      var valores := ValidarValores(valorCobertura, valorPremio);
      if valores.Failure? {
        return Failure(valores.error);
      }
      var s := new Seguro.Materializar(id, tipoSeguro.value, valores.value.0, valores.value.1);
      return Success(s);
    }

    /** AtualizarValores: the same checks, and only then both amounts are
        written; a failed update changes nothing. Id and Tipo are constant. */
    method AtualizarValores(valorCobertura: real, valorPremio: real) returns (r: Result<Unit, Error>)
      modifies this
      ensures ValidarValores(valorCobertura, valorPremio).Failure? ==>
        && r == Failure(ValidarValores(valorCobertura, valorPremio).error)
        && this.valorCobertura == old(this.valorCobertura) && this.valorPremio == old(this.valorPremio)
      ensures ValidarValores(valorCobertura, valorPremio).Success? ==>
        && r == Success(Unit) && Valid()
        && this.valorCobertura.valor == valorCobertura && this.valorPremio.valor == valorPremio
      ensures old(Valid()) ==> Valid()
    {
      var valores := ValidarValores(valorCobertura, valorPremio);
      if valores.Failure? {
        return Failure(valores.error);
      }
      this.valorCobertura := valores.value.0;
      this.valorPremio := valores.value.1;
      return Success(Unit);
    }
  }
}

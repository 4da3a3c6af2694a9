/** The domain service and specification of the proposal service:
    PropostaValidationService and PropostaAprovadaSpecification. */
module PropostaServicos {
  import opened Base
  import opened PropostaCliente
  import opened PropostaSeguro
  import opened PropostaProposta

  /** PropostaValidationService.ObterErrosValidacao, with the clock reading
      passed in: a null proposal gives one error and stops; otherwise the
      missing Cliente, the missing Seguro and a creation date in the future
      are reported, in that order. */
  method ObterErrosValidacao(p: Proposta?, agora: Instant) returns (erros: seq<string>)
    ensures p == null ==> erros == ["Proposta não pode ser nula"]
    ensures p != null ==>
      erros == (if p.cliente == null then ["Cliente é obrigatório"] else [])
             + (if p.seguro == null then ["Seguro é obrigatório"] else [])
             + (if p.dataCriacao > agora then ["Data de criação não pode ser no futuro"] else [])
    ensures erros == [] <==> p != null && p.cliente != null && p.seguro != null && p.dataCriacao <= agora
  {
    erros := [];
    if p == null {
      erros := erros + ["Proposta não pode ser nula"];
      return;
    }
    if p.cliente == null {
      erros := erros + ["Cliente é obrigatório"];
    }
    if p.seguro == null {
      erros := erros + ["Seguro é obrigatório"];
    }
    if p.dataCriacao > agora {
      erros := erros + ["Data de criação não pode ser no futuro"];
    }
  }

  /** PropostaValidationService.ValidarProposta: no errors. */
  method ValidarProposta(p: Proposta?, agora: Instant) returns (ok: bool)
    ensures ok <==> p != null && p.cliente != null && p.seguro != null && p.dataCriacao <= agora
  {
    var erros := ObterErrosValidacao(p, agora);
    ok := |erros| == 0;
  }

  /** A proposal built by Proposta.Criar is valid at its creation instant and
      at any later one. */
  method CriadaEhValida(nomeCliente: string, cpf: string, tipoSeguro: string, valorCobertura: real, valorPremio: real,
                        id: Guid, seguroId: Guid, criacao: Instant, agora: Instant)
    returns (ok: bool)
    requires ErroDeCriacao(nomeCliente, cpf, tipoSeguro, valorCobertura, valorPremio).None?
    requires criacao <= agora
    ensures ok
  {
    var r := Proposta.Criar(nomeCliente, cpf, tipoSeguro, valorCobertura, valorPremio, id, seguroId, criacao);
    ok := ValidarProposta(r.value, agora);
  }

  /** PropostaAprovadaSpecification.IsSatisfiedBy. */
  predicate PropostaAprovadaSatisfeita(p: Proposta)
    reads p
  {
    p.status == Aprovada
  }

  /** PropostaAprovadaSpecification.ToExpression: the same predicate over
      stored rows, as the query translates it. */
  function PropostaAprovadaExpressao(): (f: PropostaRow -> bool)
    ensures forall row :: f(row) <==> row.status == Aprovada
  {
    (row: PropostaRow) => row.status == Aprovada
  }

  /** The expression and IsSatisfiedBy agree on every proposal, and neither
      holds for EmAnalise or Rejeitada. */
  lemma PropostaAprovadaConcorda(p: Proposta)
    requires p.cliente != null && p.seguro != null
    ensures PropostaAprovadaExpressao()(p.Row()) == PropostaAprovadaSatisfeita(p)
    ensures p.status != Aprovada ==> !PropostaAprovadaSatisfeita(p)
  {
  }

  /** A proposal in analysis satisfies the specification after Aprovar. */
  method AprovadaAposAprovar(p: Proposta)
    requires p.cliente != null && p.status == EmAnalise
    modifies p
    ensures PropostaAprovadaSatisfeita(p)
  {
    var r := p.Aprovar();
  }
}

/** The domain services and specifications of the contract service:
    ContratoValidationService, PropostaValidationService,
    ContratoAtivoSpecification and PropostaAprovadaSpecification. */
module ContratacaoServicos {
  import opened Base
  import opened ContratacaoPropostaId
  import opened ContratacaoContrato
  import opened ContratacaoRepositorio

  /** The proposal status as the contract service knows it. */
  datatype StatusProposta = EmAnalise | Aprovada | Rejeitada

  /** The contract service's view of a proposal: its identity and status. */
  datatype Proposta = Proposta(id: Guid, status: StatusProposta)

  /** ContratoValidationService.ValidarContratoAsync: false for a null
      contract or an empty PropostaId. */
  function ValidarContrato(c: Contrato?): (r: bool)
    ensures r <==> c != null
  {
    if c == null then false
    else if ParaGuid(c.propostaId) == GuidEmpty then false
    else true
  }

  /** ContratoValidationService.PodeContratarPropostaAsync: a proposal can be
      contracted when no committed contract refers to it. */
  function PodeContratar(repo: ContratoRepository, propostaId: Guid): (r: bool)
    reads repo
    ensures r <==> forall i :: 0 <= i < |repo.confirmados| ==> repo.confirmados[i].propostaId.value != propostaId
  {
    !repo.ExisteContratoParaProposta(propostaId)
  }

  /** When PodeContratar holds, committing a new contract for the proposal
      cannot be refused by the unique index (only by a clash of Ids); when it
      does not hold, it is always refused. */
  lemma PodeContratarConcordaComCommit(repo: ContratoRepository, row: ContratoRow)
    requires Unicos(repo.confirmados)
    ensures PodeContratar(repo, row.propostaId.value) && !TemId(repo.confirmados, row.id)
      ==> GravarTodos(repo.confirmados, [Inserir(row)]) == Success(repo.confirmados + [row])
    ensures !PodeContratar(repo, row.propostaId.value)
      ==> GravarTodos(repo.confirmados, [Inserir(row)]).Failure?
  {
    if !PodeContratar(repo, row.propostaId.value) {
      var i :| 0 <= i < |repo.confirmados| && repo.confirmados[i].propostaId.value == row.propostaId.value;
      assert repo.confirmados[i].propostaId == row.propostaId;
      SegundoContratoRecusado(repo.confirmados, row);
    }
  }

  /** ContratoAtivoSpecification.IsSatisfiedBy. */
  predicate ContratoAtivo(c: Contrato)
    reads c
  {
    c.status == Ativo
  }

  /** ContratoAtivoSpecification.ToExpression: the predicate as the query
      translates it, over stored rows. */
  function ContratoAtivoExpressao(): (f: ContratoRow -> bool)
    ensures forall row :: f(row) <==> row.status == Ativo
  {
    (row: ContratoRow) => row.status == Ativo
  }

  /** The expression and IsSatisfiedBy agree on every contract; a fresh
      contract satisfies it, cancelled and suspended ones do not. */
  lemma ContratoAtivoConcorda(c: Contrato, s: StatusContrato)
    ensures ContratoAtivoExpressao()(c.Row()) == ContratoAtivo(c)
    ensures ContratoAtivo(c) <==> c.status == Ativo
    ensures s != Ativo ==> !ContratoAtivoExpressao()(c.Row().(status := s))
  {
  }

  /** PropostaAprovadaSpecification.IsSatisfiedBy. */
  predicate PropostaAprovada(p: Proposta) {
    p.status == Aprovada
  }

  /** PropostaAprovadaSpecification.ToExpression. */
  function PropostaAprovadaExpressao(): (f: Proposta -> bool)
    ensures forall p :: f(p) <==> p.status == Aprovada
  {
    (p: Proposta) => p.status == Aprovada
  }

  /** PropostaValidationService.ValidarPropostaAprovadaAsync: false for null,
      otherwise whether the status is Aprovada. */
  function ValidarPropostaAprovada(p: Option<Proposta>): (r: bool)
    ensures p.None? ==> !r
    ensures p.Some? ==> (r <==> PropostaAprovada(p.value))
  {
    if p.None? then false else p.value.status == Aprovada
  }

  /** The service, the specification and its expression agree on every
      proposal, and EmAnalise and Rejeitada fail all three. */
  lemma PropostaAprovadaConcorda(p: Proposta)
    ensures ValidarPropostaAprovada(Some(p)) == PropostaAprovada(p) == PropostaAprovadaExpressao()(p)
    ensures p.status != Aprovada ==> !ValidarPropostaAprovada(Some(p))
  {
  }
}

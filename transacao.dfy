/** TransactionBehavior, the MediatR pipeline step both services register
    around every request: queries pass straight through, and a failing
    command triggers a rollback before the exception is rethrown. */
module Transacao {
  import opened Base
  import opened Text
  import CR = ContratacaoRepositorio
  import PR = PropostaRepositorio

  /** A request is a query when its type name ends in "Query". */
  function IsQuery(nomeTipo: string): (r: bool)
    ensures r <==> |nomeTipo| >= 5 && nomeTipo[|nomeTipo| - 5..] == "Query"
  {
    EndsWith(nomeTipo, "Query")
  }

  lemma IsQueryExemplos()
    ensures IsQuery("ListarContratosQuery") && IsQuery("ObterPropostaQuery")
    ensures !IsQuery("CriarContratoCommand") && !IsQuery("AlterarStatusPropostaCommand")
    ensures !IsQuery("Query ") && !IsQuery("query")
  {
    assert "ListarContratosQuery"[15..] == "Query";
    assert "ObterPropostaQuery"[13..] == "Query";
  }

  /** TransactionBehavior<TRequest, TResponse>.Handle of ContratacaoService.
      `resposta` is the outcome of the single call to next (the handler and
      the rest of the pipeline), whose effects on the unit of work have
      already happened. A failed command calls RollbackAsync before the
      error is passed on; nothing is ever committed here. */
  method HandleContratacao<R>(uow: CR.ContratoRepository, nomeTipo: string, resposta: Result<R, Error>)
    returns (r: Result<R, Error>)
    modifies uow
    ensures r == resposta
    ensures uow.confirmados == old(uow.confirmados) && uow.pendentes == old(uow.pendentes)
    ensures uow.chamadas == old(uow.chamadas) + (if !IsQuery(nomeTipo) && resposta.Failure? then [Desfeito] else [])
  {
    r := resposta;
    if IsQuery(nomeTipo) {
      return;
    }
    if r.Failure? {
      uow.Rollback();
    }
  }

  /** TransactionBehavior<TRequest, TResponse>.Handle of PropostaService, the
      same wrapper over the proposal unit of work. */
  method HandleProposta<R>(uow: PR.PropostaRepository, nomeTipo: string, resposta: Result<R, Error>)
    returns (r: Result<R, Error>)
    modifies uow
    ensures r == resposta
    ensures uow.confirmados == old(uow.confirmados) && uow.pendentes == old(uow.pendentes)
    ensures uow.chamadas == old(uow.chamadas) + (if !IsQuery(nomeTipo) && resposta.Failure? then [Desfeito] else [])
  {
    r := resposta;
    if IsQuery(nomeTipo) {
      return;
    }
    if r.Failure? {
      uow.Rollback();
    }
  }
}

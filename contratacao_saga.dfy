/** The contract-issuance saga: VerificarPropostaStep, CriarContratoStep,
    NotificarContratoStep and the orchestrator ContratacaoSaga, which runs
    them in that order and cancels the created contract when a later step
    fails. */
module ContratacaoSaga {
  import opened Base
  import opened ContratacaoPropostaId
  import opened ContratacaoContrato
  import opened ContratacaoRepositorio
  import opened ContratacaoServicos
  import opened Sequences

  /** The proposal as the proposal service's HTTP client returns it. */
  datatype PropostaDto = PropostaDto(id: Guid, status: StatusProposta)

  /** ContratoCriadoEvent. */
  datatype ContratoCriadoEvento = ContratoCriadoEvento(contratoId: Guid, propostaId: Guid, dataContratacao: Instant)

  /** The mediator the notification is published through, as the log of the
      events it delivered. */
  class Mediador {
    var publicados: seq<ContratoCriadoEvento>

    constructor ()
      ensures publicados == []
    {
      publicados := [];
    }

    /** Publish: delivers the event, or fails with `falha` and delivers
        nothing. */
    method Publicar(e: ContratoCriadoEvento, falha: Option<Error>) returns (r: Option<Error>)
      modifies this
      ensures falha.None? ==> r.None? && publicados == old(publicados) + [e]
      ensures falha.Some? ==> r == falha && publicados == old(publicados)
    {
      if falha.Some? {
        return falha;
      }
      publicados := publicados + [e];
      return None;
    }
  }

  /** What the proposal client answers for an id: a proposal, null (an
      answer other than 2xx), or an exception. */
  type ClienteProposta = Guid -> Result<Option<PropostaDto>, Error>

  /** VerificarPropostaStep.ExecuteAsync: one query to the client; a missing
      proposal and a proposal not approved are rejected. */
  function VerificarProposta(propostaId: Guid, cliente: ClienteProposta): (r: Result<PropostaDto, Error>)
    ensures cliente(propostaId).Failure? ==> r == Failure(cliente(propostaId).error)
    ensures cliente(propostaId) == Success(None) ==>
      r == Failure(Error(ContratoInvalido, ComId("Proposta ", propostaId, " não encontrada")))
    ensures r.Success? <==>
      cliente(propostaId).Success? && cliente(propostaId).value.Some?
      && cliente(propostaId).value.value.status == Aprovada
    ensures r.Success? ==> r == Success(cliente(propostaId).value.value)
    ensures (cliente(propostaId).Success? && cliente(propostaId).value.Some?
             && cliente(propostaId).value.value.status != Aprovada) ==>
      r == Failure(Error(PropostaNaoAprovada, ComId("A proposta ", propostaId, " não está aprovada e não pode ser contratada")))
  {
    match cliente(propostaId)
    case Failure(e) => Failure(e)
    case Success(None) => Failure(Error(ContratoInvalido, ComId("Proposta ", propostaId, " não encontrada")))
    case Success(Some(dto)) =>
      if dto.status != Aprovada then
        Failure(Error(PropostaNaoAprovada, ComId("A proposta ", propostaId, " não está aprovada e não pode ser contratada")))
      else Success(dto)
  }

  /** The verification step lets through exactly the proposals the
      PropostaAprovadaSpecification accepts. */
  lemma VerificarAceitaAprovadas(propostaId: Guid, cliente: ClienteProposta)
    requires cliente(propostaId).Success? && cliente(propostaId).value.Some?
    ensures VerificarProposta(propostaId, cliente).Success?
      <==> PropostaAprovada(Proposta(propostaId, cliente(propostaId).value.value.status))
  {
  }

  /** The row CriarContratoStep inserts for a verified proposal. */
  function NovaLinha(dto: PropostaDto, novoId: Guid, agora: Instant): ContratoRow
    requires dto.id != GuidEmpty
  {
    ContratoRow(novoId, PropostaId(dto.id), agora, Ativo, agora, None)
  }

  /** CriarContratoStep.ExecuteAsync: builds the contract (new PropostaId
      rejects an empty id before anything is staged), adds it and commits.
      The contract returned is the object that was added. */
  method CriarContrato(repo: ContratoRepository, dto: PropostaDto, novoId: Guid, agora: Instant, falhaCommit: Option<Error>)
    returns (r: Result<Contrato, Error>)
    requires repo.Valid()
    modifies repo
    ensures repo.Valid()
    ensures dto.id == GuidEmpty ==>
      r == Failure(Error(Argument, TextoDoParametro("PropostaId não pode ser vazio", "value"))) && unchanged(repo)
    ensures dto.id != GuidEmpty ==>
      var pend := old(repo.pendentes) + [Inserir(NovaLinha(dto, novoId, agora))];
      var g := Confirmar(old(repo.confirmados), pend, falhaCommit);
      && repo.chamadas == old(repo.chamadas) + [Adicionado(novoId), Confirmado]
      && (g.Success? ==> r.Success? && fresh(r.value) && r.value.Row() == NovaLinha(dto, novoId, agora)
                         && repo.confirmados == g.value && repo.pendentes == [])
      && (g.Failure? ==> r == Failure(g.error)
                         && repo.confirmados == old(repo.confirmados) && repo.pendentes == pend)
  {
    var p := Criar(dto.id);
    if p.Failure? {
      return Failure(p.error);
    }
    var contrato := new Contrato(p.value, novoId, agora);
    repo.Adicionar(contrato);
    var c := repo.Commit(falhaCommit);
    if c.Failure? {
      return Failure(c.error);
    }
    return Success(contrato);
  }

  /** CriarContratoStep.CompensateAsync: finds the committed contract of the
      proposal; if there is none nothing happens, otherwise it is cancelled,
      updated and committed. Cancelling an already-cancelled contract throws
      before the update and the commit. */
  method CompensarCriacao(repo: ContratoRepository, dto: PropostaDto, agora: Instant, falhaCommit: Option<Error>)
    returns (r: Result<Unit, Error>)
    requires repo.Valid()
    modifies repo
    ensures repo.Valid()
    ensures old(repo.ObterPorPropostaId(dto.id)).None? ==> r == Success(Unit) && unchanged(repo)
    ensures old(repo.ObterPorPropostaId(dto.id)).Some? && old(repo.ObterPorPropostaId(dto.id)).value.status == Cancelado ==>
      r == Failure(Error(InvalidOperation, Text("Contrato já está cancelado"))) && unchanged(repo)
    ensures old(repo.ObterPorPropostaId(dto.id)).Some? && old(repo.ObterPorPropostaId(dto.id)).value.status != Cancelado ==>
      var novo := old(repo.ObterPorPropostaId(dto.id)).value.(status := Cancelado, dataAtualizacao := Some(agora));
      var pend := old(repo.pendentes) + [Alterar(novo)];
      var g := Confirmar(old(repo.confirmados), pend, falhaCommit);
      && repo.chamadas == old(repo.chamadas) + [Atualizado(novo.id), Confirmado]
      && (g.Success? ==> r == Success(Unit) && repo.confirmados == g.value && repo.pendentes == [])
      && (g.Failure? ==> r == Failure(g.error) && repo.confirmados == old(repo.confirmados) && repo.pendentes == pend)
  {
    var achado := repo.ObterPorPropostaId(dto.id);
    if achado.None? {
      return Success(Unit);
    }
    var contrato := new Contrato.Materializar(achado.value);
    var c := contrato.Cancelar(agora);
    if c.Failure? {
      return Failure(c.error);
    }
    repo.Atualizar(contrato);
    var k := repo.Commit(falhaCommit);
    if k.Failure? {
      return Failure(k.error);
    }
    return Success(Unit);
  }

  /** NotificarContratoStep.ExecuteAsync: publishes one ContratoCriadoEvent
      built from the contract and returns true; a publish failure propagates.
      The contract is not modified. */
  method NotificarContrato(contrato: Contrato, mediador: Mediador, falha: Option<Error>) returns (r: Result<bool, Error>)
    modifies mediador
    ensures falha.None? ==>
      r == Success(true)
      && mediador.publicados == old(mediador.publicados)
           + [ContratoCriadoEvento(contrato.id, contrato.propostaId.value, contrato.dataContratacao)]
    ensures falha.Some? ==> r == Failure(falha.value) && mediador.publicados == old(mediador.publicados)
  {
    var evento := ContratoCriadoEvento(contrato.id, contrato.propostaId.value, contrato.dataContratacao);
    var e := mediador.Publicar(evento, falha);
    if e.Some? {
      return Failure(e.value);
    }
    return Success(true);
  }

  /** How one run of the saga meets the outside world: the proposal client,
      and the failures (if any) of the creation commit, of the publish and of
      the compensation commit. */
  datatype Roteiro = Roteiro(
    cliente: ClienteProposta,
    falhaCommitCriacao: Option<Error>,
    falhaPublicacao: Option<Error>,
    falhaCommitCompensacao: Option<Error>)

  /** The row of the new contract once the compensation has cancelled it. */
  function LinhaCancelada(row: ContratoRow, agora: Instant): ContratoRow {
    row.(status := Cancelado, dataAtualizacao := Some(agora))
  }

  /** Right after the creation commit, the compensation finds the contract
      just created and its cancellation replaces that row in place. */
  lemma CompensacaoEncontraContrato(repo: ContratoRepository, antes: seq<ContratoRow>, row: ContratoRow, agora: Instant)
    requires repo.confirmados == antes + [row] && Unicos(antes + [row])
    ensures repo.ObterPorPropostaId(row.propostaId.value) == Some(row)
    ensures GravarTodos(antes + [row], [Alterar(LinhaCancelada(row, agora))])
         == Success(antes + [LinhaCancelada(row, agora)])
  {
    var linhas := antes + [row];
    assert linhas[|antes|] == row;
    var achado := repo.ObterPorPropostaId(row.propostaId.value);
    assert achado.Some?;
    var i :| 0 <= i < |linhas| && linhas[i] == achado.value;
    assert linhas[i].propostaId == row.propostaId;
    assert i == |antes|;
    AtualizacaoPersiste(linhas, LinhaCancelada(row, agora));
    assert Substituir(linhas, LinhaCancelada(row, agora)) == antes + [LinhaCancelada(row, agora)];
  }

  /** ContratacaoSaga.ExecutarAsync. The request's unit of work starts with
      nothing staged. */
  method ExecutarSaga(propostaId: Guid, repo: ContratoRepository, mediador: Mediador, roteiro: Roteiro,
                      novoId: Guid, agora: Instant, agoraCompensacao: Instant)
    returns (r: Result<Contrato, Error>)
    requires repo.Valid() && repo.pendentes == []
    modifies repo, mediador
    ensures repo.Valid()
    // Verification fails: nothing else runs.
    ensures VerificarProposta(propostaId, roteiro.cliente).Failure? ==>
      r == Failure(VerificarProposta(propostaId, roteiro.cliente).error)
      && unchanged(repo) && unchanged(mediador)
    // The verified proposal carries Guid.Empty: the contract is never built.
    ensures (VerificarProposta(propostaId, roteiro.cliente).Success?
             && VerificarProposta(propostaId, roteiro.cliente).value.id == GuidEmpty) ==>
      r == Failure(Error(Argument, TextoDoParametro("PropostaId não pode ser vazio", "value")))
      && unchanged(repo) && unchanged(mediador)
    ensures (VerificarProposta(propostaId, roteiro.cliente).Success?
             && VerificarProposta(propostaId, roteiro.cliente).value.id != GuidEmpty) ==>
      var dto := VerificarProposta(propostaId, roteiro.cliente).value;
      var row := NovaLinha(dto, novoId, agora);
      var criacao := Confirmar(old(repo.confirmados), [Inserir(row)], roteiro.falhaCommitCriacao);
      // The creation commit fails: no compensation, nothing published.
      && (criacao.Failure? ==>
            r == Failure(criacao.error)
            && repo.confirmados == old(repo.confirmados) && repo.pendentes == [Inserir(row)]
            && repo.chamadas == old(repo.chamadas) + [Adicionado(novoId), Confirmado]
            && mediador.publicados == old(mediador.publicados))
      // Created and published: the saga returns the created contract.
      && (criacao.Success? && roteiro.falhaPublicacao.None? ==>
            r.Success? && fresh(r.value) && r.value.Row() == row
            && repo.confirmados == old(repo.confirmados) + [row] && repo.pendentes == []
            && repo.chamadas == old(repo.chamadas) + [Adicionado(novoId), Confirmado]
            && mediador.publicados == old(mediador.publicados) + [ContratoCriadoEvento(novoId, dto.id, agora)])
      // Created, publish fails: the contract is cancelled exactly once, then
      // the publish error is rethrown; an error of the compensation commit
      // escapes instead.
      && (criacao.Success? && roteiro.falhaPublicacao.Some? ==>
            && mediador.publicados == old(mediador.publicados)
            && repo.chamadas == old(repo.chamadas) + [Adicionado(novoId), Confirmado, Atualizado(novoId), Confirmado]
            && (roteiro.falhaCommitCompensacao.None? ==>
                  r == Failure(roteiro.falhaPublicacao.value)
                  && repo.confirmados == old(repo.confirmados) + [LinhaCancelada(row, agoraCompensacao)]
                  && repo.pendentes == [])
            && (roteiro.falhaCommitCompensacao.Some? ==>
                  r == Failure(roteiro.falhaCommitCompensacao.value)
                  && repo.confirmados == old(repo.confirmados) + [row]
                  && repo.pendentes == [Alterar(LinhaCancelada(row, agoraCompensacao))]))
  {
    var proposta := VerificarProposta(propostaId, roteiro.cliente);
    if proposta.Failure? {
      return Failure(proposta.error);
    }
    var dto := proposta.value;
    ghost var antes := repo.confirmados;
    if dto.id != GuidEmpty {
      var row := NovaLinha(dto, novoId, agora);
      assert repo.pendentes + [Inserir(row)] == [Inserir(row)];
      if !TemId(antes, novoId) && !TemProposta(antes, row.propostaId) {
        InsercaoVisivel(antes, row);
      }
    }
    var contrato := CriarContrato(repo, dto, novoId, agora, roteiro.falhaCommitCriacao);
    if contrato.Failure? {
      return Failure(contrato.error);
    }
    var notificado := NotificarContrato(contrato.value, mediador, roteiro.falhaPublicacao);
    if notificado.Success? {
      return Success(contrato.value);
    }
    // The catch block: the proposal and the contract are both set.
    var row := NovaLinha(dto, novoId, agora);
    var cancelada := LinhaCancelada(row, agoraCompensacao);
    assert repo.confirmados == antes + [row];
    CompensacaoEncontraContrato(repo, antes, row, agoraCompensacao);
    assert repo.pendentes + [Alterar(cancelada)] == [Alterar(cancelada)];
    var compensacao := CompensarCriacao(repo, dto, agoraCompensacao, roteiro.falhaCommitCompensacao);
    if compensacao.Failure? {
      return Failure(compensacao.error);
    }
    return Failure(notificado.error);
  }
}

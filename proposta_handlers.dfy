/** The command handlers of the proposal service: CriarPropostaHandler,
    AtualizarPropostaHandler and AlterarStatusPropostaHandler. Each loads or
    builds the aggregate, lets it apply the change, then stages the row and
    commits; a domain error aborts before anything is staged. */
module PropostaHandlers {
  import opened Base
  import opened Text
  import D = PropostaDinheiro
  import opened PropostaCliente
  import opened PropostaSeguro
  import opened PropostaProposta
  import opened PropostaRepositorio

  /** The PropostaInvalidaException a handler throws for an unknown Id. */
  function NaoEncontrada(id: Guid): Error {
    Error(PropostaInvalida, ComId("Proposta com ID ", id, " não encontrada"))
  }

  /** CriarPropostaHandler.Handle: Proposta.Criar on the command fields, then
      one AdicionarAsync and one CommitAsync; the new Id (Guid.NewGuid) and
      the clock reading are passed in, and so is the outcome of the database
      call. A domain error leaves the store untouched. */
  method CriarProposta(repo: PropostaRepository, nomeCliente: string, cpf: string, tipoSeguro: string,
                       valorCobertura: real, valorPremio: real, id: GuidNaoVazio, seguroId: Guid, agora: Instant,
                       falha: Option<Error>)
    returns (r: Result<Guid, Error>)
    requires repo.Valid()
    modifies repo
    ensures repo.Valid()
    ensures ErroDeCriacao(nomeCliente, cpf, tipoSeguro, valorCobertura, valorPremio).Some? ==>
      && r == Failure(ErroDeCriacao(nomeCliente, cpf, tipoSeguro, valorCobertura, valorPremio).value)
      && repo.confirmados == old(repo.confirmados) && repo.pendentes == old(repo.pendentes)
      && repo.chamadas == old(repo.chamadas)
    ensures ErroDeCriacao(nomeCliente, cpf, tipoSeguro, valorCobertura, valorPremio).None? ==>
      var row := LinhaCriada(nomeCliente, cpf, tipoSeguro, valorCobertura, valorPremio, id, seguroId, agora);
      var g := Confirmar(old(repo.confirmados), old(repo.pendentes) + [Inserir(row)], falha);
      && repo.chamadas == old(repo.chamadas) + [Adicionado(id), Confirmado]
      && (g.Success? ==> r == Success(id) && repo.confirmados == g.value && repo.pendentes == [])
      && (g.Failure? ==> r == Failure(g.error) && repo.confirmados == old(repo.confirmados)
                          && repo.pendentes == old(repo.pendentes) + [Inserir(row)])
    ensures r.Success? ==> r.value == id && r.value != GuidEmpty
  {
    var criada := Proposta.Criar(nomeCliente, cpf, tipoSeguro, valorCobertura, valorPremio, id, seguroId, agora);
    if criada.Failure? {
      return Failure(criada.error);
    }
    var p := criada.value;
    var c := AdicionarEConfirmar(repo, p, LinhaCriada(nomeCliente, cpf, tipoSeguro, valorCobertura, valorPremio, id, seguroId, agora), falha);
    if c.Failure? {
      return Failure(c.error);
    }
    return Success(p.id);
  }

  /** AdicionarAsync followed by CommitAsync. */
  method AdicionarEConfirmar(repo: PropostaRepository, p: Proposta, ghost row: PropostaRow, falha: Option<Error>)
    returns (r: Result<(), Error>)
    requires repo.Valid() && p.cliente != null && p.seguro != null && p.Row() == row
    modifies repo
    ensures repo.Valid()
    ensures repo.chamadas == old(repo.chamadas) + [Adicionado(p.id), Confirmado]
    ensures var g := Confirmar(old(repo.confirmados), old(repo.pendentes) + [Inserir(row)], falha);
      && (g.Success? ==> r.Success? && repo.confirmados == g.value && repo.pendentes == [])
      && (g.Failure? ==> r == Failure(g.error) && repo.confirmados == old(repo.confirmados)
                          && repo.pendentes == old(repo.pendentes) + [Inserir(row)])
  {
    repo.Adicionar(p);
    r := repo.Commit(falha);
  }

  /** AtualizarAsync followed by CommitAsync. */
  method AtualizarEConfirmar(repo: PropostaRepository, p: Proposta, ghost row: PropostaRow, falha: Option<Error>)
    returns (r: Result<(), Error>)
    requires repo.Valid() && p.cliente != null && p.seguro != null && p.Row() == row
    modifies repo
    ensures repo.Valid()
    ensures repo.chamadas == old(repo.chamadas) + [Atualizado(p.id), Confirmado]
    ensures var g := Confirmar(old(repo.confirmados), old(repo.pendentes) + [Alterar(row)], falha);
      && (g.Success? ==> r.Success? && repo.confirmados == g.value && repo.pendentes == [])
      && (g.Failure? ==> r == Failure(g.error) && repo.confirmados == old(repo.confirmados)
                          && repo.pendentes == old(repo.pendentes) + [Alterar(row)])
  {
    repo.Atualizar(p);
    r := repo.Commit(falha);
  }

  /** The name step of AtualizarPropostaHandler: applied only when supplied
      and not blank, through the aggregate's guard and the name checks. */
  function AtualizarNomeLinha(row: PropostaRow, nomeCliente: Option<string>): (r: Result<PropostaRow, Error>)
    ensures r.Failure? <==>
      (nomeCliente.Some? && !IsNullOrWhiteSpace(nomeCliente.value)
       && (GuardaAtualizacao(row.status).Some? || ValidarNome(nomeCliente.value).Some?))
    ensures r.Success? ==> r.value == row.(nomeCliente := r.value.nomeCliente)
  {
    if nomeCliente.Some? && !IsNullOrWhiteSpace(nomeCliente.value) then
      if GuardaAtualizacao(row.status).Some? then Failure(GuardaAtualizacao(row.status).value)
      else if ValidarNome(nomeCliente.value).Some? then Failure(ValidarNome(nomeCliente.value).value)
      else Success(row.(nomeCliente := Trim(nomeCliente.value)))
    else Success(row)
  }

  /** The amounts step: applied only when both are supplied, through the
      aggregate's guard and the amount checks. */
  function AtualizarValoresLinha(row: PropostaRow, valorCobertura: Option<real>, valorPremio: Option<real>): (r: Result<PropostaRow, Error>)
    ensures r.Failure? <==>
      (valorCobertura.Some? && valorPremio.Some?
       && (GuardaAtualizacao(row.status).Some? || !(0.0 < valorPremio.value < valorCobertura.value)))
    ensures r.Success? ==> r.value == row.(valorCobertura := r.value.valorCobertura, valorPremio := r.value.valorPremio)
    ensures r.Success? && valorCobertura.Some? && valorPremio.Some? ==>
      r.value.valorCobertura.valor == valorCobertura.value && r.value.valorPremio.valor == valorPremio.value
      && 0.0 < r.value.valorPremio.valor < r.value.valorCobertura.valor
  {
    if valorCobertura.Some? && valorPremio.Some? then
      if GuardaAtualizacao(row.status).Some? then Failure(GuardaAtualizacao(row.status).value)
      else if ValidarValores(valorCobertura.value, valorPremio.value).Failure? then
        Failure(ValidarValores(valorCobertura.value, valorPremio.value).error)
      else Success(row.(valorCobertura := D.Dinheiro(valorCobertura.value), valorPremio := D.Dinheiro(valorPremio.value)))
    else Success(row)
  }

  /** AtualizarPropostaHandler on the stored row: the name step, then the
      amounts step; the first domain error stops it. */
  function AtualizarLinha(row: PropostaRow, nomeCliente: Option<string>, valorCobertura: Option<real>, valorPremio: Option<real>)
    : Result<PropostaRow, Error>
  {
    match AtualizarNomeLinha(row, nomeCliente)
    case Failure(e) => Failure(e)
    case Success(comNome) => AtualizarValoresLinha(comNome, valorCobertura, valorPremio)
  }

  /** Fields the command does not supply keep their stored values, and the
      identity, CPF, kind, creation date and status never change. */
  lemma AtualizarPreservaNaoInformados(row: PropostaRow, nomeCliente: Option<string>, valorCobertura: Option<real>, valorPremio: Option<real>)
    requires AtualizarLinha(row, nomeCliente, valorCobertura, valorPremio).Success?
    ensures var n := AtualizarLinha(row, nomeCliente, valorCobertura, valorPremio).value;
      && n.id == row.id && n.cpf == row.cpf && n.seguroId == row.seguroId && n.tipoSeguro == row.tipoSeguro
      && n.dataCriacao == row.dataCriacao && n.status == row.status
      && (nomeCliente.None? || IsNullOrWhiteSpace(nomeCliente.value) ==> n.nomeCliente == row.nomeCliente)
      && (nomeCliente.Some? && !IsNullOrWhiteSpace(nomeCliente.value) ==> n.nomeCliente == Trim(nomeCliente.value))
      && (valorCobertura.None? || valorPremio.None? ==> n.valorCobertura == row.valorCobertura && n.valorPremio == row.valorPremio)
      && (valorCobertura.Some? && valorPremio.Some? ==>
            n.valorCobertura.valor == valorCobertura.value && n.valorPremio.valor == valorPremio.value)
  {
  }

  /** A decided proposal cannot be renamed or repriced, but a command that
      supplies nothing is accepted whatever the status. */
  lemma AtualizarDecidida(row: PropostaRow, nomeCliente: Option<string>, valorCobertura: Option<real>, valorPremio: Option<real>)
    requires row.status != EmAnalise
    ensures (nomeCliente.Some? && !IsNullOrWhiteSpace(nomeCliente.value)) || (valorCobertura.Some? && valorPremio.Some?)
      ==> AtualizarLinha(row, nomeCliente, valorCobertura, valorPremio) == Failure(GuardaAtualizacao(row.status).value)
    ensures AtualizarLinha(row, None, None, None) == Success(row)
    ensures row.status == Aprovada && nomeCliente.Some? && !IsNullOrWhiteSpace(nomeCliente.value) ==>
      AtualizarLinha(row, nomeCliente, valorCobertura, valorPremio)
        == Failure(Error(PropostaInvalida, Text("Não é possível atualizar proposta aprovada")))
  {
  }

  /** An accepted update keeps the stored row's invariants: a storable name
      and 0 < prêmio < cobertura. */
  lemma AtualizarMantemInvariantes(row: PropostaRow, nomeCliente: Option<string>, valorCobertura: Option<real>, valorPremio: Option<real>)
    requires NomeArmazenavel(row.nomeCliente) && 0.0 < row.valorPremio.valor < row.valorCobertura.valor
    requires AtualizarLinha(row, nomeCliente, valorCobertura, valorPremio).Success?
    ensures var n := AtualizarLinha(row, nomeCliente, valorCobertura, valorPremio).value;
      NomeArmazenavel(n.nomeCliente) && 0.0 < n.valorPremio.valor < n.valorCobertura.valor
  {
    var comNome := AtualizarNomeLinha(row, nomeCliente).value;
    if nomeCliente.Some? && !IsNullOrWhiteSpace(nomeCliente.value) {
      NomeAceitoArmazenavel(nomeCliente.value);
    }
    assert NomeArmazenavel(comNome.nomeCliente) && 0.0 < comNome.valorPremio.valor < comNome.valorCobertura.valor;
  }

  /** The body of AtualizarPropostaHandler.Handle between loading and
      saving: AtualizarCliente when a name is supplied, then AtualizarSeguro
      when both amounts are; the first domain error stops it, and a name
      already changed stays changed on the aggregate. */
  method AplicarAtualizacao(p: Proposta, ghost row: PropostaRow, nomeCliente: Option<string>,
                            valorCobertura: Option<real>, valorPremio: Option<real>)
    returns (r: Result<Unit, Error>)
    requires p.cliente != null && p.seguro != null && p.Row() == row
    modifies p.cliente, p.seguro
    ensures var u := AtualizarLinha(row, nomeCliente, valorCobertura, valorPremio);
      && (u.Failure? ==> r == Failure(u.error))
      && (u.Success? ==> r == Success(Unit) && p.Row() == u.value)
    ensures AtualizarNomeLinha(row, nomeCliente).Failure? ==> p.Row() == row
    ensures AtualizarNomeLinha(row, nomeCliente).Success? ==>
      var comNome := AtualizarNomeLinha(row, nomeCliente).value;
      AtualizarValoresLinha(comNome, valorCobertura, valorPremio).Failure? ==> p.Row() == comNome
  {
    if nomeCliente.Some? && !IsNullOrWhiteSpace(nomeCliente.value) {
      r := p.AtualizarCliente(nomeCliente.value);
      if r.Failure? {
        return;
      }
    }
    ghost var comNome := AtualizarNomeLinha(row, nomeCliente).value;
    assert p.Row() == comNome;
    if valorCobertura.Some? && valorPremio.Some? {
      r := p.AtualizarSeguro(valorCobertura.value, valorPremio.value);
      if r.Failure? {
        return;
      }
    }
    assert p.Row() == AtualizarValoresLinha(comNome, valorCobertura, valorPremio).value;
    r := Success(Unit);
  }

  /** AtualizarPropostaHandler.Handle: an unknown Id throws before anything
      is staged; a domain error aborts before AtualizarAsync; otherwise the
      new row is staged once and committed once. */
  method AtualizarProposta(repo: PropostaRepository, propostaId: Guid, nomeCliente: Option<string>,
                           valorCobertura: Option<real>, valorPremio: Option<real>, falha: Option<Error>)
    returns (r: Result<Unit, Error>)
    requires repo.Valid()
    modifies repo
    ensures repo.Valid()
    ensures old(repo.ObterPorId(propostaId)).None? ==>
      && r == Failure(NaoEncontrada(propostaId))
      && repo.confirmados == old(repo.confirmados) && repo.pendentes == old(repo.pendentes)
      && repo.chamadas == old(repo.chamadas)
    ensures old(repo.ObterPorId(propostaId)).Some? ==>
      var u := AtualizarLinha(old(repo.ObterPorId(propostaId)).value, nomeCliente, valorCobertura, valorPremio);
      && (u.Failure? ==>
            && r == Failure(u.error)
            && repo.confirmados == old(repo.confirmados) && repo.pendentes == old(repo.pendentes)
            && repo.chamadas == old(repo.chamadas))
      && (u.Success? ==>
            var g := Confirmar(old(repo.confirmados), old(repo.pendentes) + [Alterar(u.value)], falha);
            && repo.chamadas == old(repo.chamadas) + [Atualizado(propostaId), Confirmado]
            && (g.Success? ==> r == Success(Unit) && repo.confirmados == g.value && repo.pendentes == [])
            && (g.Failure? ==> r == Failure(g.error) && repo.confirmados == old(repo.confirmados)
                                && repo.pendentes == old(repo.pendentes) + [Alterar(u.value)]))
  {
    var row := repo.ObterPorId(propostaId);
    if row.None? {
      return Failure(NaoEncontrada(propostaId));
    }
    var p := new Proposta.Materializar(row.value);
    var a := AplicarAtualizacao(p, row.value, nomeCliente, valorCobertura, valorPremio);
    if a.Failure? {
      return Failure(a.error);
    }
    var c := AtualizarEConfirmar(repo, p, AtualizarLinha(row.value, nomeCliente, valorCobertura, valorPremio).value, falha);
    if c.Failure? {
      return Failure(c.error);
    }
    return Success(Unit);
  }

  /** AlterarStatusPropostaHandler on the stored row: the aggregate's
      AlterarStatus decides. */
  function AlterarStatusLinha(row: PropostaRow, novoStatus: StatusInformado): (r: Result<PropostaRow, Error>)
    ensures r.Success? <==> ProximoStatus(row.status, novoStatus).Success?
    ensures r.Success? ==> r.value == row.(status := ProximoStatus(row.status, novoStatus).value)
    ensures r.Failure? ==> r.error == ProximoStatus(row.status, novoStatus).error
  {
    match ProximoStatus(row.status, novoStatus)
    case Success(s) => Success(row.(status := s))
    case Failure(e) => Failure(e)
  }

  /** AlterarStatusPropostaHandler.Handle: an unknown Id throws; an illegal
      move throws before AtualizarAsync; every accepted request, including
      one asking for the current status, is staged and committed. */
  method AlterarStatusProposta(repo: PropostaRepository, propostaId: Guid, novoStatus: StatusInformado, falha: Option<Error>)
    returns (r: Result<Unit, Error>)
    requires repo.Valid()
    modifies repo
    ensures repo.Valid()
    ensures old(repo.ObterPorId(propostaId)).None? ==>
      && r == Failure(NaoEncontrada(propostaId))
      && repo.confirmados == old(repo.confirmados) && repo.pendentes == old(repo.pendentes)
      && repo.chamadas == old(repo.chamadas)
    ensures old(repo.ObterPorId(propostaId)).Some? ==>
      var u := AlterarStatusLinha(old(repo.ObterPorId(propostaId)).value, novoStatus);
      && (u.Failure? ==>
            && r == Failure(u.error)
            && repo.confirmados == old(repo.confirmados) && repo.pendentes == old(repo.pendentes)
            && repo.chamadas == old(repo.chamadas))
      && (u.Success? ==>
            var g := Confirmar(old(repo.confirmados), old(repo.pendentes) + [Alterar(u.value)], falha);
            && repo.chamadas == old(repo.chamadas) + [Atualizado(propostaId), Confirmado]
            && (g.Success? ==> r == Success(Unit) && repo.confirmados == g.value && repo.pendentes == [])
            && (g.Failure? ==> r == Failure(g.error) && repo.confirmados == old(repo.confirmados)
                                && repo.pendentes == old(repo.pendentes) + [Alterar(u.value)]))
  {
    var row := repo.ObterPorId(propostaId);
    if row.None? {
      return Failure(NaoEncontrada(propostaId));
    }
    var p := new Proposta.Materializar(row.value);
    var a := p.AlterarStatus(novoStatus);
    if a.Failure? {
      return Failure(a.error);
    }
    var c := AtualizarEConfirmar(repo, p, AlterarStatusLinha(row.value, novoStatus).value, falha);
    if c.Failure? {
      return Failure(c.error);
    }
    return Success(Unit);
  }

  /** A request for the current status is accepted and leaves the row as it
      was, so the handler still stages and commits it; a decided proposal
      cannot be sent back to analysis. */
  lemma AlterarStatusCasos(row: PropostaRow, novoStatus: StatusInformado)
    ensures AlterarStatusLinha(row, Declarado(row.status)) == Success(row)
    ensures row.status != EmAnalise && novoStatus == Declarado(EmAnalise) ==>
      AlterarStatusLinha(row, novoStatus)
        == Failure(Error(PropostaInvalida, Text("Não é possível retornar proposta para análise")))
    ensures novoStatus.NaoDeclarado? ==> AlterarStatusLinha(row, novoStatus) == Success(row)
  {
  }
}

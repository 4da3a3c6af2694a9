/** The Contrato entity: an insurance contract issued for an approved
    proposal, with its status machine Ativo / Suspenso / Expirado / Cancelado. */
module ContratacaoContrato {
  import opened Base
  import opened ContratacaoPropostaId

  datatype StatusContrato = Ativo | Cancelado | Suspenso | Expirado

  /** The four transition methods of Contrato. */
  datatype Transicao = Cancelamento | Suspensao | Reativacao | Expiracao

  /** The status each transition moves to when its guard passes. */
  function Destino(t: Transicao): StatusContrato {
    match t
    case Cancelamento => Cancelado
    case Suspensao => Suspenso
    case Reativacao => Ativo
    case Expiracao => Expirado
  }

  /** The guard of each transition method: the new status, or the
      InvalidOperationException it throws. */
  function Aplicar(t: Transicao, s: StatusContrato): (r: Result<StatusContrato, Error>)
    ensures r.Success? ==> r.value == Destino(t)
    ensures r.Failure? ==> r.error.kind == InvalidOperation
  {
    match t
    case Cancelamento =>
      if s == Cancelado then Failure(Error(InvalidOperation, Text("Contrato já está cancelado")))
      else Success(Cancelado)
    case Suspensao =>
      if s != Ativo then Failure(Error(InvalidOperation, Text("Apenas contratos ativos podem ser suspensos")))
      else Success(Suspenso)
    case Reativacao =>
      if s != Suspenso then Failure(Error(InvalidOperation, Text("Apenas contratos suspensos podem ser reativados")))
      else Success(Ativo)
    case Expiracao =>
      if s == Cancelado then Failure(Error(InvalidOperation, Text("Contrato cancelado não pode expirar")))
      else Success(Expirado)
  }

  /** The transitions the status machine admits, listed one by one. */
  const Permitidas: set<(Transicao, StatusContrato)> := {
    (Cancelamento, Ativo), (Cancelamento, Suspenso), (Cancelamento, Expirado),
    (Suspensao, Ativo),
    (Reativacao, Suspenso),
    (Expiracao, Ativo), (Expiracao, Suspenso), (Expiracao, Expirado)
  }

  /** The guards admit exactly the listed transitions. */
  lemma AplicarSoPermitidas(t: Transicao, s: StatusContrato)
    ensures Aplicar(t, s).Success? <==> (t, s) in Permitidas
  {
    match t
    case Cancelamento =>
    case Suspensao =>
    case Reativacao =>
    case Expiracao =>
  }

  /** Cancelado is terminal: every transition method throws from it. */
  lemma CanceladoTerminal(t: Transicao)
    ensures Aplicar(t, Cancelado).Failure?
  {
  }

  /** Applies a series of transition calls, a failing call leaving the status
      as it was (the caller catches the exception and carries on). */
  function Executar(ts: seq<Transicao>, s: StatusContrato): StatusContrato
    decreases |ts|
  {
    if ts == [] then s
    else
      var s' := match Aplicar(ts[0], s) case Success(n) => n case Failure(_) => s;
      Executar(ts[1..], s')
  }

  /** No series of calls takes a cancelled contract out of Cancelado. */
  lemma {:induction false} CanceladoPermanece(ts: seq<Transicao>)
    ensures Executar(ts, Cancelado) == Cancelado
  {
    if ts != [] {
      CanceladoTerminal(ts[0]);
      CanceladoPermanece(ts[1..]);
    }
  }

  /** A contract returns to Ativo only through Reativar: every other call
      either fails or leaves Ativo for good, so a series of calls without
      Reativacao that ends in Ativo started there and made no call at all. */
  lemma {:induction false} AtivoSoPorReativacao(ts: seq<Transicao>, s: StatusContrato)
    requires Reativacao !in ts
    requires Executar(ts, s) == Ativo
    ensures s == Ativo && ts == []
  {
    if ts != [] {
      var s' := match Aplicar(ts[0], s) case Success(n) => n case Failure(_) => s;
      assert ts[0] in ts;
      assert Reativacao !in ts[1..] by {
        forall i | 0 <= i < |ts[1..]| ensures ts[1..][i] != Reativacao {
          assert ts[1..][i] == ts[i + 1];
        }
      }
      AtivoSoPorReativacao(ts[1..], s');
      assert false;
    }
  }

  /** The persisted form of a contract: one row of the Contratos table. */
  datatype ContratoRow = ContratoRow(
    id: Guid,
    propostaId: PropostaId,
    dataContratacao: Instant,
    status: StatusContrato,
    dataCriacao: Instant,
    dataAtualizacao: Option<Instant>)

  /** The row after a transition call at instant agora, or the exception. */
  function Transitar(row: ContratoRow, t: Transicao, agora: Instant): (r: Result<ContratoRow, Error>)
    ensures r.Success? ==> r.value == row.(status := Destino(t), dataAtualizacao := Some(agora))
    ensures r.Failure? <==> Aplicar(t, row.status).Failure?
  {
    match Aplicar(t, row.status)
    case Success(s) => Success(row.(status := s, dataAtualizacao := Some(agora)))
    case Failure(e) => Failure(e)
  }

  class Contrato {
    const id: Guid
    const propostaId: PropostaId
    const dataContratacao: Instant
    const dataCriacao: Instant
    var status: StatusContrato
    var dataAtualizacao: Option<Instant>

    /** new Contrato(propostaId) with a non-null argument; the generated Id
        and the clock reading are passed in. */
    constructor (propostaId: PropostaId, id: Guid, agora: Instant)
      ensures this.id == id && this.propostaId == propostaId
      ensures dataContratacao == agora && dataCriacao == agora
      ensures status == Ativo && dataAtualizacao == None
    {
      this.id := id;
      this.propostaId := propostaId;
      this.dataContratacao := agora;
      this.status := Ativo;
      this.dataCriacao := agora;
      this.dataAtualizacao := None;
    }

    /** Materialisation of a stored row (the private constructor used by the
        persistence layer). */
    constructor Materializar(row: ContratoRow)
      ensures Row() == row
    {
      id := row.id;
      propostaId := row.propostaId;
      dataContratacao := row.dataContratacao;
      status := row.status;
      dataCriacao := row.dataCriacao;
      dataAtualizacao := row.dataAtualizacao;
    }

    /** The row this object is saved as. */
    function Row(): ContratoRow
      reads this
    {
      ContratoRow(id, propostaId, dataContratacao, status, dataCriacao, dataAtualizacao)
    }

    /** new Contrato(propostaId) where the argument may be null. */
    static method Novo(propostaId: Option<PropostaId>, id: Guid, agora: Instant) returns (r: Result<Contrato, Error>)
      ensures propostaId.None? ==> r == Failure(Error(ArgumentNull, Parametro("propostaId")))
      ensures propostaId.Some? ==>
        (r.Success? && fresh(r.value)
         && r.value.Row() == ContratoRow(id, propostaId.value, agora, Ativo, agora, None))
    {
      if propostaId.None? {
        return Failure(Error(ArgumentNull, Parametro("propostaId")));
      }
      var c := new Contrato(propostaId.value, id, agora);
      return Success(c);
    }

    /** The body shared by the four transition methods: guard, then write
        Status and DataAtualizacao. */
    method Executa(t: Transicao, agora: Instant) returns (r: Result<Unit, Error>)
      modifies this
      ensures r.Success? <==> Transitar(old(Row()), t, agora).Success?
      ensures r.Success? ==> Row() == Transitar(old(Row()), t, agora).value
      ensures r.Failure? ==> r.error == Transitar(old(Row()), t, agora).error && Row() == old(Row())
    {
      var s := Aplicar(t, status);
      if s.Failure? {
        return Failure(s.error);
      }
      status := s.value;
      dataAtualizacao := Some(agora);
      return Success(Unit);
    }

    method Cancelar(agora: Instant) returns (r: Result<Unit, Error>)
      modifies this
      ensures old(status) == Cancelado ==>
        r == Failure(Error(InvalidOperation, Text("Contrato já está cancelado"))) && Row() == old(Row())
      ensures old(status) != Cancelado ==>
        r.Success? && Row() == old(Row()).(status := Cancelado, dataAtualizacao := Some(agora))
    {
      r := Executa(Cancelamento, agora);
    }

    method Suspender(agora: Instant) returns (r: Result<Unit, Error>)
      modifies this
      ensures old(status) != Ativo ==>
        r == Failure(Error(InvalidOperation, Text("Apenas contratos ativos podem ser suspensos"))) && Row() == old(Row())
      ensures old(status) == Ativo ==>
        r.Success? && Row() == old(Row()).(status := Suspenso, dataAtualizacao := Some(agora))
    {
      r := Executa(Suspensao, agora);
    }

    method Reativar(agora: Instant) returns (r: Result<Unit, Error>)
      modifies this
      ensures old(status) != Suspenso ==>
        r == Failure(Error(InvalidOperation, Text("Apenas contratos suspensos podem ser reativados"))) && Row() == old(Row())
      ensures old(status) == Suspenso ==>
        r.Success? && Row() == old(Row()).(status := Ativo, dataAtualizacao := Some(agora))
    {
      r := Executa(Reativacao, agora);
    }

    method Expirar(agora: Instant) returns (r: Result<Unit, Error>)
      modifies this
      ensures old(status) == Cancelado ==>
        r == Failure(Error(InvalidOperation, Text("Contrato cancelado não pode expirar"))) && Row() == old(Row())
      ensures old(status) != Cancelado ==>
        r.Success? && Row() == old(Row()).(status := Expirado, dataAtualizacao := Some(agora))
    {
      r := Executa(Expiracao, agora);
    }
  }
}

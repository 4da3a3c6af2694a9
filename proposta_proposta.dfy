/** The Proposta aggregate: a customer, an insurance, the status machine
    EmAnalise -> Aprovada | Rejeitada, and the list of domain events it
    raises. */
module PropostaProposta {
  import opened Base
  import opened Text
  import PropostaCpf
  import D = PropostaDinheiro
  import T = PropostaTipoSeguro
  import opened PropostaCliente
  import opened PropostaSeguro

  datatype StatusProposta = EmAnalise | Aprovada | Rejeitada

  /** A status as a caller passes it: one of the declared members, or any
      other value the enum type can hold. */
  datatype StatusInformado = Declarado(status: StatusProposta) | NaoDeclarado(codigo: int)

  /** PropostaCriadaEvent, PropostaAprovadaEvent and PropostaRejeitadaEvent,
      with the arguments they are built from. */
  datatype Evento =
    | PropostaCriada(propostaId: Guid, nomeCliente: string, cpf: string)
    | PropostaAprovada(propostaId: Guid, nomeCliente: string)
    | PropostaRejeitada(propostaId: Guid, nomeCliente: string)

  /** The guard of Aprovar: the new status, or the exception. */
  function AprovarStatus(s: StatusProposta): (r: Result<StatusProposta, Error>)
    ensures r.Success? <==> s == EmAnalise
    ensures r.Success? ==> r.value == Aprovada
    ensures s == Aprovada ==> r == Failure(Error(PropostaInvalida, Text("Proposta já foi aprovada")))
    ensures s == Rejeitada ==> r == Failure(Error(PropostaInvalida, Text("Proposta rejeitada não pode ser aprovada")))
  {
    match s
    case Aprovada => Failure(Error(PropostaInvalida, Text("Proposta já foi aprovada")))
    case Rejeitada => Failure(Error(PropostaInvalida, Text("Proposta rejeitada não pode ser aprovada")))
    case EmAnalise => Success(Aprovada)
  }

  /** The guard of Rejeitar. */
  function RejeitarStatus(s: StatusProposta): (r: Result<StatusProposta, Error>)
    ensures r.Success? <==> s == EmAnalise
    ensures r.Success? ==> r.value == Rejeitada
    ensures s == Rejeitada ==> r == Failure(Error(PropostaInvalida, Text("Proposta já foi rejeitada")))
    ensures s == Aprovada ==> r == Failure(Error(PropostaInvalida, Text("Proposta aprovada não pode ser rejeitada")))
  {
    match s
    case Rejeitada => Failure(Error(PropostaInvalida, Text("Proposta já foi rejeitada")))
    case Aprovada => Failure(Error(PropostaInvalida, Text("Proposta aprovada não pode ser rejeitada")))
    case EmAnalise => Success(Rejeitada)
  }

  /** AlterarStatus on the status alone: the same status is a no-op, Aprovada
      and Rejeitada delegate to Aprovar and Rejeitar, EmAnalise is refused
      from any other status, and a value outside the enum matches no case. */
  function ProximoStatus(s: StatusProposta, novo: StatusInformado): (r: Result<StatusProposta, Error>)
    ensures r.Success? <==> novo.NaoDeclarado? || novo == Declarado(s) || s == EmAnalise
    ensures r.Success? && r.value != s ==> s == EmAnalise && novo == Declarado(r.value)
    ensures r.Success? && r.value == EmAnalise ==> s == EmAnalise
  {
    if novo == Declarado(s) then Success(s)
    else
      match novo
      case Declarado(Aprovada) => AprovarStatus(s)
      case Declarado(Rejeitada) => RejeitarStatus(s)
      case Declarado(EmAnalise) =>
        Failure(Error(PropostaInvalida, Text("Não é possível retornar proposta para análise")))
      case NaoDeclarado(_) => Success(s)
  }

  /** A series of AlterarStatus calls, a failing call leaving the status as
      it was. */
  function ExecutarStatus(ns: seq<StatusInformado>, s: StatusProposta): StatusProposta
    decreases |ns|
  {
    if ns == [] then s
    else
      var s' := match ProximoStatus(s, ns[0]) case Success(n) => n case Failure(_) => s;
      ExecutarStatus(ns[1..], s')
  }

  /** Aprovada and Rejeitada are terminal: no series of calls leaves them. */
  lemma {:induction false} DecididaPermanece(ns: seq<StatusInformado>, s: StatusProposta)
    requires s != EmAnalise
    ensures ExecutarStatus(ns, s) == s
  {
    if ns != [] {
      DecididaPermanece(ns[1..], s);
    }
  }

  /** A series of calls ends in EmAnalise only if it started there. */
  lemma {:induction false} EmAnaliseSoNoInicio(ns: seq<StatusInformado>, s: StatusProposta)
    requires ExecutarStatus(ns, s) == EmAnalise
    ensures s == EmAnalise
  {
    if ns != [] && s != EmAnalise {
      DecididaPermanece(ns, s);
    }
  }

  /** The event a successful move out of EmAnalise raises. */
  function EventoDaDecisao(id: Guid, nome: string, s: StatusProposta): Evento {
    if s == Aprovada then PropostaAprovada(id, nome) else PropostaRejeitada(id, nome)
  }

  /** The guard of AtualizarCliente and AtualizarSeguro. */
  function GuardaAtualizacao(s: StatusProposta): (r: Option<Error>)
    ensures r.None? <==> s == EmAnalise
    ensures s == Aprovada ==> r == Some(Error(PropostaInvalida, Text("Não é possível atualizar proposta aprovada")))
    ensures s == Rejeitada ==> r == Some(Error(PropostaInvalida, Text("Não é possível atualizar proposta rejeitada")))
  {
    match s
    case Aprovada => Some(Error(PropostaInvalida, Text("Não é possível atualizar proposta aprovada")))
    case Rejeitada => Some(Error(PropostaInvalida, Text("Não é possível atualizar proposta rejeitada")))
    case EmAnalise => None
  }

  /** The first check Proposta.Criar fails, in the order Cliente.Criar (name,
      then Cpf) and Seguro.Criar (kind, then amounts) make them. */
  function ErroDeCriacao(nomeCliente: string, cpf: string, tipoSeguro: string, valorCobertura: real, valorPremio: real)
    : (r: Option<Error>)
    ensures r.None? <==>
      && ValidarNome(nomeCliente).None? && PropostaCpf.Criar(cpf).Success?
      && T.Criar(tipoSeguro).Success? && 0.0 < valorPremio < valorCobertura
  {
    if ValidarNome(nomeCliente).Some? then ValidarNome(nomeCliente)
    else if PropostaCpf.Criar(cpf).Failure? then Some(PropostaCpf.Criar(cpf).error)
    else if T.Criar(tipoSeguro).Failure? then Some(T.Criar(tipoSeguro).error)
    else if ValidarValores(valorCobertura, valorPremio).Failure? then Some(ValidarValores(valorCobertura, valorPremio).error)
    else None
  }

  /** The persisted form of a proposal: one row of the Propostas table, with
      the owned Cliente and Seguro flattened into it. Domain events are not
      persisted. */
  datatype PropostaRow = PropostaRow(
    id: Guid,
    nomeCliente: string,
    cpf: PropostaCpf.Cpf,
    seguroId: Guid,
    tipoSeguro: T.TipoSeguro,
    valorCobertura: D.Dinheiro,
    valorPremio: D.Dinheiro,
    dataCriacao: Instant,
    status: StatusProposta)

  /** The row Proposta.Criar builds when every check passes. */
  function LinhaCriada(nomeCliente: string, cpf: string, tipoSeguro: string, valorCobertura: real, valorPremio: real,
                       id: Guid, seguroId: Guid, agora: Instant): (row: PropostaRow)
    requires ErroDeCriacao(nomeCliente, cpf, tipoSeguro, valorCobertura, valorPremio).None?
    ensures row.status == EmAnalise && row.dataCriacao == agora && row.id == id
    ensures NomeArmazenavel(row.nomeCliente) && PropostaCpf.CpfValido(row.cpf.valor)
    ensures 0.0 < row.valorPremio.valor < row.valorCobertura.valor
  {
    NomeAceitoArmazenavel(nomeCliente);
    PropostaRow(id, Trim(nomeCliente), PropostaCpf.Criar(cpf).value, seguroId, T.Criar(tipoSeguro).value,
                D.Dinheiro(valorCobertura), D.Dinheiro(valorPremio), agora, EmAnalise)
  }

  class Proposta {
    const id: Guid
    const cliente: Cliente?
    const seguro: Seguro?
    const dataCriacao: Instant
    var status: StatusProposta
    var eventos: seq<Evento>

    /** The aggregate invariant: both parts present and valid. Only an
        object materialised without its owned parts breaks it. */
    ghost predicate Valid()
      reads this, cliente, seguro
    {
      cliente != null && seguro != null && cliente.Valid() && seguro.Valid()
    }

    /** The private constructor followed by the AddDomainEvent call Criar
        makes right after it: status EmAnalise and one PropostaCriadaEvent.
        The new Id and the clock reading are passed in. */
    constructor Nova(id: Guid, cliente: Cliente, seguro: Seguro, agora: Instant)
      ensures this.id == id && this.cliente == cliente && this.seguro == seguro
      ensures dataCriacao == agora && status == EmAnalise && eventos == [PropostaCriada(id, cliente.nome, cliente.cpf.valor)]
    {
      this.id := id;
      this.cliente := cliente;
      this.seguro := seguro;
      this.dataCriacao := agora;
      this.status := EmAnalise;
      this.eventos := [PropostaCriada(id, cliente.nome, cliente.cpf.valor)];
    }

    /** Materialisation of a stored row, with fresh owned parts and an empty
        event list. */
    constructor Materializar(row: PropostaRow)
      ensures cliente != null && seguro != null && fresh(cliente) && fresh(seguro)
      ensures Row() == row && eventos == []
    {
      id := row.id;
      cliente := new Cliente.Materializar(row.nomeCliente, row.cpf);
      seguro := new Seguro.Materializar(row.seguroId, row.tipoSeguro, row.valorCobertura, row.valorPremio);
      dataCriacao := row.dataCriacao;
      status := row.status;
      eventos := [];
    }

    /** The row this object is saved as. */
    function Row(): PropostaRow
      reads this, cliente, seguro
      requires cliente != null && seguro != null
    {
      PropostaRow(id, cliente.nome, cliente.cpf, seguro.id, seguro.tipo, seguro.valorCobertura, seguro.valorPremio,
                  dataCriacao, status)
    }

    /** Proposta.Criar: Cliente.Criar, then Seguro.Criar (their errors
        propagate), then a proposal in EmAnalise whose only event is
        PropostaCriadaEvent(Id, Cliente.Nome, Cpf.Valor). */
    static method Criar(nomeCliente: string, cpf: string, tipoSeguro: string, valorCobertura: real, valorPremio: real,
                        id: Guid, seguroId: Guid, agora: Instant)
      returns (r: Result<Proposta, Error>)
      ensures ErroDeCriacao(nomeCliente, cpf, tipoSeguro, valorCobertura, valorPremio).Some? ==>
        r == Failure(ErroDeCriacao(nomeCliente, cpf, tipoSeguro, valorCobertura, valorPremio).value)
      ensures ErroDeCriacao(nomeCliente, cpf, tipoSeguro, valorCobertura, valorPremio).None? ==>
        && r.Success? && fresh(r.value) && fresh(r.value.cliente) && fresh(r.value.seguro) && r.value.Valid()
        && r.value.Row() == LinhaCriada(nomeCliente, cpf, tipoSeguro, valorCobertura, valorPremio, id, seguroId, agora)
        && r.value.eventos == [PropostaCriada(id, r.value.cliente.nome, r.value.cliente.cpf.valor)]
    {
      var cliente := Cliente.Criar(nomeCliente, cpf);
      if cliente.Failure? {
        return Failure(cliente.error);
      }
      assert ValidarNome(nomeCliente).None? && PropostaCpf.Criar(cpf).Success?;
      var seguro := Seguro.Criar(tipoSeguro, valorCobertura, valorPremio, seguroId);
      if seguro.Failure? {
        return Failure(seguro.error);
      }
      var p := new Proposta.Nova(id, cliente.value, seguro.value, agora);
      return Success(p);
    }

    /** Aprovar: only from EmAnalise; appends PropostaAprovadaEvent. A
        failing call changes nothing. */
    method Aprovar() returns (r: Result<Unit, Error>)
      requires cliente != null
      modifies this
      ensures AprovarStatus(old(status)).Failure? ==>
        r == Failure(AprovarStatus(old(status)).error) && status == old(status) && eventos == old(eventos)
      ensures AprovarStatus(old(status)).Success? ==>
        r == Success(Unit) && status == Aprovada && eventos == old(eventos) + [PropostaAprovada(id, cliente.nome)]
    {
      var s := AprovarStatus(status);
      if s.Failure? {
        return Failure(s.error);
      }
      status := s.value;
      eventos := eventos + [PropostaAprovada(id, cliente.nome)];
      return Success(Unit);
    }

    /** Rejeitar: only from EmAnalise; appends PropostaRejeitadaEvent. */
    method Rejeitar() returns (r: Result<Unit, Error>)
      requires cliente != null
      modifies this
      ensures RejeitarStatus(old(status)).Failure? ==>
        r == Failure(RejeitarStatus(old(status)).error) && status == old(status) && eventos == old(eventos)
      ensures RejeitarStatus(old(status)).Success? ==>
        r == Success(Unit) && status == Rejeitada && eventos == old(eventos) + [PropostaRejeitada(id, cliente.nome)]
    {
      var s := RejeitarStatus(status);
      if s.Failure? {
        return Failure(s.error);
      }
      status := s.value;
      eventos := eventos + [PropostaRejeitada(id, cliente.nome)];
      return Success(Unit);
    }

    /** AlterarStatus: the status moves as ProximoStatus says, and exactly one
        event is appended when it changes; a no-op or a failure appends
        nothing. */
    method AlterarStatus(novo: StatusInformado) returns (r: Result<Unit, Error>)
      requires cliente != null
      modifies this
      ensures ProximoStatus(old(status), novo).Failure? ==>
        r == Failure(ProximoStatus(old(status), novo).error) && status == old(status) && eventos == old(eventos)
      ensures ProximoStatus(old(status), novo).Success? ==>
        && r == Success(Unit) && status == ProximoStatus(old(status), novo).value
        && eventos == old(eventos) + (if status == old(status) then [] else [EventoDaDecisao(id, cliente.nome, status)])
    {
      if novo == Declarado(status) {
        return Success(Unit);
      }
      match novo {
        case Declarado(Aprovada) =>
          r := Aprovar();
        case Declarado(Rejeitada) =>
          r := Rejeitar();
        case Declarado(EmAnalise) =>
          if status != EmAnalise {
            return Failure(Error(PropostaInvalida, Text("Não é possível retornar proposta para análise")));
          }
          r := Success(Unit);
        case NaoDeclarado(_) =>
          r := Success(Unit);
      }
    }

    /** AtualizarCliente: refused once the proposal is decided; otherwise
        Cliente.AtualizarNome. Status and events never change. */
    method AtualizarCliente(nomeCliente: string) returns (r: Result<Unit, Error>)
      requires cliente != null
      modifies cliente
      ensures GuardaAtualizacao(status).Some? ==>
        r == Failure(GuardaAtualizacao(status).value) && cliente.nome == old(cliente.nome)
      ensures GuardaAtualizacao(status).None? && ValidarNome(nomeCliente).Some? ==>
        r == Failure(ValidarNome(nomeCliente).value) && cliente.nome == old(cliente.nome)
      ensures GuardaAtualizacao(status).None? && ValidarNome(nomeCliente).None? ==>
        r == Success(Unit) && cliente.nome == Trim(nomeCliente)
      ensures old(cliente.Valid()) ==> cliente.Valid()
    {
      var guarda := GuardaAtualizacao(status);
      if guarda.Some? {
        return Failure(guarda.value);
      }
      r := cliente.AtualizarNome(nomeCliente);
    }

    /** AtualizarSeguro: refused once the proposal is decided; otherwise
        Seguro.AtualizarValores. */
    method AtualizarSeguro(valorCobertura: real, valorPremio: real) returns (r: Result<Unit, Error>)
      requires seguro != null
      modifies seguro
      ensures GuardaAtualizacao(status).Some? ==>
        && r == Failure(GuardaAtualizacao(status).value)
        && seguro.valorCobertura == old(seguro.valorCobertura) && seguro.valorPremio == old(seguro.valorPremio)
      ensures GuardaAtualizacao(status).None? && ValidarValores(valorCobertura, valorPremio).Failure? ==>
        && r == Failure(ValidarValores(valorCobertura, valorPremio).error)
        && seguro.valorCobertura == old(seguro.valorCobertura) && seguro.valorPremio == old(seguro.valorPremio)
      ensures GuardaAtualizacao(status).None? && ValidarValores(valorCobertura, valorPremio).Success? ==>
        && r == Success(Unit)
        && seguro.valorCobertura.valor == valorCobertura && seguro.valorPremio.valor == valorPremio
      ensures old(seguro.Valid()) ==> seguro.Valid()
    {
      var guarda := GuardaAtualizacao(status);
      if guarda.Some? {
        return Failure(guarda.value);
      }
      r := seguro.AtualizarValores(valorCobertura, valorPremio);
    }

    /** LimparEventos: the list is emptied; nothing else changes. */
    method LimparEventos()
      modifies this
      ensures eventos == [] && status == old(status)
    {
      eventos := [];
    }
  }
}

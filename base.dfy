/** Shared vocabulary of both services: identifiers, instants, results and errors. */
module Base {

  /** A GUID; the value 0 stands for Guid.Empty. */
  type Guid = nat

  const GuidEmpty: Guid := 0

  /** A GUID other than Guid.Empty. */
  type GuidNaoVazio = g: Guid | g != GuidEmpty witness 1

  /** A point in time (DateTime). The clock is never read: callers pass "now" in. */
  type Instant = int

  datatype Unit = Unit

  datatype Option<+T> = None | Some(value: T)

  /** The outcome of an operation that may throw: Failure carries the exception. */
  datatype Result<+T, +E> = Success(value: T) | Failure(error: E)

  /** Exception classes raised by the modelled code. */
  datatype Kind =
    | ArgumentNull           // ArgumentNullException
    | Argument               // ArgumentException
    | InvalidOperation       // InvalidOperationException
    | Domain                 // DomainException
    | PropostaInvalida       // PropostaInvalidaException
    | ContratoInvalido       // ContratoInvalidoException
    | PropostaNaoAprovada    // PropostaNaoAprovadaException
    | UniqueViolation        // DbUpdateException raised by a unique index or primary key
    | Concurrency            // DbUpdateConcurrencyException: the row to update does not exist
    | External               // a failure of the remote client or of the message broker

  /** An exception message: a literal text, an interpolated "prefix{id}suffix",
      the name of the offending parameter (ArgumentNullException), a text
      with the parameter it concerns (ArgumentException(message, paramName)),
      or a message
      produced by a component outside the model (database, broker, HTTP client). */
  datatype Message =
    | Text(text: string)
    | ComId(prefix: string, id: Guid, suffix: string)
    | Parametro(nome: string)
    | TextoDoParametro(texto: string, parametro: string)
    | Unspecified

  datatype Error = Error(kind: Kind, message: Message)

  /** One FluentValidation failure: the property it is reported on and its message. */
  datatype Falha = Falha(propriedade: string, mensagem: string)

  /** The calls a handler makes on a repository and its unit of work, in
      order: AdicionarAsync, AtualizarAsync, CommitAsync, RollbackAsync. */
  datatype Chamada = Adicionado(id: Guid) | Atualizado(id: Guid) | Confirmado | Desfeito
}

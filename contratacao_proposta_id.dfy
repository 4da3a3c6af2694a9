/** The PropostaId value object of the contract service: an immutable,
    non-empty GUID naming the proposal a contract was issued for. */
module ContratacaoPropostaId {
  import opened Base

  /** The field's type makes Guid.Empty unrepresentable, as the constructor
      guard does for every PropostaId that exists. */
  datatype PropostaId = PropostaId(value: GuidNaoVazio)

  /** new PropostaId(value), and the implicit conversion Guid -> PropostaId,
      which calls it. */
  function Criar(value: Guid): (r: Result<PropostaId, Error>)
    ensures r.Success? <==> value != GuidEmpty
    ensures r.Failure? ==> r.error == Error(Argument, TextoDoParametro("PropostaId não pode ser vazio", "value"))
  {
    if value == GuidEmpty then Failure(Error(Argument, TextoDoParametro("PropostaId não pode ser vazio", "value")))
    else Success(PropostaId(value))
  }

  /** The implicit conversion PropostaId -> Guid. */
  function ParaGuid(p: PropostaId): (g: Guid)
    ensures g != GuidEmpty
  {
    p.value
  }

  /** Guid -> PropostaId -> Guid gives back the GUID, and PropostaId -> Guid
      -> PropostaId gives back an equal value. */
  lemma ConversoesIdaEVolta(g: Guid, p: PropostaId)
    requires g != GuidEmpty
    ensures Criar(g).Success? && ParaGuid(Criar(g).value) == g
    ensures Criar(ParaGuid(p)) == Success(p)
  {
  }

  /** Equals(PropostaId? other): false for null, otherwise compares Value. */
  function Igual(p: PropostaId, other: Option<PropostaId>): (r: bool)
    ensures r <==> other == Some(p)
  {
    if other.None? then false else p.value == other.value.value
  }

  /** operator ==: null-safe; two nulls are equal. */
  function OpIgual(left: Option<PropostaId>, right: Option<PropostaId>): (r: bool)
    ensures r <==> left == right
  {
    if left.None? && right.None? then true
    else if left.None? || right.None? then false
    else Igual(left.value, right)
  }

  /** operator !=: the negation of ==. */
  function OpDiferente(left: Option<PropostaId>, right: Option<PropostaId>): (r: bool)
    ensures r <==> left != right
  {
    !OpIgual(left, right)
  }

  /** GetHashCode() and ToString() delegate to the Guid; the Guid's own hash
      and text are supplied by the caller. */
  function HashCode(p: PropostaId, guidHash: Guid -> int): int {
    guidHash(p.value)
  }

  function ToString(p: PropostaId, guidTexto: Guid -> string): string {
    guidTexto(p.value)
  }

  /** Equal values have equal hash codes and equal text, whatever the Guid's
      own hash and text functions are. */
  lemma IguaisTemMesmoHash(a: PropostaId, b: PropostaId, guidHash: Guid -> int, guidTexto: Guid -> string)
    requires Igual(a, Some(b))
    ensures HashCode(a, guidHash) == HashCode(b, guidHash)
    ensures ToString(a, guidTexto) == ToString(b, guidTexto)
  {
  }

  /** == is an equivalence on PropostaId? and agrees with Equals. */
  lemma OpIgualEquivalencia(a: Option<PropostaId>, b: Option<PropostaId>, c: Option<PropostaId>)
    ensures OpIgual(a, a)
    ensures OpIgual(a, b) == OpIgual(b, a)
    ensures OpIgual(a, b) && OpIgual(b, c) ==> OpIgual(a, c)
    ensures a.Some? ==> OpIgual(a, b) == Igual(a.value, b)
    ensures OpDiferente(a, b) == !OpIgual(a, b)
  {
  }
}

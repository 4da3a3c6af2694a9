/** ContratoRepository together with the unit of work that shares its
    DbContext: committed rows of the Contratos table, the changes staged by
    AdicionarAsync / AtualizarAsync, and SaveChanges as an all-or-nothing
    commit under the table's keys. */
module ContratacaoRepositorio {
  import opened Base
  import opened Sequences
  import opened ContratacaoPropostaId
  import opened ContratacaoContrato

  /** A change staged in the change tracker. */
  datatype Pendente = Inserir(row: ContratoRow) | Alterar(row: ContratoRow)

  /** The keys of the Contratos table: Id is the primary key and PropostaId
      carries a unique index, so there is at most one contract per proposal. */
  predicate Unicos(rows: seq<ContratoRow>) {
    forall i, j :: 0 <= i < j < |rows| ==>
      rows[i].id != rows[j].id && rows[i].propostaId != rows[j].propostaId
  }

  predicate TemId(rows: seq<ContratoRow>, id: Guid) {
    exists i :: 0 <= i < |rows| && rows[i].id == id
  }

  predicate TemProposta(rows: seq<ContratoRow>, propostaId: PropostaId) {
    exists i :: 0 <= i < |rows| && rows[i].propostaId == propostaId
  }

  /** The row with the same Id replaced by row. */
  function Substituir(rows: seq<ContratoRow>, row: ContratoRow): (r: seq<ContratoRow>)
    ensures |r| == |rows|
    ensures forall i :: 0 <= i < |rows| ==> r[i] == if rows[i].id == row.id then row else rows[i]
  {
    seq(|rows|, i requires 0 <= i < |rows| => if rows[i].id == row.id then row else rows[i])
  }

  /** One staged change written to the table: an INSERT fails on a duplicate
      Id or PropostaId, an UPDATE fails when no row has the Id (no row
      affected) or when it would duplicate a PropostaId. */
  function Gravar(rows: seq<ContratoRow>, p: Pendente): (r: Result<seq<ContratoRow>, Error>)
    requires Unicos(rows)
    ensures r.Success? ==> Unicos(r.value) && |r.value| >= |rows|
    ensures p.Inserir? ==> (r.Failure? <==> TemId(rows, p.row.id) || TemProposta(rows, p.row.propostaId))
    ensures p.Alterar? ==> (r.Failure? <==>
      !TemId(rows, p.row.id) || exists i :: 0 <= i < |rows| && rows[i].id != p.row.id && rows[i].propostaId == p.row.propostaId)
  {
    match p
    case Inserir(row) =>
      if TemId(rows, row.id) || TemProposta(rows, row.propostaId) then Failure(Error(UniqueViolation, Unspecified))
      else Success(rows + [row])
    case Alterar(row) =>
      if !TemId(rows, row.id) then Failure(Error(Concurrency, Unspecified))
      else if exists i :: 0 <= i < |rows| && rows[i].id != row.id && rows[i].propostaId == row.propostaId then
        Failure(Error(UniqueViolation, Unspecified))
      else Success(Substituir(rows, row))
  }

  /** SaveChanges: every staged change in order, inside one transaction. The
      first failing change aborts the whole batch. */
  function GravarTodos(rows: seq<ContratoRow>, pend: seq<Pendente>): (r: Result<seq<ContratoRow>, Error>)
    requires Unicos(rows)
    ensures r.Success? ==> Unicos(r.value)
    decreases |pend|
  {
    if pend == [] then Success(rows)
    else
      match Gravar(rows, pend[0])
      case Failure(e) => Failure(e)
      case Success(rows') => GravarTodos(rows', pend[1..])
  }

  /** CommitAsync: a failure of the database itself (falha) aborts before any
      change is written. */
  function Confirmar(rows: seq<ContratoRow>, pend: seq<Pendente>, falha: Option<Error>): (r: Result<seq<ContratoRow>, Error>)
    requires Unicos(rows)
    ensures r.Success? ==> Unicos(r.value)
    ensures falha.Some? ==> r == Failure(falha.value)
    ensures falha.None? ==> r == GravarTodos(rows, pend)
  {
    if falha.Some? then Failure(falha.value) else GravarTodos(rows, pend)
  }

  function ChaveCriacao(row: ContratoRow): int {
    row.dataCriacao
  }

  /** A second contract for the same proposal is refused by the commit, and
      the table keeps a single contract for it. */
  lemma SegundoContratoRecusado(rows: seq<ContratoRow>, row: ContratoRow)
    requires Unicos(rows) && TemProposta(rows, row.propostaId)
    ensures GravarTodos(rows, [Inserir(row)]) == Failure(Error(UniqueViolation, Unspecified))
  {
  }

  /** An added contract whose Id and PropostaId are new is committed, and then
      found by Id and by PropostaId. */
  lemma InsercaoVisivel(rows: seq<ContratoRow>, row: ContratoRow)
    requires Unicos(rows) && !TemId(rows, row.id) && !TemProposta(rows, row.propostaId)
    ensures GravarTodos(rows, [Inserir(row)]) == Success(rows + [row])
    ensures Find(rows + [row], (c: ContratoRow) => c.id == row.id) == Some(row)
    ensures Find(rows + [row], (c: ContratoRow) => c.propostaId == row.propostaId) == Some(row)
  {
    FindUnico(rows + [row], |rows|, (c: ContratoRow) => c.id == row.id);
    FindUnico(rows + [row], |rows|, (c: ContratoRow) => c.propostaId == row.propostaId);
  }

  /** An update of an existing contract that keeps its PropostaId is
      committed, and the stored row is the new one. */
  lemma AtualizacaoPersiste(rows: seq<ContratoRow>, row: ContratoRow)
    requires Unicos(rows)
    requires exists i :: 0 <= i < |rows| && rows[i].id == row.id && rows[i].propostaId == row.propostaId
    ensures GravarTodos(rows, [Alterar(row)]) == Success(Substituir(rows, row))
    ensures Find(Substituir(rows, row), (c: ContratoRow) => c.id == row.id) == Some(row)
  {
    var k :| 0 <= k < |rows| && rows[k].id == row.id && rows[k].propostaId == row.propostaId;
    assert TemId(rows, row.id);
    forall i | 0 <= i < |rows| && rows[i].id != row.id
      ensures rows[i].propostaId != row.propostaId
    {
      assert i != k;
    }
    var r := Substituir(rows, row);
    assert Gravar(rows, Alterar(row)) == Success(r);
    FindUnico(r, k, (c: ContratoRow) => c.id == row.id);
  }

  class ContratoRepository {
    var confirmados: seq<ContratoRow>
    var pendentes: seq<Pendente>
    var chamadas: seq<Chamada>

    ghost predicate Valid()
      reads this
    {
      Unicos(confirmados)
    }

    /** A repository over an existing table, with nothing staged. */
    constructor (rows: seq<ContratoRow>)
      requires Unicos(rows)
      ensures Valid()
      ensures confirmados == rows && pendentes == [] && chamadas == []
    {
      confirmados := rows;
      pendentes := [];
      chamadas := [];
    }

    /** ObterPorIdAsync: the committed contract with that Id, or null. */
    function ObterPorId(id: Guid): (r: Option<ContratoRow>)
      reads this
      ensures r.Some? ==> r.value in confirmados && r.value.id == id
      ensures r.None? <==> !TemId(confirmados, id)
    {
      Find(confirmados, (c: ContratoRow) => c.id == id)
    }

    /** ObterPorPropostaIdAsync: a committed contract for that proposal, or
        null. */
    function ObterPorPropostaId(propostaId: Guid): (r: Option<ContratoRow>)
      reads this
      ensures r.Some? ==> r.value in confirmados && r.value.propostaId.value == propostaId
      ensures r.None? <==> forall i :: 0 <= i < |confirmados| ==> confirmados[i].propostaId.value != propostaId
    {
      Find(confirmados, (c: ContratoRow) => c.propostaId.value == propostaId)
    }

    /** ExisteContratoParaPropostaAsync: whether the SQL query returns a row. */
    function ExisteContratoParaProposta(propostaId: Guid): (r: bool)
      reads this
      ensures r <==> exists i :: 0 <= i < |confirmados| && confirmados[i].propostaId.value == propostaId
    {
      var p := (c: ContratoRow) => c.propostaId.value == propostaId;
      FilterMembers(confirmados, p);
      var f := Filter(confirmados, p);
      assert f != [] ==> f[0] in confirmados && p(f[0]);
      f != []
    }

    /** ListarTodosAsync: every committed contract, newest DataCriacao first. */
    function ListarTodos(): (r: seq<ContratoRow>)
      reads this
      ensures multiset(r) == multiset(confirmados)
      ensures Descending(r, ChaveCriacao)
    {
      SortDescSorted(confirmados, ChaveCriacao);
      SortDesc(confirmados, ChaveCriacao)
    }

    /** AdicionarAsync: stages an insert; nothing is visible before commit. */
    method Adicionar(c: Contrato)
      modifies this
      ensures pendentes == old(pendentes) + [Inserir(old(c.Row()))]
      ensures confirmados == old(confirmados)
      ensures chamadas == old(chamadas) + [Adicionado(c.id)]
    {
      pendentes := pendentes + [Inserir(c.Row())];
      chamadas := chamadas + [Adicionado(c.id)];
    }

    /** AtualizarAsync: stages an update of the contract's row. */
    method Atualizar(c: Contrato)
      modifies this
      ensures pendentes == old(pendentes) + [Alterar(old(c.Row()))]
      ensures confirmados == old(confirmados)
      ensures chamadas == old(chamadas) + [Atualizado(c.id)]
    {
      pendentes := pendentes + [Alterar(c.Row())];
      chamadas := chamadas + [Atualizado(c.id)];
    }

    /** CommitAsync: writes every staged change or none. On success the
        staged list is emptied and the number of written entries returned; on
        failure the table is unchanged and the changes stay staged. */
    method Commit(falha: Option<Error>) returns (r: Result<nat, Error>)
      requires Valid()
      modifies this
      ensures Valid()
      ensures chamadas == old(chamadas) + [Confirmado]
      ensures Confirmar(old(confirmados), old(pendentes), falha).Success? ==>
        r == Success(|old(pendentes)|) && pendentes == []
        && confirmados == Confirmar(old(confirmados), old(pendentes), falha).value
      ensures Confirmar(old(confirmados), old(pendentes), falha).Failure? ==>
        r == Failure(Confirmar(old(confirmados), old(pendentes), falha).error)
        && pendentes == old(pendentes) && confirmados == old(confirmados)
    {
      var g := Confirmar(confirmados, pendentes, falha);
      chamadas := chamadas + [Confirmado];
      if g.Failure? {
        return Failure(g.error);
      }
      r := Success(|pendentes|);
      confirmados := g.value;
      pendentes := [];
    }

    /** RollbackAsync: records the call and changes nothing else. */
    method Rollback()
      modifies this
      ensures confirmados == old(confirmados) && pendentes == old(pendentes)
      ensures chamadas == old(chamadas) + [Desfeito]
    {
      chamadas := chamadas + [Desfeito];
    }
  }
}

/** PropostaRepository together with the unit of work that shares its
    DbContext: committed rows of the Propostas table, the changes staged by
    AdicionarAsync / AtualizarAsync, and SaveChanges as an all-or-nothing
    commit under the table's primary key. */
module PropostaRepositorio {
  import opened Base
  import opened Sequences
  import opened PropostaProposta

  /** A change staged in the change tracker. */
  datatype Pendente = Inserir(row: PropostaRow) | Alterar(row: PropostaRow)

  /** The primary key of the Propostas table is Id. */
  predicate Unicos(rows: seq<PropostaRow>) {
    forall i, j :: 0 <= i < j < |rows| ==> rows[i].id != rows[j].id
  }

  predicate TemId(rows: seq<PropostaRow>, id: Guid) {
    exists i :: 0 <= i < |rows| && rows[i].id == id
  }

  /** The row with the same Id replaced by row. */
  function Substituir(rows: seq<PropostaRow>, row: PropostaRow): (r: seq<PropostaRow>)
    ensures |r| == |rows|
    ensures forall i :: 0 <= i < |rows| ==> r[i] == if rows[i].id == row.id then row else rows[i]
  {
    seq(|rows|, i requires 0 <= i < |rows| => if rows[i].id == row.id then row else rows[i])
  }

  /** One staged change written to the table: an INSERT fails on a duplicate
      Id, an UPDATE fails when no row has the Id (no row affected). */
  function Gravar(rows: seq<PropostaRow>, p: Pendente): (r: Result<seq<PropostaRow>, Error>)
    requires Unicos(rows)
    ensures r.Success? ==> Unicos(r.value) && |r.value| >= |rows|
    ensures r.Failure? <==> (if p.Inserir? then TemId(rows, p.row.id) else !TemId(rows, p.row.id))
  {
    match p
    case Inserir(row) =>
      if TemId(rows, row.id) then Failure(Error(UniqueViolation, Unspecified))
      else Success(rows + [row])
    case Alterar(row) =>
      if !TemId(rows, row.id) then Failure(Error(Concurrency, Unspecified))
      else Success(Substituir(rows, row))
  }

  /** SaveChanges: every staged change in order, inside one transaction. The
      first failing change aborts the whole batch. */
  function GravarTodos(rows: seq<PropostaRow>, pend: seq<Pendente>): (r: Result<seq<PropostaRow>, Error>)
    requires Unicos(rows)
    ensures r.Success? ==> Unicos(r.value)
    decreases |pend|
  {
    if pend == [] then Success(rows)
    else
      match Gravar(rows, pend[0])
      case Failure(e) => Failure(e)
      case Success(rows') => GravarTodos(rows', pend[1..])
  }

  /** CommitAsync: a failure of the database itself (falha) aborts before any
      change is written. */
  function Confirmar(rows: seq<PropostaRow>, pend: seq<Pendente>, falha: Option<Error>): (r: Result<seq<PropostaRow>, Error>)
    requires Unicos(rows)
    ensures r.Success? ==> Unicos(r.value)
    ensures falha.Some? ==> r == Failure(falha.value)
    ensures falha.None? ==> r == GravarTodos(rows, pend)
  {
    if falha.Some? then Failure(falha.value) else GravarTodos(rows, pend)
  }

  function ChaveCriacao(row: PropostaRow): int {
    row.dataCriacao
  }

  /** A staged batch never shrinks the table: committed proposals are never
      deleted. */
  lemma {:induction false} GravarTodosPreserva(rows: seq<PropostaRow>, pend: seq<Pendente>, id: Guid)
    requires Unicos(rows) && TemId(rows, id)
    requires GravarTodos(rows, pend).Success?
    ensures TemId(GravarTodos(rows, pend).value, id)
    decreases |pend|
  {
    if pend != [] {
      var k :| 0 <= k < |rows| && rows[k].id == id;
      var rows' := Gravar(rows, pend[0]).value;
      assert rows'[k].id == id by {
        if pend[0].Inserir? {
          assert rows' == rows + [pend[0].row];
        }
      }
      GravarTodosPreserva(rows', pend[1..], id);
    }
  }

  /** An added proposal with a new Id is committed, and then found by Id. */
  lemma InsercaoVisivel(rows: seq<PropostaRow>, row: PropostaRow)
    requires Unicos(rows) && !TemId(rows, row.id)
    ensures GravarTodos(rows, [Inserir(row)]) == Success(rows + [row])
    ensures Find(rows + [row], (p: PropostaRow) => p.id == row.id) == Some(row)
  {
    FindUnico(rows + [row], |rows|, (p: PropostaRow) => p.id == row.id);
  }

  /** An update of a stored proposal is committed, and the stored row is the
      new one: a new name or status persists. */
  lemma AtualizacaoPersiste(rows: seq<PropostaRow>, row: PropostaRow)
    requires Unicos(rows) && TemId(rows, row.id)
    ensures GravarTodos(rows, [Alterar(row)]) == Success(Substituir(rows, row))
    ensures Find(Substituir(rows, row), (p: PropostaRow) => p.id == row.id) == Some(row)
  {
    var k :| 0 <= k < |rows| && rows[k].id == row.id;
    var r := Substituir(rows, row);
    FindUnico(r, k, (p: PropostaRow) => p.id == row.id);
  }

  class PropostaRepository {
    var confirmados: seq<PropostaRow>
    var pendentes: seq<Pendente>
    var chamadas: seq<Chamada>

    ghost predicate Valid()
      reads this
    {
      Unicos(confirmados)
    }

    /** A repository over an existing table, with nothing staged. */
    constructor (rows: seq<PropostaRow>)
      requires Unicos(rows)
      ensures Valid()
      ensures confirmados == rows && pendentes == [] && chamadas == []
    {
      confirmados := rows;
      pendentes := [];
      chamadas := [];
    }

    /** ObterPorIdAsync: the committed proposal with that Id, or null. */
    function ObterPorId(id: Guid): (r: Option<PropostaRow>)
      reads this
      ensures r.Some? ==> r.value in confirmados && r.value.id == id
      ensures r.None? <==> !TemId(confirmados, id)
    {
      Find(confirmados, (p: PropostaRow) => p.id == id)
    }

    /** ObterTodasAsync: every committed proposal, newest DataCriacao first. */
    function ObterTodas(): (r: seq<PropostaRow>)
      reads this
      ensures multiset(r) == multiset(confirmados)
      ensures Descending(r, ChaveCriacao)
    {
      SortDescSorted(confirmados, ChaveCriacao);
      SortDesc(confirmados, ChaveCriacao)
    }

    /** ObterPorStatusAsync: exactly the committed proposals with that status,
        in the order ObterTodas lists them. */
    function ObterPorStatus(status: StatusProposta): (r: seq<PropostaRow>)
      reads this
      ensures r == Filter(ObterTodas(), (p: PropostaRow) => p.status == status)
      ensures forall i :: 0 <= i < |r| ==> r[i].status == status && r[i] in confirmados
      ensures forall i :: 0 <= i < |confirmados| && confirmados[i].status == status ==> confirmados[i] in r
      ensures Descending(r, ChaveCriacao)
    {
      var p := (p: PropostaRow) => p.status == status;
      FilterSortCommute(confirmados, ChaveCriacao, p);
      FilterMembers(ObterTodas(), p);
      FilterSorted(ObterTodas(), ChaveCriacao, p);
      forall i | 0 <= i < |confirmados| && p(confirmados[i])
        ensures confirmados[i] in ObterTodas()
      {
        assert confirmados[i] in multiset(confirmados);
      }
      forall x | x in ObterTodas()
        ensures x in confirmados
      {
        assert x in multiset(ObterTodas());
      }
      SortDesc(Filter(confirmados, p), ChaveCriacao)
    }

    /** AdicionarAsync: stages an insert; nothing is visible before commit. */
    method Adicionar(p: Proposta)
      requires p.cliente != null && p.seguro != null
      modifies this
      ensures pendentes == old(pendentes) + [Inserir(old(p.Row()))]
      ensures confirmados == old(confirmados)
      ensures chamadas == old(chamadas) + [Adicionado(p.id)]
    {
      pendentes := pendentes + [Inserir(p.Row())];
      chamadas := chamadas + [Adicionado(p.id)];
    }

    /** AtualizarAsync: stages an update of the proposal's row. */
    method Atualizar(p: Proposta)
      requires p.cliente != null && p.seguro != null
      modifies this
      ensures pendentes == old(pendentes) + [Alterar(old(p.Row()))]
      ensures confirmados == old(confirmados)
      ensures chamadas == old(chamadas) + [Atualizado(p.id)]
    {
      pendentes := pendentes + [Alterar(p.Row())];
      chamadas := chamadas + [Atualizado(p.id)];
    }

    /** CommitAsync: writes every staged change or none. On success the
        staged list is emptied; on failure the table is unchanged and the
        changes stay staged. The number of entries SaveChangesAsync reports
        also counts the owned Cliente, Cpf, Seguro, TipoSeguro and amount
        entries of each row, which the table of rows does not hold, so the
        model returns no count. */
    method Commit(falha: Option<Error>) returns (r: Result<(), Error>)
      requires Valid()
      modifies this
      ensures Valid()
      ensures chamadas == old(chamadas) + [Confirmado]
      ensures Confirmar(old(confirmados), old(pendentes), falha).Success? ==>
        r == Success(()) && pendentes == []
        && confirmados == Confirmar(old(confirmados), old(pendentes), falha).value
      ensures Confirmar(old(confirmados), old(pendentes), falha).Failure? ==>
        r == Failure(Confirmar(old(confirmados), old(pendentes), falha).error)
        && pendentes == old(pendentes) && confirmados == old(confirmados)
    {
      var g := Confirmar(confirmados, pendentes, falha);
      chamadas := chamadas + [Confirmado];
      if g.Failure? {
        return Failure(g.error);
      }
      r := Success(());
      confirmados := g.value;
      pendentes := [];
    }

    /** RollbackAsync: records the call and changes nothing else. */
    method Rollback()
      modifies this
      ensures confirmados == old(confirmados) && pendentes == old(pendentes)
      ensures chamadas == old(chamadas) + [Desfeito]
    {
      chamadas := chamadas + [Desfeito];
    }
  }
}

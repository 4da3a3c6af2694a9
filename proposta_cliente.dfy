/** The Cliente entity: the proposal's customer, a name kept trimmed and
    bounded, and a Cpf fixed at creation. */
module PropostaCliente {
  import opened Base
  import opened Text
  import PropostaCpf

  /** The name checks Criar and AtualizarNome both make, in their order; the
      length is string.Length, in UTF-16 code units. */
  function ValidarNome(nome: string): (r: Option<Error>)
    ensures r.None? <==> !IsNullOrWhiteSpace(nome) && 3 <= Utf16Length(nome) <= 200
    ensures IsNullOrWhiteSpace(nome) ==>
      r == Some(Error(Argument, TextoDoParametro("Nome do cliente não pode ser vazio", "nome")))
    ensures !IsNullOrWhiteSpace(nome) && (Utf16Length(nome) < 3 || Utf16Length(nome) > 200) ==>
      r == Some(Error(Argument, TextoDoParametro("Nome do cliente deve ter entre 3 e 200 caracteres", "nome")))
  {
    if IsNullOrWhiteSpace(nome) then
      Some(Error(Argument, TextoDoParametro("Nome do cliente não pode ser vazio", "nome")))
    else if Utf16Length(nome) < 3 || Utf16Length(nome) > 200 then
      Some(Error(Argument, TextoDoParametro("Nome do cliente deve ter entre 3 e 200 caracteres", "nome")))
    else None
  }

  /** What a stored name looks like: non-empty, at most 200 code units, no
      outer white space. */
  predicate NomeArmazenavel(nome: string) {
    nome != [] && Utf16Length(nome) <= 200 && !IsWhiteSpace(nome[0]) && !IsWhiteSpace(nome[|nome| - 1])
  }

  /** An accepted name, once trimmed, is storable (the raw length bound does
      not keep the stored name at 3 or more). */
  lemma NomeAceitoArmazenavel(nome: string)
    requires ValidarNome(nome).None?
    ensures NomeArmazenavel(Trim(nome))
  {
    TrimEmptyIff(nome);
    TrimIsSlice(nome);
    TrimUtf16Length(nome);
  }

  /** A name of two characters, one of them outside the Basic Multilingual
      Plane, is three code units long and so passes the length check. */
  lemma NomeForaDoBmp()
    ensures ValidarNome("\U{20BB7}\U{7530}") == None
  {
    var nome := "\U{20BB7}\U{7530}";
    assert nome[1..][1..] == [];
    assert Utf16Length(nome) == 3;
  }

  class Cliente {
    var nome: string
    const cpf: PropostaCpf.Cpf

    /** The customer invariant: a storable name and a valid CPF. */
    ghost predicate Valid()
      reads this
    {
      NomeArmazenavel(nome) && PropostaCpf.CpfValido(cpf.valor)
    }

    /** The private constructor (also used when a row is materialised). */
    constructor Materializar(nome: string, cpf: PropostaCpf.Cpf)
      ensures this.nome == nome && this.cpf == cpf
    {
      this.nome := nome;
      this.cpf := cpf;
    }

    /** Cliente.Criar: the name checks come first, then Cpf.Criar, whose
        error propagates unchanged; the stored name is trimmed. */
    static method Criar(nome: string, cpf: string) returns (r: Result<Cliente, Error>)
      ensures ValidarNome(nome).Some? ==> r == Failure(ValidarNome(nome).value)
      ensures ValidarNome(nome).None? && PropostaCpf.Criar(cpf).Failure? ==>
        r == Failure(PropostaCpf.Criar(cpf).error)
      ensures ValidarNome(nome).None? && PropostaCpf.Criar(cpf).Success? ==>
        && r.Success? && fresh(r.value) && r.value.Valid()
        && r.value.nome == Trim(nome) && r.value.cpf == PropostaCpf.Criar(cpf).value
    {
      var erro := ValidarNome(nome);
      if erro.Some? {
        return Failure(erro.value);
      }
      var cpfObj := PropostaCpf.Criar(cpf);
      if cpfObj.Failure? {
        return Failure(cpfObj.error);
      }
      NomeAceitoArmazenavel(nome);
      var c := new Cliente.Materializar(Trim(nome), cpfObj.value);
      return Success(c);
    }

    /** AtualizarNome: the same checks; on success the trimmed name replaces
        the old one, on failure nothing changes. The Cpf is never touched. */
    method AtualizarNome(nome: string) returns (r: Result<Unit, Error>)
      modifies this
      ensures ValidarNome(nome).Some? ==> r == Failure(ValidarNome(nome).value) && this.nome == old(this.nome)
      ensures ValidarNome(nome).None? ==> r == Success(Unit) && this.nome == Trim(nome)
      ensures old(Valid()) ==> Valid()
    {
      var erro := ValidarNome(nome);
      if erro.Some? {
        return Failure(erro.value);
      }
      NomeAceitoArmazenavel(nome);
      this.nome := Trim(nome);
      return Success(Unit);
    }
  }
}

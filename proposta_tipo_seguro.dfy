/** The TipoSeguro value object: the kind of insurance, stored trimmed and
    compared without regard to case. */
module PropostaTipoSeguro {
  import opened Base
  import opened Text

  /** TipoSeguro, holding its Valor. */
  datatype TipoSeguro = TipoSeguro(valor: string)

  /** TipoSeguro.Criar: white space is refused, then the untrimmed length,
      in UTF-16 code units as string.Length counts, is bounded to 3..50; the stored Valor is the trimmed input. */
  function Criar(valor: string): (r: Result<TipoSeguro, Error>)
    ensures IsNullOrWhiteSpace(valor) ==> r == Failure(Error(Domain, Text("Tipo de seguro não pode ser vazio")))
    ensures !IsNullOrWhiteSpace(valor) && (Utf16Length(valor) < 3 || Utf16Length(valor) > 50) ==>
      r == Failure(Error(Domain, Text("Tipo de seguro deve ter entre 3 e 50 caracteres")))
    ensures r.Success? <==> !IsNullOrWhiteSpace(valor) && 3 <= Utf16Length(valor) <= 50
    ensures r.Success? ==> r.value.valor == Trim(valor)
  {
    if IsNullOrWhiteSpace(valor) then Failure(Error(Domain, Text("Tipo de seguro não pode ser vazio")))
    else if Utf16Length(valor) < 3 || Utf16Length(valor) > 50 then Failure(Error(Domain, Text("Tipo de seguro deve ter entre 3 e 50 caracteres")))
    else Success(TipoSeguro(Trim(valor)))
  }

  /** A created TipoSeguro is non-empty, at most 50 code units long and has
      no outer white space; trimming it again changes nothing. */
  lemma CriadoAparado(valor: string)
    requires Criar(valor).Success?
    ensures var v := Criar(valor).value.valor;
      && v != [] && Utf16Length(v) <= 50 && !IsWhiteSpace(v[0]) && !IsWhiteSpace(v[|v| - 1])
      && Trim(v) == v
  {
    TrimEmptyIff(valor);
    TrimIsSlice(valor);
    TrimNoOp(Trim(valor));
    TrimUtf16Length(valor);
  }

  /** The length bound is on the raw input, so the stored value can be
      shorter than 3: " ab" is accepted and stored as "ab". */
  lemma PodeFicarCurto()
    ensures Criar(" ab") == Success(TipoSeguro("ab"))
  {
    var s := " ab";
    assert !IsWhiteSpace(s[1]) && !IsWhiteSpace(s[2]);
    assert TrimOffset(s) == 1 by {
      assert FirstNonWhite(s, 1) == 1;
    }
    assert EndOfNonWhite(s, 1, 3) == 3;
    assert s[1..3] == "ab";
  }

  const Vida: TipoSeguro := TipoSeguro("Vida")
  const Auto: TipoSeguro := TipoSeguro("Auto")
  const Residencial: TipoSeguro := TipoSeguro("Residencial")
  const Saude: TipoSeguro := TipoSeguro("Saúde")

  /** A text of 3..50 characters without outer white space is stored as it
      is. */
  lemma CriarSemEspacos(v: string)
    requires 3 <= Utf16Length(v) <= 50 && !IsWhiteSpace(v[0]) && !IsWhiteSpace(v[|v| - 1])
    ensures Criar(v) == Success(TipoSeguro(v))
  {
    TrimNoOp(v);
  }

  /** Each predefined kind is what Criar yields for its text. */
  lemma ConstanteCriavel(t: TipoSeguro)
    requires t == Vida || t == Auto || t == Residencial || t == Saude
    ensures Criar(t.valor) == Success(t)
  {
    if t == Vida {
      LiteralCriavel("Vida");
    } else if t == Auto {
      LiteralCriavel("Auto");
    } else if t == Residencial {
      LiteralCriavel("Residencial");
    } else {
      LiteralCriavel("Saúde");
    }
  }

  /** A literal of 3..25 characters without outer white space is creatable
      as it is, whatever its characters' planes. */
  lemma LiteralCriavel(v: string)
    requires 3 <= |v| <= 25 && !IsWhiteSpace(v[0]) && !IsWhiteSpace(v[|v| - 1])
    ensures Criar(v) == Success(TipoSeguro(v))
  {
    CriarSemEspacos(v);
  }

  /** Equals(TipoSeguro?): false for null, otherwise an ordinal
      case-insensitive comparison of Valor. */
  function Igual(t: TipoSeguro, other: Option<TipoSeguro>): (r: bool)
    ensures r <==> other.Some? && Fold(t.valor) == Fold(other.value.valor)
  {
    match other
    case None => false
    case Some(o) => EqualsIgnoreCase(t.valor, o.valor)
  }

  /** operator ==: two nulls are equal, one null is not. */
  function OpIgual(left: Option<TipoSeguro>, right: Option<TipoSeguro>): (r: bool)
    ensures left.None? ==> (r <==> right.None?)
    ensures left.Some? ==> (r <==> Igual(left.value, right))
  {
    if left.None? then right.None? else Igual(left.value, right)
  }

  /** operator !=: a null and a non-null differ; two values differ unless
      they are equal ignoring case. */
  function OpDiferente(left: Option<TipoSeguro>, right: Option<TipoSeguro>): (r: bool)
    ensures left.None? ==> (r <==> right.Some?)
    ensures left.Some? ==> (r <==> right.None? || Fold(left.value.valor) != Fold(right.value.valor))
  {
    !OpIgual(left, right)
  }

  /** GetHashCode(StringComparison.OrdinalIgnoreCase): a hash of the folded
      text. */
  function HashCode(t: TipoSeguro, stringHash: string -> int): int {
    stringHash(Fold(t.valor))
  }

  function ToString(t: TipoSeguro): (r: string)
    ensures r == t.valor
  {
    t.valor
  }

  /** Equality is an equivalence relation, and equal values have equal
      hash codes. */
  lemma IgualdadeEquivalencia(a: TipoSeguro, b: TipoSeguro, c: TipoSeguro, stringHash: string -> int)
    ensures Igual(a, Some(a))
    ensures Igual(a, Some(b)) ==> Igual(b, Some(a))
    ensures Igual(a, Some(b)) && Igual(b, Some(c)) ==> Igual(a, Some(c))
    ensures Igual(a, Some(b)) ==> HashCode(a, stringHash) == HashCode(b, stringHash)
  {
    EqualsIgnoreCaseIsEquivalence(a.valor, b.valor, c.valor);
  }

  /** Case does not matter: "vida" equals Vida. */
  lemma CaixaIndiferente()
    ensures Igual(TipoSeguro("vida"), Some(Vida))
    ensures !Igual(TipoSeguro("auto"), Some(Vida))
  {
    assert Fold("vida") == "VIDA";
    assert Fold("Vida") == "VIDA";
    assert Fold("auto")[0] == 'A';
  }
}

/** The Cpf value object: a Brazilian taxpayer number, cleaned of its
    punctuation and checked with the two mod-11 check digits. */
module PropostaCpf {
  import opened Base
  import opened Text

  /** Cpf, holding its cleaned Valor. */
  datatype Cpf = Cpf(valor: string)

  /** LimparCpf: every '.' and '-' removed, then the outer white space. */
  function LimparCpf(s: string): (r: string)
    ensures '.' !in r && '-' !in r
    ensures forall i :: 0 <= i < |r| ==> r[i] in s
    ensures r != [] ==> !IsWhiteSpace(r[0]) && !IsWhiteSpace(r[|r| - 1])
  {
    var semPontuacao := Remove(Remove(s, '.'), '-');
    TrimIsSlice(semPontuacao);
    TrimMembers(semPontuacao);
    Trim(semPontuacao)
  }

  /** The value int.Parse gives an ASCII digit. */
  function Digito(c: char): int {
    c as int - '0' as int
  }

  /** The ASCII digit written for 0..9 (int.ToString of one digit). */
  function Algarismo(d: int): (c: char)
    requires 0 <= d <= 9
    ensures IsAsciiDigit(c) && Digito(c) == d
  {
    ('0' as int + d) as char
  }

  /** The weighted sum of the first n digits, the first weighted by peso and
      each next one by one less. */
  function SomaPonderada(s: string, n: nat, peso: int): int
    requires n <= |s|
  {
    if n == 0 then 0 else SomaPonderada(s, n - 1, peso) + Digito(s[n - 1]) * (peso - (n - 1))
  }

  /** The check digit for a weighted sum: the digit that completes the sum to
      a multiple of 11, or 0 when that would be 10 or 11. */
  function DigitoVerificador(soma: int): (d: int)
    ensures 0 <= d <= 9
    ensures soma % 11 >= 2 ==> (soma + d) % 11 == 0
    ensures soma % 11 < 2 ==> d == 0
  {
    var resto := soma % 11;
    if resto < 2 then 0 else 11 - resto
  }

  /** Distinct().Count() == 1 on a non-empty string. */
  predicate TodosIguais(s: string) {
    forall i :: 0 <= i < |s| ==> s[i] == s[0]
  }

  /** A valid CPF: eleven ASCII digits, not all the same, whose tenth digit
      is the check digit of the first nine under weights 10..2 and whose
      eleventh is the check digit of the first ten under weights 11..2. */
  predicate CpfValido(s: string) {
    && |s| == 11 && AllDigits(s) && !TodosIguais(s)
    && Digito(s[9]) == DigitoVerificador(SomaPonderada(s, 9, 10))
    && Digito(s[10]) == DigitoVerificador(SomaPonderada(s, 10, 11))
  }

  /** The weighted sum reads only the first n characters. */
  lemma {:induction false} SomaPrefixo(s: string, t: string, n: nat, peso: int)
    requires n <= |s| && n <= |t| && s[..n] == t[..n]
    ensures SomaPonderada(s, n, peso) == SomaPonderada(t, n, peso)
  {
    if n > 0 {
      assert s[n - 1] == s[..n][n - 1] == t[..n][n - 1] == t[n - 1];
      assert s[..n - 1] == s[..n][..n - 1];
      assert t[..n - 1] == t[..n][..n - 1];
      SomaPrefixo(s, t, n - 1, peso);
    }
  }

  const Multiplicador1: seq<int> := [10, 9, 8, 7, 6, 5, 4, 3, 2]
  const Multiplicador2: seq<int> := [11, 10, 9, 8, 7, 6, 5, 4, 3, 2]

  /** ValidarCpf: the length, digit and repetition checks, then the two
      accumulation loops, the first check digit appended to the nine-digit
      prefix before the second loop, and the test that the input ends with
      both digits. */
  method ValidarCpf(cpf: string) returns (ok: bool)
    ensures ok == CpfValido(cpf)
  {
    if |cpf| != 11 {
      return false;
    }
    if !AllDigits(cpf) {
      return false;
    }
    if TodosIguais(cpf) {
      return false;
    }
    var tempCpf := cpf[..9];
    var soma := 0;
    var i := 0;
    while i < 9
      invariant 0 <= i <= 9
      invariant soma == SomaPonderada(tempCpf, i, 10)
    {
      assert Multiplicador1[i] == 10 - i;
      soma := soma + Digito(tempCpf[i]) * Multiplicador1[i];
      i := i + 1;
    }
    var resto := soma % 11;
    resto := if resto < 2 then 0 else 11 - resto;
    var digito := [Algarismo(resto)];
    tempCpf := tempCpf + digito;
    soma := 0;
    i := 0;
    while i < 10
      invariant 0 <= i <= 10
      invariant soma == SomaPonderada(tempCpf, i, 11)
    {
      assert Multiplicador2[i] == 11 - i;
      soma := soma + Digito(tempCpf[i]) * Multiplicador2[i];
      i := i + 1;
    }
    var resto2 := soma % 11;
    resto2 := if resto2 < 2 then 0 else 11 - resto2;
    digito := digito + [Algarismo(resto2)];
    ok := EndsWith(cpf, digito);
    SomaPrefixo(cpf[..9] + [digito[0]], cpf, 9, 10);
    assert cpf[..9] == (cpf[..9] + [digito[0]])[..9];
    SomaPrefixo(cpf, cpf[..9], 9, 10);
    assert Digito(cpf[9]) == resto <==> cpf[9] == digito[0];
    if cpf[9] == digito[0] {
      assert tempCpf == cpf[..10];
      SomaPrefixo(tempCpf, cpf, 10, 11);
    }
    assert ok <==> cpf[9] == digito[0] && cpf[10] == digito[1] by {
      assert cpf[|cpf| - 2..] == [cpf[9], cpf[10]];
    }
  }

  /** Cpf.Criar: white-space input is rejected before cleaning; the cleaned
      string must be a valid CPF and becomes Valor. */
  function Criar(valor: string): (r: Result<Cpf, Error>)
    ensures IsNullOrWhiteSpace(valor) ==> r == Failure(Error(Domain, Text("CPF não pode ser vazio")))
    ensures !IsNullOrWhiteSpace(valor) && !CpfValido(LimparCpf(valor)) ==>
      r == Failure(Error(Domain, Text("CPF inválido")))
    ensures r.Success? <==> !IsNullOrWhiteSpace(valor) && CpfValido(LimparCpf(valor))
    ensures r.Success? ==> r.value.valor == LimparCpf(valor)
  {
    if IsNullOrWhiteSpace(valor) then Failure(Error(Domain, Text("CPF não pode ser vazio")))
    else if !CpfValido(LimparCpf(valor)) then Failure(Error(Domain, Text("CPF inválido")))
    else Success(Cpf(LimparCpf(valor)))
  }

  /** Every created Cpf holds eleven ASCII digits satisfying the check-digit
      rule, with no punctuation left. */
  lemma CpfCriadoValido(valor: string)
    requires Criar(valor).Success?
    ensures var v := Criar(valor).value.valor;
      |v| == 11 && AllDigits(v) && CpfValido(v) && '.' !in v && '-' !in v
  {
  }

  /** FormatarCpf: "ddd.ddd.ddd-dd" from the first eleven characters. The
      constructors of Cpf are private, so every Valor comes from Criar and has
      exactly eleven digits (CpfCriadoValido); the requires states that fact
      for the datatype, which does not carry it. */
  function FormatarCpf(c: Cpf): (r: string)
    requires |c.valor| >= 11
    ensures |r| == 14 && r[3] == '.' && r[7] == '.' && r[11] == '-'
    ensures r[..3] == c.valor[..3] && r[4..7] == c.valor[3..6]
    ensures r[8..11] == c.valor[6..9] && r[12..] == c.valor[9..11]
  {
    var v := c.valor;
    v[0..3] + "." + v[3..6] + "." + v[6..9] + "-" + v[9..11]
  }

  /** A digit string holds neither '.' nor '-'. */
  lemma DigitosSemPontuacao(d: string)
    requires AllDigits(d)
    ensures '.' !in d && '-' !in d
    ensures Remove(Remove(d, '.'), '-') == d
  {
    assert forall i :: 0 <= i < |d| ==> d[i] != '.' && d[i] != '-';
    RemoveAbsent(d, '.');
    RemoveAbsent(d, '-');
  }

  lemma RemoveAnexo(p: string, q: string, x: char, r: string)
    requires Remove(p, x) == r
    ensures Remove(p + q, x) == r + Remove(q, x)
  {
    RemoveConcat(p, q, x);
  }

  /** Removing the dots of "ddd.ddd.ddd-dd". */
  lemma TirarPontos(a: string, b: string, d: string, e: string)
    requires AllDigits(a) && AllDigits(b) && AllDigits(d) && AllDigits(e)
    ensures Remove(a + "." + b + "." + d + "-" + e, '.') == a + b + d + "-" + e
  {
    DigitosSemPontuacao(a);
    DigitosSemPontuacao(b);
    DigitosSemPontuacao(d);
    DigitosSemPontuacao(e);
    RemoveAbsent(a, '.');
    RemoveAbsent(b, '.');
    RemoveAbsent(d, '.');
    RemoveAbsent(e, '.');
    assert Remove(".", '.') == [];
    assert Remove("-", '.') == "-";
    RemoveAnexo(a, ".", '.', a);
    assert a + [] == a;
    RemoveAnexo(a + ".", b, '.', a);
    RemoveAnexo(a + "." + b, ".", '.', a + b);
    assert a + b + [] == a + b;
    RemoveAnexo(a + "." + b + ".", d, '.', a + b);
    RemoveAnexo(a + "." + b + "." + d, "-", '.', a + b + d);
    RemoveAnexo(a + "." + b + "." + d + "-", e, '.', a + b + d + "-");
  }

  /** Removing the hyphen of "ddddddddd-dd". */
  lemma TirarHifen(a: string, b: string, d: string, e: string)
    requires AllDigits(a) && AllDigits(b) && AllDigits(d) && AllDigits(e)
    ensures Remove(a + b + d + "-" + e, '-') == a + b + d + e
  {
    DigitosSemPontuacao(a);
    DigitosSemPontuacao(b);
    DigitosSemPontuacao(d);
    DigitosSemPontuacao(e);
    RemoveAbsent(a, '-');
    RemoveAbsent(b, '-');
    RemoveAbsent(d, '-');
    RemoveAbsent(e, '-');
    assert Remove("-", '-') == [];
    RemoveAnexo(a, b, '-', a);
    RemoveAnexo(a + b, d, '-', a + b);
    RemoveAnexo(a + b + d, "-", '-', a + b + d);
    assert a + b + d + [] == a + b + d;
    RemoveAnexo(a + b + d + "-", e, '-', a + b + d);
  }

  /** Cleaning a formatted CPF gives back its digits. */
  lemma LimparFormatado(c: Cpf)
    requires |c.valor| == 11 && AllDigits(c.valor)
    ensures LimparCpf(FormatarCpf(c)) == c.valor
  {
    var v := c.valor;
    var a, b, d, e := v[0..3], v[3..6], v[6..9], v[9..11];
    assert v == a + b + d + e;
    assert FormatarCpf(c) == a + "." + b + "." + d + "-" + e;
    TirarPontos(a, b, d, e);
    TirarHifen(a, b, d, e);
    TrimNoOp(v);
  }

  /** Formatting round-trips: creating a Cpf from its formatted text gives
      the same Cpf, and so does creating it from the bare digits. */
  lemma FormatarIdaEVolta(c: Cpf)
    requires CpfValido(c.valor)
    ensures Criar(FormatarCpf(c)) == Success(c)
    ensures Criar(c.valor) == Success(c)
  {
    var f := FormatarCpf(c);
    LimparFormatado(c);
    assert f[0] == c.valor[0];
    CriarLimpo(f, c);
    DigitosSemPontuacao(c.valor);
    TrimNoOp(c.valor);
    CriarLimpo(c.valor, c);
  }

  /** A text that does not start with white space and cleans to a valid
      number creates the Cpf holding that number. */
  lemma CriarLimpo(s: string, c: Cpf)
    requires s != [] && !IsWhiteSpace(s[0])
    requires LimparCpf(s) == c.valor && CpfValido(c.valor)
    ensures Criar(s) == Success(c)
  {
    assert !IsNullOrWhiteSpace(s);
  }

  /** Cpf.Equals(Cpf?): false for null, otherwise Valor equality. */
  function Igual(c: Cpf, other: Option<Cpf>): (r: bool)
    ensures r <==> other == Some(c)
  {
    match other
    case None => false
    case Some(o) => c.valor == o.valor
  }

  /** operator ==: two nulls are equal, one null is not. */
  function OpIgual(left: Option<Cpf>, right: Option<Cpf>): (r: bool)
    ensures r <==> left == right
  {
    if left.None? then right.None? else Igual(left.value, right)
  }

  function OpDiferente(left: Option<Cpf>, right: Option<Cpf>): (r: bool)
    ensures r <==> left != right
  {
    !OpIgual(left, right)
  }

  /** GetHashCode delegates to the string's hash, and ToString is Valor. */
  function HashCode(c: Cpf, stringHash: string -> int): int {
    stringHash(c.valor)
  }

  function ToString(c: Cpf): (r: string)
    ensures r == c.valor
  {
    c.valor
  }

  /** Formatted and unformatted spellings of one number give equal Cpfs,
      with equal hash codes. */
  lemma GrafiasIguais(c: Cpf, stringHash: string -> int)
    requires CpfValido(c.valor)
    ensures Criar(FormatarCpf(c)).Success? && Criar(c.valor).Success?
    ensures OpIgual(Some(Criar(FormatarCpf(c)).value), Some(Criar(c.valor).value))
    ensures HashCode(Criar(FormatarCpf(c)).value, stringHash) == HashCode(Criar(c.valor).value, stringHash)
  {
    FormatarIdaEVolta(c);
  }

  /** The formatting of eleven characters given as their four groups. */
  lemma FormatarGrupos(a: string, b: string, d: string, e: string)
    requires |a| == 3 && |b| == 3 && |d| == 3 && |e| == 2
    ensures FormatarCpf(Cpf(a + b + d + e)) == a + "." + b + "." + d + "-" + e
  {
    var v := a + b + d + e;
    assert v[0..3] == a && v[3..6] == b && v[6..9] == d && v[9..11] == e;
  }

  /** The texts of the examples below are the formattings of their digits. */
  lemma FormatacaoValido()
    ensures FormatarCpf(Cpf("12345678909")) == "123.456.789-09"
  {
    assert "123" + "456" + "789" + "09" == "12345678909";
    assert "123" + "." + "456" + "." + "789" + "-" + "09" == "123.456.789-09";
    FormatarGrupos("123", "456", "789", "09");
  }

  lemma FormatacaoDigitoErrado()
    ensures FormatarCpf(Cpf("12345678900")) == "123.456.789-00"
  {
    assert "123" + "456" + "789" + "00" == "12345678900";
    assert "123" + "." + "456" + "." + "789" + "-" + "00" == "123.456.789-00";
    FormatarGrupos("123", "456", "789", "00");
  }

  /** "123.456.789-09" is accepted and stored as its eleven digits. */
  lemma ExemploValido()
    ensures Criar(FormatarCpf(Cpf("12345678909"))) == Success(Cpf("12345678909"))
  {
    assert SomaPonderada("12345678909", 9, 10) == 210;
    assert SomaPonderada("12345678909", 10, 11) == 255;
    FormatarIdaEVolta(Cpf("12345678909"));
  }

  /** Creating a Cpf from the formatting of eleven digits that fail the
      check is rejected as invalid. */
  lemma FormatadoInvalido(v: string)
    requires |v| == 11 && AllDigits(v) && !CpfValido(v)
    ensures Criar(FormatarCpf(Cpf(v))) == Failure(Error(Domain, Text("CPF inválido")))
  {
    LimparFormatado(Cpf(v));
    assert !IsWhiteSpace(FormatarCpf(Cpf(v))[0]);
  }

  /** "123.456.789-00": a wrong second check digit is rejected. */
  lemma ExemploDigitoErrado()
    ensures Criar(FormatarCpf(Cpf("12345678900"))) == Failure(Error(Domain, Text("CPF inválido")))
  {
    assert SomaPonderada("12345678900", 10, 11) == 255;
    FormatadoInvalido("12345678900");
  }

  /** "000.000.000-00" and "111.111.111-11": repeated-digit numbers, whose
      check digits match, are rejected. */
  lemma ExemploZeros()
    ensures Criar(FormatarCpf(Cpf("00000000000"))) == Failure(Error(Domain, Text("CPF inválido")))
  {
    var v := "00000000000";
    assert AllDigits(v) && TodosIguais(v);
    FormatadoInvalido(v);
  }

  lemma ExemploUns()
    ensures Criar(FormatarCpf(Cpf("11111111111"))) == Failure(Error(Domain, Text("CPF inválido")))
  {
    var v := "11111111111";
    assert AllDigits(v) && TodosIguais(v);
    FormatadoInvalido(v);
  }
}

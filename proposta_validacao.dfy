/** The FluentValidation rules of the proposal commands: CriarPropostaValidator,
    AtualizarPropostaValidator and AlterarStatusPropostaValidator. Every rule
    runs (the default cascade mode continues after a failing check), and the
    failures are listed in rule order. */
module PropostaValidacao {
  import opened Base
  import opened Text
  import PropostaCpf
  import T = PropostaTipoSeguro
  import opened PropostaCliente
  import opened PropostaSeguro
  import opened PropostaProposta

  /** A rule's failure when its check does not hold. */
  function Regra(ok: bool, propriedade: string, mensagem: string): (r: seq<Falha>)
    ensures r == [] <==> ok
    ensures !ok ==> r == [Falha(propriedade, mensagem)]
  {
    if ok then [] else [Falha(propriedade, mensagem)]
  }

  /** The private ValidarCpf of CriarPropostaValidator: the CPF cleaned as
      Cpf.LimparCpf cleans it must be eleven digits, not all the same. The
      check digits are not looked at. */
  predicate FormatoCpf(cpf: string) {
    && !IsNullOrWhiteSpace(cpf)
    && |PropostaCpf.LimparCpf(cpf)| == 11
    && AllDigits(PropostaCpf.LimparCpf(cpf))
    && !PropostaCpf.TodosIguais(PropostaCpf.LimparCpf(cpf))
  }

  /** Whatever Cpf.Criar accepts passes the shape check. */
  lemma CpfCriavelTemFormato(cpf: string)
    requires PropostaCpf.Criar(cpf).Success?
    ensures FormatoCpf(cpf)
  {
  }

  /** A formatted, non-repeated number passes the shape check whatever its
      check digits. */
  lemma FormatadoTemFormato(v: string)
    requires |v| == 11 && AllDigits(v) && !PropostaCpf.TodosIguais(v)
    ensures FormatoCpf(PropostaCpf.FormatarCpf(PropostaCpf.Cpf(v)))
  {
    PropostaCpf.LimparFormatado(PropostaCpf.Cpf(v));
    assert !IsWhiteSpace(PropostaCpf.FormatarCpf(PropostaCpf.Cpf(v))[0]);
  }

  /** The shape check is strictly weaker than Cpf.Criar: "123.456.789-00"
      passes it although Cpf.Criar rejects it. */
  lemma FormatoNaoBasta()
    ensures var s := PropostaCpf.FormatarCpf(PropostaCpf.Cpf("12345678900"));
      FormatoCpf(s) && PropostaCpf.Criar(s).Failure?
  {
    var v := "12345678900";
    assert v[1] != v[0];
    FormatadoTemFormato(v);
    PropostaCpf.ExemploDigitoErrado();
  }

  /** "123.456.789-09" raises no CPF failure. */
  lemma FormatadoValidoTemFormato()
    ensures FormatoCpf(PropostaCpf.FormatarCpf(PropostaCpf.Cpf("12345678909")))
  {
    var v := "12345678909";
    assert v[1] != v[0];
    FormatadoTemFormato(v);
  }

  /** The NotEmpty, MinimumLength and MaximumLength chain on a string
      property: NotEmpty rejects white space, the lengths are raw and in
      UTF-16 code units. */
  function RegrasTexto(valor: string, propriedade: string, minimo: nat, maximo: nat,
                       obrigatorio: string, curto: string, longo: string): (r: seq<Falha>)
    ensures r == [] <==> !IsNullOrWhiteSpace(valor) && minimo <= Utf16Length(valor) <= maximo
    ensures forall i :: 0 <= i < |r| ==> r[i].propriedade == propriedade
  {
    Regra(!IsNullOrWhiteSpace(valor), propriedade, obrigatorio)
    + Regra(Utf16Length(valor) >= minimo, propriedade, curto)
    + Regra(Utf16Length(valor) <= maximo, propriedade, longo)
  }

  /** The Cpf rules: NotEmpty, then Must(ValidarCpf). */
  function RegrasCpf(cpf: string): (r: seq<Falha>)
    ensures r == [] <==> FormatoCpf(cpf)
    ensures Falha("Cpf", "CPF inválido") in r <==> !FormatoCpf(cpf)
    ensures Falha("Cpf", "CPF é obrigatório") in r <==> IsNullOrWhiteSpace(cpf)
  {
    Regra(!IsNullOrWhiteSpace(cpf), "Cpf", "CPF é obrigatório")
    + Regra(FormatoCpf(cpf), "Cpf", "CPF inválido")
  }

  /** The amount rules: each amount positive, and the whole-command rule,
      whose property name is empty, prêmio below cobertura. */
  function RegrasValores(valorCobertura: real, valorPremio: real): (r: seq<Falha>)
    ensures r == [] <==> valorCobertura > 0.0 && valorPremio > 0.0 && valorPremio < valorCobertura
    ensures Falha("", "Valor do prêmio deve ser menor que o valor da cobertura") in r <==> valorPremio >= valorCobertura
  {
    Regra(valorCobertura > 0.0, "ValorCobertura", "Valor da cobertura deve ser maior que zero")
    + Regra(valorPremio > 0.0, "ValorPremio", "Valor do prêmio deve ser maior que zero")
    + Regra(valorPremio < valorCobertura, "", "Valor do prêmio deve ser menor que o valor da cobertura")
  }

  /** CriarPropostaValidator: the rules of every property, in declaration
      order. */
  function ValidarCriarProposta(nomeCliente: string, cpf: string, tipoSeguro: string, valorCobertura: real, valorPremio: real)
    : (r: seq<Falha>)
    ensures r == [] <==>
      && !IsNullOrWhiteSpace(nomeCliente) && 3 <= Utf16Length(nomeCliente) <= 200
      && FormatoCpf(cpf)
      && !IsNullOrWhiteSpace(tipoSeguro) && 3 <= Utf16Length(tipoSeguro) <= 50
      && valorCobertura > 0.0 && valorPremio > 0.0 && valorPremio < valorCobertura
  {
    RegrasTexto(nomeCliente, "NomeCliente", 3, 200, "Nome do cliente é obrigatório",
                "Nome do cliente deve ter no mínimo 3 caracteres", "Nome do cliente deve ter no máximo 200 caracteres")
    + RegrasCpf(cpf)
    + RegrasTexto(tipoSeguro, "TipoSeguro", 3, 50, "Tipo de seguro é obrigatório",
                  "Tipo de seguro deve ter no mínimo 3 caracteres", "Tipo de seguro deve ter no máximo 50 caracteres")
    + RegrasValores(valorCobertura, valorPremio)
  }

  /** Every command Proposta.Criar would accept passes the validator; the
      converse fails only on the CPF check digits (FormatoNaoBasta). */
  lemma CriavelPassaValidador(nomeCliente: string, cpf: string, tipoSeguro: string, valorCobertura: real, valorPremio: real)
    requires ErroDeCriacao(nomeCliente, cpf, tipoSeguro, valorCobertura, valorPremio).None?
    ensures ValidarCriarProposta(nomeCliente, cpf, tipoSeguro, valorCobertura, valorPremio) == []
  {
    CpfCriavelTemFormato(cpf);
  }

  /** A command that passes the validator fails in Proposta.Criar only with
      "CPF inválido". */
  lemma ValidadoSoFalhaNoDigito(nomeCliente: string, cpf: string, tipoSeguro: string, valorCobertura: real, valorPremio: real)
    requires ValidarCriarProposta(nomeCliente, cpf, tipoSeguro, valorCobertura, valorPremio) == []
    ensures var e := ErroDeCriacao(nomeCliente, cpf, tipoSeguro, valorCobertura, valorPremio);
      e.None? || e == Some(Error(Domain, Text("CPF inválido")))
  {
  }

  /** The name rules of the update: the bounds apply only to a supplied,
      non-blank name. */
  function RegrasNomeOpcional(nomeCliente: Option<string>): (r: seq<Falha>)
    ensures r == [] <==>
      (nomeCliente.Some? && !IsNullOrWhiteSpace(nomeCliente.value) ==> 3 <= Utf16Length(nomeCliente.value) <= 200)
    ensures forall i :: 0 <= i < |r| ==> r[i].propriedade == "NomeCliente"
  {
    if nomeCliente.Some? && !IsNullOrWhiteSpace(nomeCliente.value) then
      Regra(Utf16Length(nomeCliente.value) >= 3, "NomeCliente", "Nome do cliente deve ter no mínimo 3 caracteres")
      + Regra(Utf16Length(nomeCliente.value) <= 200, "NomeCliente", "Nome do cliente deve ter no máximo 200 caracteres")
    else []
  }

  /** A rule under When(x => x.Valor.HasValue): checked only when the amount
      is supplied. */
  function RegraSeInformado(valor: Option<real>, propriedade: string, mensagem: string): (r: seq<Falha>)
    ensures r == [] <==> (valor.Some? ==> valor.value > 0.0)
    ensures r != [] ==> r == [Falha(propriedade, mensagem)]
  {
    if valor.Some? then Regra(valor.value > 0.0, propriedade, mensagem) else []
  }

  /** The comparison rule of the update, checked only when both amounts are
      supplied. */
  function RegraComparacao(valorCobertura: Option<real>, valorPremio: Option<real>): (r: seq<Falha>)
    ensures r == [] <==> (valorCobertura.Some? && valorPremio.Some? ==> valorPremio.value < valorCobertura.value)
    ensures r != [] ==>
      && valorCobertura.Some? && valorPremio.Some?
      && r == [Falha("", "Valor do prêmio deve ser menor que o valor da cobertura")]
  {
    if valorCobertura.Some? && valorPremio.Some? then
      Regra(valorPremio.value < valorCobertura.value, "", "Valor do prêmio deve ser menor que o valor da cobertura")
    else []
  }

  /** AtualizarPropostaValidator. The name bounds apply only to a supplied,
      non-blank name; each amount is checked only when supplied, and their
      comparison only when both are. */
  function ValidarAtualizarProposta(propostaId: Guid, nomeCliente: Option<string>, valorCobertura: Option<real>, valorPremio: Option<real>)
    : (r: seq<Falha>)
    ensures r == [] <==>
      && propostaId != GuidEmpty
      && (nomeCliente.Some? && !IsNullOrWhiteSpace(nomeCliente.value) ==> 3 <= Utf16Length(nomeCliente.value) <= 200)
      && (valorCobertura.Some? ==> valorCobertura.value > 0.0)
      && (valorPremio.Some? ==> valorPremio.value > 0.0)
      && (valorCobertura.Some? && valorPremio.Some? ==> valorPremio.value < valorCobertura.value)
    ensures Falha("", "Valor do prêmio deve ser menor que o valor da cobertura") in r ==>
      valorCobertura.Some? && valorPremio.Some?
  {
    var id := Regra(propostaId != GuidEmpty, "PropostaId", "ID da proposta é obrigatório");
    var nome := RegrasNomeOpcional(nomeCliente);
    var cob := RegraSeInformado(valorCobertura, "ValorCobertura.Value", "Valor da cobertura deve ser maior que zero");
    var prem := RegraSeInformado(valorPremio, "ValorPremio.Value", "Valor do prêmio deve ser maior que zero");
    var comp := RegraComparacao(valorCobertura, valorPremio);
    var f := Falha("", "Valor do prêmio deve ser menor que o valor da cobertura");
    assert f !in nome by {
      assert forall i :: 0 <= i < |nome| ==> nome[i] != f;
    }
    assert f !in id && f !in cob && f !in prem;
    id + nome + cob + prem + comp
  }

  /** Supplying a single amount never yields the comparison failure, however
      large it is. */
  lemma UmValorSemComparacao(propostaId: Guid, nomeCliente: Option<string>, valorCobertura: Option<real>, valorPremio: Option<real>)
    requires valorCobertura.None? || valorPremio.None?
    ensures Falha("", "Valor do prêmio deve ser menor que o valor da cobertura")
      !in ValidarAtualizarProposta(propostaId, nomeCliente, valorCobertura, valorPremio)
  {
  }

  /** A command with only an Id passes: every other field is optional. */
  lemma SoIdValido(propostaId: Guid)
    requires propostaId != GuidEmpty
    ensures ValidarAtualizarProposta(propostaId, None, None, None) == []
  {
  }

  /** AlterarStatusPropostaValidator: a non-empty Id and a declared status.
      Whether the move is allowed is left to Proposta.AlterarStatus. */
  function ValidarAlterarStatus(propostaId: Guid, novoStatus: StatusInformado): (r: seq<Falha>)
    ensures r == [] <==> propostaId != GuidEmpty && novoStatus.Declarado?
    ensures Falha("NovoStatus", "Status inválido") in r <==> novoStatus.NaoDeclarado?
    ensures Falha("PropostaId", "ID da proposta é obrigatório") in r <==> propostaId == GuidEmpty
  {
    Regra(propostaId != GuidEmpty, "PropostaId", "ID da proposta é obrigatório")
    + Regra(novoStatus.Declarado?, "NovoStatus", "Status inválido")
  }

  /** Every declared status passes, from any current status: a request for an
      illegal move is only refused later, by the aggregate. */
  lemma TodoStatusDeclaradoAceito(propostaId: Guid, s: StatusProposta)
    requires propostaId != GuidEmpty
    ensures ValidarAlterarStatus(propostaId, Declarado(s)) == []
  {
  }
}

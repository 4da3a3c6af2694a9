/** CriarContratoValidator: the FluentValidation rules of CriarContratoCommand. */
module ContratacaoValidacao {
  import opened Base

  /** The failures for a command's PropostaId. Both rules of the chain run
      (the default cascade mode continues after a failure): NotEmpty and
      NotEqual(Guid.Empty) both reject Guid.Empty. */
  function ValidarCriarContrato(propostaId: Guid): (r: seq<Falha>)
    ensures r == [] <==> propostaId != GuidEmpty
    ensures forall i :: 0 <= i < |r| ==> r[i].propriedade == "PropostaId"
    ensures propostaId == GuidEmpty ==>
      Falha("PropostaId", "O ID da proposta é obrigatório") in r
      && Falha("PropostaId", "O ID da proposta não pode ser vazio") in r
  {
    var naoVazio := if propostaId == GuidEmpty then [Falha("PropostaId", "O ID da proposta é obrigatório")] else [];
    var diferenteDeVazio := if propostaId == GuidEmpty then [Falha("PropostaId", "O ID da proposta não pode ser vazio")] else [];
    naoVazio + diferenteDeVazio
  }
}

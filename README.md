# Proposals and contracts: a Dafny model

Two services of an insurance back office, modelled and proved in Dafny.

**PropostaService** handles insurance proposals (`Proposta`). A proposal holds a
customer (`Cliente`: a trimmed name and a `Cpf`, the Brazilian taxpayer number
with its two mod-11 check digits). It also holds an insurance (`Seguro`: a
`TipoSeguro` and two `Dinheiro` amounts, with 0 < prêmio < cobertura). The
proposal status moves from `EmAnalise` to `Aprovada` or `Rejeitada`, and each
move raises a domain event. Commands reach the aggregate through
FluentValidation validators and three handlers (create, update, change status).
The handlers stage rows in a repository and commit them through a unit of work.
A MediatR `TransactionBehavior` wraps every request and rolls back when a
command fails.

**ContratacaoService** issues a contract (`Contrato`) for an approved proposal
through a saga with three steps:
1. Verify the proposal through the proposal service's HTTP client.
2. Create and commit the contract.
3. Publish `ContratoCriadoEvent`.

When a step fails after the contract exists, the saga cancels the contract
and then rethrows the error. The database keeps at most one contract per
proposal through a unique index on `PropostaId`. A contract moves between
`Ativo`, `Suspenso`, `Expirado` and `Cancelado`, and `Cancelado` is terminal.

## How the model is built

- **Value objects are datatypes.** These are `Cpf`, `Dinheiro`, `TipoSeguro` and
  `PropostaId`. Each factory returns a `Result`, whose `Failure` carries the
  exception kind and message the C# code throws.
- **Entities the code updates in place are classes** with `modifies` clauses:
  `Contrato`, `Cliente`, `Seguro` and `Proposta`. A separate datatype row
  (`ContratoRow`, `PropostaRow`) is what the store persists.
- **Each repository and its unit of work form one class.** It holds three
  fields, each a `seq` that the methods reassign: `confirmados` (committed
  rows), `pendentes` (staged changes) and `chamadas` (the calls a handler made,
  in order). `Commit` applies the staged changes all or nothing, under the
  table's keys.
- **Loops stay loops.** `Cpf.ValidarCpf` keeps its two accumulation loops as a
  method with invariants, proved equal to the predicate `CpfValido`.
- **The outside world comes in through parameters.** These are the clock, every
  `Guid.NewGuid()`, the answer of the proposal HTTP client, and whether the
  database or the mediator fails.

## Model

| member | source | states |
|---|---|---|
| ContratacaoPropostaId.Criar | ContratacaoService.Domain/ValueObjects/PropostaId.cs:7-13 | succeeds iff the GUID is not Guid.Empty; otherwise ArgumentException "PropostaId não pode ser vazio" naming the parameter "value" |
| ContratacaoPropostaId.ParaGuid | ContratacaoService.Domain/ValueObjects/PropostaId.cs:15-16 | the implicit conversion to Guid never yields Guid.Empty |
| ContratacaoPropostaId.ConversoesIdaEVolta | ContratacaoService.Domain/ValueObjects/PropostaId.cs:7-16 | Guid → PropostaId → Guid and PropostaId → Guid → PropostaId both round-trip |
| ContratacaoPropostaId.Igual | ContratacaoService.Domain/ValueObjects/PropostaId.cs:18-22 | Equals is false for null and otherwise holds exactly when the values are the same |
| ContratacaoPropostaId.OpIgual | ContratacaoService.Domain/ValueObjects/PropostaId.cs:39-44 | == is null-safe: two nulls are equal and null never equals a value |
| ContratacaoPropostaId.OpDiferente | ContratacaoService.Domain/ValueObjects/PropostaId.cs:46-49 | != holds exactly when the operands differ |
| ContratacaoPropostaId.IguaisTemMesmoHash | ContratacaoService.Domain/ValueObjects/PropostaId.cs:29-37 | equal ids have equal hash codes and text, whatever the Guid's own hash and ToString |
| ContratacaoPropostaId.HashCode | ContratacaoService.Domain/ValueObjects/PropostaId.cs:29-32 | GetHashCode is the Guid's hash of Value; IguaisTemMesmoHash proves equal ids hash equally |
| ContratacaoPropostaId.ToString | ContratacaoService.Domain/ValueObjects/PropostaId.cs:34-37 | ToString is the Guid's text of Value; IguaisTemMesmoHash proves equal ids have equal text |
| ContratacaoPropostaId.OpIgualEquivalencia | ContratacaoService.Domain/ValueObjects/PropostaId.cs:18-49 | == is reflexive, symmetric and transitive, agrees with Equals, and != is its negation |
| ContratacaoContrato.Aplicar | ContratacaoService.Domain/Entities/Contrato.cs:26-60 | a transition that passes its guard always lands on its own target status; a refused one is an InvalidOperationException |
| ContratacaoContrato.AplicarSoPermitidas | ContratacaoService.Domain/Entities/Contrato.cs:26-60 | the guards admit exactly the eight listed (transition, status) pairs |
| ContratacaoContrato.CanceladoTerminal | ContratacaoService.Domain/Entities/Contrato.cs:28-29 | every transition method throws from Cancelado |
| ContratacaoContrato.CanceladoPermanece | ContratacaoService.Domain/Entities/Contrato.cs:26-60 | no series of calls, with failed calls skipped, leaves Cancelado |
| ContratacaoContrato.AtivoSoPorReativacao | ContratacaoService.Domain/Entities/Contrato.cs:26-60 | a series of calls that never calls Reativar and ends in Ativo started in Ativo and was empty |
| ContratacaoContrato.Transitar | ContratacaoService.Domain/Entities/Contrato.cs:26-60 | a successful transition changes only Status (to the target) and DataAtualizacao (to now); it fails exactly when the guard does |
| ContratacaoContrato.Contrato.constructor | ContratacaoService.Domain/Entities/Contrato.cs:17-24 | a new contract is Ativo, contracted and created now, never updated, for the given proposal |
| ContratacaoContrato.Contrato.Materializar | ContratacaoService.Domain/Entities/Contrato.cs:15 | the materialised object is saved as exactly the row it was read from |
| ContratacaoContrato.Contrato.Novo | ContratacaoService.Domain/Entities/Contrato.cs:17-24 | a null PropostaId gives ArgumentNullException("propostaId"); otherwise a fresh Ativo contract with the expected row |
| ContratacaoContrato.Contrato.Executa | ContratacaoService.Domain/Entities/Contrato.cs:26-60 | the new row is Transitar of the old one; a refused call leaves the row unchanged |
| ContratacaoContrato.Contrato.Cancelar | ContratacaoService.Domain/Entities/Contrato.cs:26-33 | throws "Contrato já está cancelado" from Cancelado with nothing changed; otherwise Cancelado with DataAtualizacao = now, all else unchanged |
| ContratacaoContrato.Contrato.Suspender | ContratacaoService.Domain/Entities/Contrato.cs:35-42 | only from Ativo, to Suspenso; otherwise "Apenas contratos ativos podem ser suspensos" with nothing changed |
| ContratacaoContrato.Contrato.Reativar | ContratacaoService.Domain/Entities/Contrato.cs:44-51 | only from Suspenso, to Ativo; otherwise "Apenas contratos suspensos podem ser reativados" with nothing changed |
| ContratacaoContrato.Contrato.Expirar | ContratacaoService.Domain/Entities/Contrato.cs:53-60 | from any status except Cancelado, to Expirado; from Cancelado "Contrato cancelado não pode expirar" with nothing changed |
| ContratacaoRepositorio.Substituir | ContratacaoService.Infrastructure/Persistence/Repositories/ContratoRepository.cs:45-49 | the row with the updated Id is replaced and every other row is kept in place |
| ContratacaoRepositorio.Gravar | ContratacaoService.Infrastructure/Persistence/Configurations/ContratoConfiguration.cs:14-52 | an insert fails iff its Id or PropostaId is taken, an update iff its Id is missing or its PropostaId belongs to another row; success keeps both keys unique and never shrinks the table |
| ContratacaoRepositorio.GravarTodos | ContratacaoService.Infrastructure/Persistence/Repositories/UnitOfWork.cs:15-18 | a successful SaveChanges of a staged batch leaves both keys unique |
| ContratacaoRepositorio.Confirmar | ContratacaoService.Infrastructure/Persistence/Repositories/UnitOfWork.cs:15-18 | a database failure aborts with that error, otherwise the staged batch is written; a committed table always has unique keys |
| ContratacaoRepositorio.SegundoContratoRecusado | ContratacaoService.Infrastructure/Persistence/Configurations/ContratoConfiguration.cs:51-52 | inserting a second contract for a proposal that already has one is refused by the unique index |
| ContratacaoRepositorio.InsercaoVisivel | ContratacaoService.Infrastructure/Persistence/Repositories/ContratoRepository.cs:18-43 | an added contract with new keys commits, and lookup by Id and by PropostaId then finds it |
| ContratacaoRepositorio.AtualizacaoPersiste | ContratacaoService.Infrastructure/Persistence/Repositories/ContratoRepository.cs:45-49 | updating a stored contract commits, and lookup by Id then returns the new row |
| ContratacaoRepositorio.ContratoRepository.constructor | ContratacaoService.Infrastructure/Persistence/Repositories/ContratoRepository.cs:1-58 | a repository over a keyed table, with nothing staged and no calls made |
| ContratacaoRepositorio.ContratoRepository.ObterPorId | ContratacaoService.Infrastructure/Persistence/Repositories/ContratoRepository.cs:18-22 | the committed row with that Id, or null exactly when none has it |
| ContratacaoRepositorio.ContratoRepository.ObterPorPropostaId | ContratacaoService.Infrastructure/Persistence/Repositories/ContratoRepository.cs:24-31 | a committed row for that proposal, or null exactly when none refers to it |
| ContratacaoRepositorio.ContratoRepository.ExisteContratoParaProposta | ContratacaoService.Infrastructure/Persistence/Repositories/ContratoRepository.cs:51-58 | true exactly when some committed row refers to the proposal |
| ContratacaoRepositorio.ContratoRepository.ListarTodos | ContratacaoService.Infrastructure/Persistence/Repositories/ContratoRepository.cs:33-38 | a permutation of the committed rows, ordered by DataCriacao, newest first |
| ContratacaoRepositorio.ContratoRepository.Adicionar | ContratacaoService.Infrastructure/Persistence/Repositories/ContratoRepository.cs:40-43 | stages an insert of the contract's row; the committed table is untouched |
| ContratacaoRepositorio.ContratoRepository.Atualizar | ContratacaoService.Infrastructure/Persistence/Repositories/ContratoRepository.cs:45-49 | stages an update of the contract's row; the committed table is untouched |
| ContratacaoRepositorio.ContratoRepository.Commit | ContratacaoService.Infrastructure/Persistence/Repositories/UnitOfWork.cs:15-18 | all or nothing: on success the table is the batch applied and nothing stays staged; on failure table and staged changes are unchanged; keys stay unique |
| ContratacaoRepositorio.ContratoRepository.Rollback | ContratacaoService.Infrastructure/Persistence/Repositories/UnitOfWork.cs:20-23 | records the call and changes neither the table nor the staged changes |
| ContratacaoServicos.ValidarContrato | ContratacaoService.Domain/Services/ContratoValidationService.cs:16-25 | false for null and true for every contract, since no PropostaId can be empty |
| ContratacaoServicos.PodeContratar | ContratacaoService.Domain/Services/ContratoValidationService.cs:27-31 | true exactly when no committed contract refers to the proposal |
| ContratacaoServicos.PodeContratarConcordaComCommit | ContratacaoService.Domain/Services/ContratoValidationService.cs:27-31 | when PodeContratar holds, an insert with a new Id commits; when it fails, the insert is always refused |
| ContratacaoServicos.ContratoAtivoExpressao | ContratacaoService.Domain/Specifications/ContratoAtivoSpecification.cs:9-12 | ToExpression holds on a row exactly when its status is Ativo |
| ContratacaoServicos.ContratoAtivoConcorda | ContratacaoService.Domain/Specifications/ContratoAtivoSpecification.cs:9-17 | IsSatisfiedBy and ToExpression agree on every contract, and no status other than Ativo satisfies them |
| ContratacaoServicos.ContratoAtivo | ContratacaoService.Domain/Specifications/ContratoAtivoSpecification.cs:14-17 | IsSatisfiedBy: the status is Ativo; ContratoAtivoConcorda proves it agrees with ToExpression |
| ContratacaoServicos.PropostaAprovada | ContratacaoService.Domain/Specifications/PropostaAprovadaSpecification.cs:14-17 | IsSatisfiedBy: the status is Aprovada; PropostaAprovadaConcorda proves it agrees with ToExpression and the validation service |
| ContratacaoServicos.PropostaAprovadaExpressao | ContratacaoService.Domain/Specifications/PropostaAprovadaSpecification.cs:9-12 | ToExpression holds exactly for Aprovada |
| ContratacaoServicos.ValidarPropostaAprovada | ContratacaoService.Domain/Services/PropostaValidationService.cs:9-15 | false for null, otherwise true exactly when the proposal is Aprovada |
| ContratacaoServicos.PropostaAprovadaConcorda | ContratacaoService.Domain/Services/PropostaValidationService.cs:14 | the service, IsSatisfiedBy and ToExpression agree on every proposal, and EmAnalise and Rejeitada fail them |
| ContratacaoValidacao.ValidarCriarContrato | ContratacaoService.Application/UseCases/CriarContrato/CriarContratoValidator.cs:9-13 | valid iff PropostaId ≠ Guid.Empty; every failure is on PropostaId, and an empty id raises both declared messages |
| ContratacaoSaga.Mediador.constructor | ContratacaoService.Application/Saga/SagaSteps/NotificarContratoStep.cs:30 | a mediator that has delivered nothing |
| ContratacaoSaga.Mediador.Publicar | ContratacaoService.Application/Saga/SagaSteps/NotificarContratoStep.cs:30 | delivers exactly the event, or fails and delivers nothing |
| ContratacaoSaga.VerificarProposta | ContratacaoService.Application/Saga/SagaSteps/VerificarPropostaStep.cs:22-42 | a client error propagates; null gives ContratoInvalidoException "Proposta {id} não encontrada"; a non-approved proposal gives PropostaNaoAprovadaException; it succeeds iff the proposal is Aprovada, returning it |
| ContratacaoSaga.VerificarAceitaAprovadas | ContratacaoService.Application/Saga/SagaSteps/VerificarPropostaStep.cs:34-38 | the step accepts exactly the proposals PropostaAprovadaSpecification accepts |
| ContratacaoSaga.CriarContrato | ContratacaoService.Application/Saga/SagaSteps/CriarContratoStep.cs:25-35 | an empty id throws before anything is staged; otherwise one insert and one commit: on success the fresh Ativo contract is returned and its row committed, on failure the commit error propagates |
| ContratacaoSaga.CompensarCriacao | ContratacaoService.Application/Saga/SagaSteps/CriarContratoStep.cs:37-49 | no contract means no effect; a cancelled one throws before any update; otherwise the contract is cancelled, updated and committed once |
| ContratacaoSaga.NotificarContrato | ContratacaoService.Application/Saga/SagaSteps/NotificarContratoStep.cs:21-34 | publishes exactly one ContratoCriadoEvent(Id, PropostaId, DataContratacao) and returns true, or propagates the publish error with nothing delivered |
| ContratacaoSaga.CompensacaoEncontraContrato | ContratacaoService.Application/Saga/SagaSteps/CriarContratoStep.cs:41-46 | right after the creation commit, the compensation finds that same contract, and its cancellation replaces it in place |
| ContratacaoSaga.ExecutarSaga | ContratacaoService.Application/Saga/ContratacaoSaga.cs:27-56 | a failed verification touches nothing; a failed create neither compensates nor publishes; success returns the committed contract with one event published; a failed publish cancels the contract exactly once and rethrows the publish error, unless the compensation commit fails and its error escapes instead |
| Transacao.IsQuery | PropostaService.Application/Behaviors/TransactionBehavior.cs:33-36 | true exactly when the type name ends in "Query" |
| Transacao.IsQueryExemplos | ContratacaoService.Application/Behaviors/TransactionBehavior.cs:18 | query types are recognised; command types, "Query " and "query" are not |
| Transacao.HandleContratacao | ContratacaoService.Application/Behaviors/TransactionBehavior.cs:16-33 | the outcome of next is returned unchanged; RollbackAsync is called once exactly when a non-query fails, and the unit of work's table and staged changes are left as they are |
| Transacao.HandleProposta | PropostaService.Application/Behaviors/TransactionBehavior.cs:16-31 | the outcome of next is returned unchanged; RollbackAsync is called once exactly when a non-query fails, and the unit of work's table and staged changes are left as they are |
| Text.FirstNonWhite | PropostaService.Domain/ValueObjects/Cpf.cs:34 | the first index at or after i that is not white space, with white space only before it |
| Text.EndOfNonWhite | PropostaService.Domain/ValueObjects/Cpf.cs:34 | the end of the last non-white character before j, with white space only after it |
| Text.TrimOffset | PropostaService.Domain/ValueObjects/TipoSeguro.cs:27 | where Trim's result starts lies within the input |
| Text.TrimIsSlice | PropostaService.Domain/ValueObjects/TipoSeguro.cs:27 | Trim yields a contiguous slice of its input, with no white space at either end |
| Text.TrimMembers | PropostaService.Domain/ValueObjects/Cpf.cs:34 | every character Trim keeps occurs in the input |
| Text.TrimEmptyIff | PropostaService.Domain/Entities/Cliente.cs:24-31 | Trim is empty exactly on white-space-only input |
| Text.TrimNoOp | PropostaService.Domain/Entities/Cliente.cs:31 | Trim leaves a string with no outer white space alone |
| Text.Remove | PropostaService.Domain/ValueObjects/Cpf.cs:34 | Replace(c, "") keeps exactly the characters other than c |
| Text.RemoveConcat | PropostaService.Domain/ValueObjects/Cpf.cs:34 | removal distributes over concatenation |
| Text.RemoveAbsent | PropostaService.Domain/ValueObjects/Cpf.cs:34 | removing a character that does not occur changes nothing |
| Text.FoldChar | PropostaService.Domain/ValueObjects/TipoSeguro.cs:38 | lower-case ASCII letters map to upper case, and every other character is kept |
| Text.Fold | PropostaService.Domain/ValueObjects/TipoSeguro.cs:38 | the fold is applied position by position and keeps the length |
| Text.EqualsIgnoreCaseIsEquivalence | PropostaService.Domain/ValueObjects/TipoSeguro.cs:38 | OrdinalIgnoreCase comparison is an equivalence relation |
| Text.Utf16Length | PropostaService.Domain/ValueObjects/TipoSeguro.cs:24 | string.Length counts UTF-16 code units: at least the number of characters, at most twice it, and equal to it when every character is in the Basic Multilingual Plane |
| Text.TrimUtf16Length | PropostaService.Domain/Entities/Cliente.cs:31 | Trim never makes a text longer in code units |
| Sequences.FilterMembers | PropostaService.Infrastructure/Persistence/Repositories/PropostaRepository.cs:31-37 | Where keeps exactly the elements satisfying the predicate |
| Sequences.FilterSubMultiset | PropostaService.Infrastructure/Persistence/Repositories/PropostaRepository.cs:31-37 | Where never duplicates an element |
| Sequences.Find | ContratacaoService.Infrastructure/Persistence/Repositories/ContratoRepository.cs:24-31 | FirstOrDefault returns a satisfying element, or null exactly when there is none |
| Sequences.FindIsHeadOfFilter | ContratacaoService.Infrastructure/Persistence/Repositories/ContratoRepository.cs:24-31 | FirstOrDefault(p) is the head of Where(p) |
| Sequences.FindUnico | PropostaService.Infrastructure/Persistence/Repositories/PropostaRepository.cs:18-22 | when one element alone satisfies p, FirstOrDefault(p) returns it |
| Sequences.Insert | PropostaService.Infrastructure/Persistence/Repositories/PropostaRepository.cs:24-29 | insertion adds exactly one occurrence of the element |
| Sequences.SortDesc | PropostaService.Infrastructure/Persistence/Repositories/PropostaRepository.cs:24-29 | OrderByDescending is a permutation of its input |
| Sequences.InsertSorted | PropostaService.Infrastructure/Persistence/Repositories/PropostaRepository.cs:24-29 | insertion into a descending list keeps it descending |
| Sequences.SortDescSorted | PropostaService.Infrastructure/Persistence/Repositories/PropostaRepository.cs:24-29 | OrderByDescending yields a list ordered by key, greatest first |
| Sequences.SortedElements | PropostaService.Infrastructure/Persistence/Repositories/PropostaRepository.cs:24-29 | no element of a descending list has a key above the head's |
| Sequences.FilterSorted | PropostaService.Infrastructure/Persistence/Repositories/PropostaRepository.cs:31-37 | filtering a descending list keeps it descending |
| Sequences.DescendingTail | PropostaService.Infrastructure/Persistence/Repositories/PropostaRepository.cs:24-29 | the tail of a descending list is descending |
| Sequences.FilterInsert | PropostaService.Infrastructure/Persistence/Repositories/PropostaRepository.cs:31-37 | Where commutes with one insertion step |
| Sequences.FilterSortCommute | PropostaService.Infrastructure/Persistence/Repositories/PropostaRepository.cs:31-37 | Where after OrderByDescending equals OrderByDescending after Where |
| PropostaCpf.LimparCpf | PropostaService.Domain/ValueObjects/Cpf.cs:32-35 | the result contains no '.' and no '-', only characters of the input, and no outer white space |
| PropostaCpf.Algarismo | PropostaService.Domain/ValueObjects/Cpf.cs:60 | the character written for a digit 0..9 is an ASCII digit that parses back to it |
| PropostaCpf.DigitoVerificador | PropostaService.Domain/ValueObjects/Cpf.cs:57-58 | a digit 0..9 that completes the sum to a multiple of 11, or 0 when the remainder is below 2 |
| PropostaCpf.SomaPrefixo | PropostaService.Domain/ValueObjects/Cpf.cs:54-55 | the weighted sum depends only on the digits it reads |
| PropostaCpf.ValidarCpf | PropostaService.Domain/ValueObjects/Cpf.cs:37-73 | the two-loop computation returns exactly CpfValido: 11 ASCII digits, not all equal, ending in both mod-11 check digits (weights 10..2, then 11..2) |
| PropostaCpf.Criar | PropostaService.Domain/ValueObjects/Cpf.cs:19-30 | white space is refused first with "CPF não pode ser vazio"; it succeeds iff the cleaned text is a valid CPF, stored as Valor; otherwise "CPF inválido" |
| PropostaCpf.CpfCriadoValido | PropostaService.Domain/ValueObjects/Cpf.cs:26-29 | every created Cpf holds 11 ASCII digits satisfying the check-digit rule |
| PropostaCpf.FormatarCpf | PropostaService.Domain/ValueObjects/Cpf.cs:75-78 | the result is "ddd.ddd.ddd-dd" with the groups taken in order from Valor |
| PropostaCpf.DigitosSemPontuacao | PropostaService.Domain/ValueObjects/Cpf.cs:34 | cleaning leaves a digit string as it is |
| PropostaCpf.RemoveAnexo | PropostaService.Domain/ValueObjects/Cpf.cs:34 | removing from an extended string extends the earlier removal |
| PropostaCpf.TirarPontos | PropostaService.Domain/ValueObjects/Cpf.cs:34 | removing the dots of a formatted number leaves its digits and the hyphen |
| PropostaCpf.TirarHifen | PropostaService.Domain/ValueObjects/Cpf.cs:34 | removing the hyphen then leaves the digits alone |
| PropostaCpf.LimparFormatado | PropostaService.Domain/ValueObjects/Cpf.cs:32-35 | cleaning a formatted number gives back its 11 digits |
| PropostaCpf.FormatarIdaEVolta | PropostaService.Domain/ValueObjects/Cpf.cs:75-78 | Criar(FormatarCpf(c)) == c and Criar(c.Valor) == c for every valid Cpf |
| PropostaCpf.CriarLimpo | PropostaService.Domain/ValueObjects/Cpf.cs:19-30 | a text that does not start with white space and cleans to a valid number creates exactly that Cpf |
| PropostaCpf.Igual | PropostaService.Domain/ValueObjects/Cpf.cs:80-84 | Equals is false for null and otherwise compares Valor |
| PropostaCpf.OpIgual | PropostaService.Domain/ValueObjects/Cpf.cs:101-105 | == is null-safe and holds exactly for equal values |
| PropostaCpf.OpDiferente | PropostaService.Domain/ValueObjects/Cpf.cs:107-110 | != holds exactly when the operands differ |
| PropostaCpf.ToString | PropostaService.Domain/ValueObjects/Cpf.cs:96-99 | ToString is Valor |
| PropostaCpf.GrafiasIguais | PropostaService.Domain/ValueObjects/Cpf.cs:80-94 | the formatted and bare spellings create equal Cpfs with equal hash codes |
| PropostaCpf.HashCode | PropostaService.Domain/ValueObjects/Cpf.cs:91-94 | GetHashCode is the string hash of Valor; GrafiasIguais proves the formatted and bare spellings hash equally |
| PropostaCpf.FormatarGrupos | PropostaService.Domain/ValueObjects/Cpf.cs:75-78 | formatting eleven characters given as four groups joins them with '.', '.' and '-' |
| PropostaCpf.FormatacaoValido | PropostaService.Tests/Unit/Domain/ValueObjects/CpfTests.cs:10-19 | "123.456.789-09" is the formatting of 12345678909 |
| PropostaCpf.FormatacaoDigitoErrado | PropostaService.Tests/Unit/Domain/ValueObjects/CpfTests.cs:10-43 | "123.456.789-00" is the formatting of 12345678900 |
| PropostaCpf.ExemploValido | PropostaService.Tests/Unit/Domain/ValueObjects/CpfTests.cs:10-19 | "123.456.789-09" is accepted and stored as 12345678909 |
| PropostaCpf.FormatadoInvalido | PropostaService.Domain/ValueObjects/Cpf.cs:26-27 | a formatted 11-digit number that fails the check is refused with "CPF inválido" |
| PropostaCpf.ExemploDigitoErrado | PropostaService.Tests/Unit/Domain/ValueObjects/CpfTests.cs:10-43 | "123.456.789-00" is refused with "CPF inválido" |
| PropostaCpf.ExemploZeros | PropostaService.Tests/Unit/Domain/ValueObjects/CpfTests.cs:10-43 | "000.000.000-00" is refused with "CPF inválido" |
| PropostaCpf.ExemploUns | PropostaService.Tests/Unit/Domain/ValueObjects/CpfTests.cs:10-43 | "111.111.111-11" is refused with "CPF inválido" |
| PropostaDinheiro.Criar | PropostaService.Domain/ValueObjects/Dinheiro.cs:19-25 | negative amounts give "Valor monetário não pode ser negativo"; zero and positive amounts are kept exactly |
| PropostaDinheiro.ZeroEhMinimo | PropostaService.Domain/ValueObjects/Dinheiro.cs:27 | Zero is Criar(0) and no amount lies below it |
| PropostaDinheiro.Somar | PropostaService.Domain/ValueObjects/Dinheiro.cs:29-32 | the sum is at least each operand |
| PropostaDinheiro.Subtrair | PropostaService.Domain/ValueObjects/Dinheiro.cs:34-41 | a negative result throws "Resultado da subtração não pode ser negativo"; otherwise the result plus b is a |
| PropostaDinheiro.SomarSubtrair | PropostaService.Domain/ValueObjects/Dinheiro.cs:29-41 | a.Somar(b).Subtrair(b) == a, and adding back undoes a successful subtraction |
| PropostaDinheiro.SomarMonoide | PropostaService.Domain/ValueObjects/Dinheiro.cs:27-32 | Somar is commutative and associative, with Zero as its unit |
| PropostaDinheiro.Igual | PropostaService.Domain/ValueObjects/Dinheiro.cs:43-47 | Equals is false for null and otherwise compares Valor |
| PropostaDinheiro.OpIgual | PropostaService.Domain/ValueObjects/Dinheiro.cs:64-68 | == is null-safe and holds exactly for equal amounts |
| PropostaDinheiro.OpDiferente | PropostaService.Domain/ValueObjects/Dinheiro.cs:70-73 | != holds exactly when the operands differ |
| PropostaDinheiro.OrdemTotal | PropostaService.Domain/ValueObjects/Dinheiro.cs:75-93 | <, ==, > form a trichotomy; <= and >= are the matching unions; > is < with the operands swapped |
| PropostaDinheiro.Maior | PropostaService.Domain/ValueObjects/Dinheiro.cs:75-78 | operator >: defined on Valor; OrdemTotal proves it is < with the operands swapped |
| PropostaDinheiro.Menor | PropostaService.Domain/ValueObjects/Dinheiro.cs:80-83 | operator <: defined on Valor; OrdemTotal proves that exactly one of <, == and > holds |
| PropostaDinheiro.MaiorOuIgual | PropostaService.Domain/ValueObjects/Dinheiro.cs:85-88 | operator >=: defined on Valor; OrdemTotal proves it is > or == |
| PropostaDinheiro.MenorOuIgual | PropostaService.Domain/ValueObjects/Dinheiro.cs:90-93 | operator <=: defined on Valor; OrdemTotal proves it is < or == |
| PropostaDinheiro.IguaisTemMesmoHash | PropostaService.Domain/ValueObjects/Dinheiro.cs:54-57 | equal amounts have equal hash codes |
| PropostaDinheiro.HashCode | PropostaService.Domain/ValueObjects/Dinheiro.cs:54-57 | GetHashCode is the decimal hash of Valor; IguaisTemMesmoHash proves equal amounts hash equally |
| PropostaTipoSeguro.Criar | PropostaService.Domain/ValueObjects/TipoSeguro.cs:19-28 | white space gives "Tipo de seguro não pode ser vazio"; it succeeds iff the raw length in UTF-16 code units (string.Length) is 3..50; the stored value is the trimmed input |
| PropostaTipoSeguro.CriadoAparado | PropostaService.Domain/ValueObjects/TipoSeguro.cs:24-27 | a created value is non-empty, at most 50 code units long, without outer white space, and stable under Trim |
| PropostaTipoSeguro.PodeFicarCurto | PropostaService.Domain/ValueObjects/TipoSeguro.cs:24-27 | " ab" is accepted and stored as "ab", which is shorter than 3 |
| PropostaTipoSeguro.CriarSemEspacos | PropostaService.Domain/ValueObjects/TipoSeguro.cs:19-28 | a text of 3..50 characters without outer white space is stored unchanged |
| PropostaTipoSeguro.ConstanteCriavel | PropostaService.Domain/ValueObjects/TipoSeguro.cs:30-33 | Vida, Auto, Residencial and Saude are what Criar yields for their texts |
| PropostaTipoSeguro.Igual | PropostaService.Domain/ValueObjects/TipoSeguro.cs:35-39 | Equals is false for null and otherwise compares the case-folded texts |
| PropostaTipoSeguro.OpIgual | PropostaService.Domain/ValueObjects/TipoSeguro.cs:56-60 | == is null-safe and otherwise agrees with Equals |
| PropostaTipoSeguro.OpDiferente | PropostaService.Domain/ValueObjects/TipoSeguro.cs:62-65 | != holds for null against non-null, and for two values whose case-folded texts differ |
| PropostaTipoSeguro.ToString | PropostaService.Domain/ValueObjects/TipoSeguro.cs:51-54 | ToString is Valor |
| PropostaTipoSeguro.IgualdadeEquivalencia | PropostaService.Domain/ValueObjects/TipoSeguro.cs:35-49 | equality is reflexive, symmetric and transitive, and equal values hash equally |
| PropostaTipoSeguro.HashCode | PropostaService.Domain/ValueObjects/TipoSeguro.cs:46-49 | GetHashCode(OrdinalIgnoreCase) is a hash of the case-folded Valor; IgualdadeEquivalencia proves that values equal ignoring case hash equally |
| PropostaTipoSeguro.CaixaIndiferente | PropostaService.Domain/ValueObjects/TipoSeguro.cs:38 | "vida" equals Vida and "auto" does not |
| PropostaCliente.ValidarNome | PropostaService.Domain/Entities/Cliente.cs:24-28 | accepts iff the name is not white space and its raw length in UTF-16 code units (string.Length) is 3..200, with the two messages in that order |
| PropostaCliente.NomeAceitoArmazenavel | PropostaService.Domain/Entities/Cliente.cs:31 | an accepted name, trimmed, is non-empty, at most 200 code units long and has no outer white space |
| PropostaCliente.NomeForaDoBmp | PropostaService.Domain/Entities/Cliente.cs:27 | a two-character name with one character outside the Basic Multilingual Plane has Length 3 and is accepted |
| PropostaCliente.Cliente.Materializar | PropostaService.Domain/Entities/Cliente.cs:16-20 | the customer holds exactly the given name and Cpf |
| PropostaCliente.Cliente.Criar | PropostaService.Domain/Entities/Cliente.cs:22-32 | the name checks come before Cpf.Criar, whose errors propagate unchanged; on success the trimmed name and the created Cpf, satisfying the invariant |
| PropostaCliente.Cliente.AtualizarNome | PropostaService.Domain/Entities/Cliente.cs:34-43 | same checks; on failure the name is kept, on success it is the trimmed input; the invariant is preserved |
| PropostaSeguro.ValidarValores | PropostaService.Domain/Entities/Seguro.cs:33-42 | accepts iff 0 < prêmio < cobertura; each refusal carries the message of the first failing check, in source order |
| PropostaSeguro.Seguro.Materializar | PropostaService.Domain/Entities/Seguro.cs:21-27 | the insurance holds exactly the given fields |
| PropostaSeguro.Seguro.Criar | PropostaService.Domain/Entities/Seguro.cs:29-45 | TipoSeguro errors come first, then the amount errors; on success 0 < prêmio < cobertura with the given values |
| PropostaSeguro.Seguro.AtualizarValores | PropostaService.Domain/Entities/Seguro.cs:47-63 | a failed update changes neither amount; a successful one writes both and establishes 0 < prêmio < cobertura |
| PropostaProposta.AprovarStatus | PropostaService.Domain/Entities/Proposta.cs:49-59 | Aprovar succeeds only from EmAnalise, to Aprovada, and otherwise throws the message for Aprovada or Rejeitada |
| PropostaProposta.RejeitarStatus | PropostaService.Domain/Entities/Proposta.cs:61-71 | Rejeitar succeeds only from EmAnalise, to Rejeitada, and otherwise throws the message for Rejeitada or Aprovada |
| PropostaProposta.ProximoStatus | PropostaService.Domain/Entities/Proposta.cs:73-91 | succeeds iff the request is the current status, an undeclared value, or the proposal is in analysis; a change only leaves EmAnalise and never returns to it |
| PropostaProposta.DecididaPermanece | PropostaService.Domain/Entities/Proposta.cs:49-91 | no series of AlterarStatus calls leaves Aprovada or Rejeitada |
| PropostaProposta.EmAnaliseSoNoInicio | PropostaService.Domain/Entities/Proposta.cs:73-91 | a series of calls ends in EmAnalise only if it started there |
| PropostaProposta.GuardaAtualizacao | PropostaService.Domain/Entities/Proposta.cs:93-113 | updates are allowed exactly in EmAnalise, with the message for Aprovada or Rejeitada otherwise |
| PropostaProposta.ErroDeCriacao | PropostaService.Domain/Entities/Proposta.cs:37-47 | creation fails exactly when the name, the CPF, the insurance kind or the amounts are refused |
| PropostaProposta.LinhaCriada | PropostaService.Domain/Entities/Proposta.cs:37-47 | a created proposal is EmAnalise, created now, with a storable name, a valid CPF and 0 < prêmio < cobertura |
| PropostaProposta.Proposta.Nova | PropostaService.Domain/Entities/Proposta.cs:43-44 | a new proposal is EmAnalise with exactly one PropostaCriadaEvent(Id, Nome, Cpf) |
| PropostaProposta.Proposta.Materializar | PropostaService.Domain/Entities/Proposta.cs:19-26 | the materialised aggregate is saved as exactly the row it was read from, with no events |
| PropostaProposta.Proposta.Criar | PropostaService.Domain/Entities/Proposta.cs:37-47 | the first failing check's error is returned; otherwise a valid aggregate whose row is LinhaCriada, with one creation event |
| PropostaProposta.Proposta.Aprovar | PropostaService.Domain/Entities/Proposta.cs:49-59 | a failure leaves status and events unchanged; success sets Aprovada and appends one PropostaAprovadaEvent |
| PropostaProposta.Proposta.Rejeitar | PropostaService.Domain/Entities/Proposta.cs:61-71 | a failure leaves status and events unchanged; success sets Rejeitada and appends one PropostaRejeitadaEvent |
| PropostaProposta.Proposta.AlterarStatus | PropostaService.Domain/Entities/Proposta.cs:73-91 | the status follows ProximoStatus; one event is appended exactly when it changes; a failure changes nothing |
| PropostaProposta.Proposta.AtualizarCliente | PropostaService.Domain/Entities/Proposta.cs:93-102 | refused outside EmAnalise with the name kept; otherwise Cliente.AtualizarNome; the customer invariant is preserved |
| PropostaProposta.Proposta.AtualizarSeguro | PropostaService.Domain/Entities/Proposta.cs:104-113 | refused outside EmAnalise with the amounts kept; otherwise Seguro.AtualizarValores; the insurance invariant is preserved |
| PropostaProposta.Proposta.LimparEventos | PropostaService.Domain/Entities/Proposta.cs:120-123 | the event list is emptied and the status kept |
| PropostaServicos.ObterErrosValidacao | PropostaService.Domain/Services/PropostaValidationService.cs:13-33 | null gives only "Proposta não pode ser nula"; otherwise exactly the messages whose condition holds, in the order missing Cliente, missing Seguro, DataCriacao later than now, each once |
| PropostaServicos.ValidarProposta | PropostaService.Domain/Services/PropostaValidationService.cs:8-11 | true exactly when the error list is empty: non-null, with Cliente and Seguro, not created in the future |
| PropostaServicos.CriadaEhValida | PropostaService.Tests/Unit/Domain/Services/PropostaValidationServiceTests.cs:18-44 | a proposal from Proposta.Criar is valid from its creation instant on |
| PropostaServicos.PropostaAprovadaExpressao | PropostaService.Domain/Specifications/PropostaAprovadaSpecification.cs:9-12 | ToExpression holds on a row exactly when its status is Aprovada |
| PropostaServicos.PropostaAprovadaSatisfeita | PropostaService.Domain/Specifications/PropostaAprovadaSpecification.cs:14-17 | IsSatisfiedBy: the status is Aprovada; PropostaAprovadaConcorda proves it agrees with ToExpression |
| PropostaServicos.PropostaAprovadaConcorda | PropostaService.Domain/Specifications/PropostaAprovadaSpecification.cs:9-17 | IsSatisfiedBy and ToExpression agree on every proposal; EmAnalise and Rejeitada do not satisfy it |
| PropostaServicos.AprovadaAposAprovar | PropostaService.Tests/Unit/Domain/Specifications/PropostaAprovadaSpecificationTests.cs:18-26 | a proposal in analysis satisfies the specification after Aprovar |
| PropostaValidacao.Regra | PropostaService.Application/UseCases/CriarProposta/CriarPropostaValidator.cs:9-31 | a rule reports one failure on its property exactly when its check fails |
| PropostaValidacao.CpfCriavelTemFormato | PropostaService.Application/UseCases/CriarProposta/CriarPropostaValidator.cs:34-51 | anything Cpf.Criar accepts passes the validator's CPF shape check |
| PropostaValidacao.FormatadoTemFormato | PropostaService.Application/UseCases/CriarProposta/CriarPropostaValidator.cs:34-51 | a formatted, non-repeated 11-digit number passes the shape check whatever its check digits |
| PropostaValidacao.FormatoNaoBasta | PropostaService.Application/UseCases/CriarProposta/CriarPropostaValidator.cs:34-51 | "123.456.789-00" passes the shape check although Cpf.Criar refuses it |
| PropostaValidacao.FormatadoValidoTemFormato | PropostaService.Tests/Unit/Application/Validators/CriarPropostaValidatorTests.cs:236-250 | "123.456.789-09" raises no CPF failure |
| PropostaValidacao.RegrasTexto | PropostaService.Application/UseCases/CriarProposta/CriarPropostaValidator.cs:9-21 | a NotEmpty/MinimumLength/MaximumLength chain passes iff the text is not white space and its raw length in UTF-16 code units is in bounds; every failure is on the property |
| PropostaValidacao.RegrasCpf | PropostaService.Application/UseCases/CriarProposta/CriarPropostaValidator.cs:14-16 | the CPF rules pass iff the shape check does; "CPF é obrigatório" exactly for white space, "CPF inválido" exactly when the shape fails |
| PropostaValidacao.RegrasValores | PropostaService.Application/UseCases/CriarProposta/CriarPropostaValidator.cs:23-31 | the amount rules pass iff both are positive and prêmio < cobertura; the whole-command failure appears exactly when prêmio ≥ cobertura |
| PropostaValidacao.ValidarCriarProposta | PropostaService.Application/UseCases/CriarProposta/CriarPropostaValidator.cs:9-31 | no failure iff name 3..200, CPF shape, kind 3..50, both amounts positive and prêmio < cobertura |
| PropostaValidacao.CriavelPassaValidador | PropostaService.Application/UseCases/CriarProposta/CriarPropostaValidator.cs:9-51 | every command Proposta.Criar accepts passes the validator |
| PropostaValidacao.ValidadoSoFalhaNoDigito | PropostaService.Application/UseCases/CriarProposta/CriarPropostaValidator.cs:34-51 | a validated command fails in Proposta.Criar only with "CPF inválido" |
| PropostaValidacao.RegrasNomeOpcional | PropostaService.Application/UseCases/AtualizarProposta/AtualizarPropostaValidator.cs:12-17 | the 3..200 bounds, in UTF-16 code units, apply only to a supplied, non-blank name; failures are on NomeCliente |
| PropostaValidacao.RegraSeInformado | PropostaService.Application/UseCases/AtualizarProposta/AtualizarPropostaValidator.cs:19-29 | an absent amount passes; a supplied one fails with the single message iff not positive |
| PropostaValidacao.RegraComparacao | PropostaService.Application/UseCases/AtualizarProposta/AtualizarPropostaValidator.cs:31-36 | the comparison fails only when both amounts are supplied and prêmio ≥ cobertura |
| PropostaValidacao.ValidarAtualizarProposta | PropostaService.Application/UseCases/AtualizarProposta/AtualizarPropostaValidator.cs:9-36 | no failure iff the id is non-empty and each optional rule holds when its field is supplied; the comparison failure needs both amounts |
| PropostaValidacao.UmValorSemComparacao | PropostaService.Tests/Unit/Application/Validators/AtualizarPropostaValidatorTests.cs:161-189 | supplying one amount never yields the comparison failure |
| PropostaValidacao.SoIdValido | PropostaService.Application/UseCases/AtualizarProposta/AtualizarPropostaValidator.cs:9-36 | a command with only a non-empty id passes |
| PropostaValidacao.ValidarAlterarStatus | PropostaService.Application/UseCases/AlterarStatusProposta/AlterarStatusPropostaValidator.cs:9-13 | passes iff the id is non-empty and the status is a declared member, each failure with its own message |
| PropostaValidacao.TodoStatusDeclaradoAceito | PropostaService.Tests/Unit/Application/Validators/AlterarStatusPropostaValidatorTests.cs:45-59 | every declared status passes, whatever the transition would be |
| PropostaRepositorio.Substituir | PropostaService.Infrastructure/Persistence/Repositories/PropostaRepository.cs:44-48 | the row with the updated Id is replaced and every other row is kept in place |
| PropostaRepositorio.Gravar | PropostaService.Infrastructure/Persistence/Configurations/PropostaConfiguration.cs:15 | an insert fails iff the Id exists, an update iff it does not; success keeps Ids unique and never shrinks the table |
| PropostaRepositorio.GravarTodos | PropostaService.Infrastructure/Persistence/Repositories/UnitOfWork.cs:15-18 | a successful batch leaves Ids unique |
| PropostaRepositorio.Confirmar | PropostaService.Infrastructure/Persistence/Repositories/UnitOfWork.cs:15-18 | a database failure aborts with that error, otherwise the staged batch is written; a commit keeps Ids unique |
| PropostaRepositorio.GravarTodosPreserva | PropostaService.Infrastructure/Persistence/Repositories/UnitOfWork.cs:15-18 | a committed batch never removes a stored proposal |
| PropostaRepositorio.InsercaoVisivel | PropostaService.Infrastructure/Persistence/Repositories/PropostaRepository.cs:39-42 | an added proposal with a new Id commits and is then found by Id |
| PropostaRepositorio.AtualizacaoPersiste | PropostaService.Infrastructure/Persistence/Repositories/PropostaRepository.cs:44-48 | an update of a stored proposal commits, and lookup by Id returns the new row |
| PropostaRepositorio.PropostaRepository.constructor | PropostaService.Infrastructure/Persistence/Repositories/PropostaRepository.cs:1-48 | a repository over a keyed table, with nothing staged and no calls made |
| PropostaRepositorio.PropostaRepository.ObterPorId | PropostaService.Infrastructure/Persistence/Repositories/PropostaRepository.cs:18-22 | the committed proposal with that Id, or null exactly when none has it |
| PropostaRepositorio.PropostaRepository.ObterTodas | PropostaService.Infrastructure/Persistence/Repositories/PropostaRepository.cs:24-29 | a permutation of the committed rows, newest DataCriacao first |
| PropostaRepositorio.PropostaRepository.ObterPorStatus | PropostaService.Infrastructure/Persistence/Repositories/PropostaRepository.cs:31-37 | exactly the committed proposals with that status, in the order ObterTodas lists them |
| PropostaRepositorio.PropostaRepository.Adicionar | PropostaService.Infrastructure/Persistence/Repositories/PropostaRepository.cs:39-42 | stages an insert of the proposal's row; nothing is committed |
| PropostaRepositorio.PropostaRepository.Atualizar | PropostaService.Infrastructure/Persistence/Repositories/PropostaRepository.cs:44-48 | stages an update of the proposal's row; nothing is committed |
| PropostaRepositorio.PropostaRepository.Commit | PropostaService.Infrastructure/Persistence/Repositories/UnitOfWork.cs:15-18 | all or nothing: success applies the batch and clears it, failure changes neither; Ids stay unique |
| PropostaRepositorio.PropostaRepository.Rollback | PropostaService.Infrastructure/Persistence/Repositories/UnitOfWork.cs:20-23 | records the call and changes neither the table nor the staged changes |
| PropostaHandlers.CriarProposta | PropostaService.Application/UseCases/CriarProposta/CriarPropostaHandler.cs:20-34 | a domain error returns before anything is staged; otherwise one add and one commit of the created row, returning its non-empty Id; a failed commit leaves the table as it was and the insert staged |
| PropostaHandlers.AdicionarEConfirmar | PropostaService.Application/UseCases/CriarProposta/CriarPropostaHandler.cs:30-31 | one AdicionarAsync and one CommitAsync, all or nothing; on failure the table is unchanged and the insert stays staged |
| PropostaHandlers.AtualizarEConfirmar | PropostaService.Application/UseCases/AtualizarProposta/AtualizarPropostaHandler.cs:37-38 | one AtualizarAsync and one CommitAsync, all or nothing; on failure the table is unchanged and the update stays staged |
| PropostaHandlers.AtualizarPreservaNaoInformados | PropostaService.Tests/Unit/Application/UseCases/AtualizarPropostaHandlerTests.cs:70-119 | fields not supplied keep their values; id, CPF, kind, creation date and status never change |
| PropostaHandlers.AtualizarDecidida | PropostaService.Tests/Unit/Application/UseCases/AtualizarPropostaHandlerTests.cs:121-140 | a decided proposal cannot be renamed or repriced; an empty command is accepted |
| PropostaHandlers.AtualizarMantemInvariantes | PropostaService.Application/UseCases/AtualizarProposta/AtualizarPropostaHandler.cs:27-35 | an accepted update keeps a storable name and 0 < prêmio < cobertura |
| PropostaHandlers.AplicarAtualizacao | PropostaService.Application/UseCases/AtualizarProposta/AtualizarPropostaHandler.cs:27-35 | the name first, then the amounts only when both are given; the aggregate ends as the row update says, or the first error is returned, with the aggregate unchanged when the name step fails and renamed when the amounts step fails |
| PropostaHandlers.AtualizarNomeLinha | PropostaService.Application/UseCases/AtualizarProposta/AtualizarPropostaHandler.cs:27-30 | the name step fails exactly when a non-blank name is given and the status guard or the name checks refuse it; on success only the name may change |
| PropostaHandlers.AtualizarValoresLinha | PropostaService.Application/UseCases/AtualizarProposta/AtualizarPropostaHandler.cs:32-35 | the amounts step fails exactly when both amounts are given and the status guard refuses or 0 < prêmio < cobertura fails; on success only the two amounts may change, to the given values |
| PropostaHandlers.AtualizarLinha | PropostaService.Application/UseCases/AtualizarProposta/AtualizarPropostaHandler.cs:27-35 | the name step, then the amounts step, stopping at the first error; AtualizarPreservaNaoInformados, AtualizarDecidida and AtualizarMantemInvariantes state its properties |
| PropostaHandlers.AtualizarProposta | PropostaService.Application/UseCases/AtualizarProposta/AtualizarPropostaHandler.cs:20-41 | an unknown Id throws "Proposta com ID {id} não encontrada" with nothing staged; a domain error stages nothing; otherwise one update and one commit, and a failed commit leaves the update staged |
| PropostaHandlers.NaoEncontrada | PropostaService.Application/UseCases/AtualizarProposta/AtualizarPropostaHandler.cs:25 | the PropostaInvalidaException "Proposta com ID {id} não encontrada", also thrown at AlterarStatusPropostaHandler.cs:25; AtualizarProposta and AlterarStatusProposta prove it is raised exactly for an unknown Id, with nothing staged |
| PropostaHandlers.AlterarStatusLinha | PropostaService.Application/UseCases/AlterarStatusProposta/AlterarStatusPropostaHandler.cs:27 | the stored row changes only in status, exactly as AlterarStatus decides |
| PropostaHandlers.AlterarStatusProposta | PropostaService.Application/UseCases/AlterarStatusProposta/AlterarStatusPropostaHandler.cs:20-33 | an unknown Id throws with nothing staged; an illegal move throws before the update; otherwise one update and one commit, and a failed commit leaves the update staged |
| PropostaHandlers.AlterarStatusCasos | PropostaService.Tests/Unit/Application/UseCases/AlterarStatusPropostaHandlerTests.cs:87-104 | the current status is accepted with the row unchanged, and still committed; a decided proposal cannot go back to analysis |

## Left out

- HTTP hosting, the controllers, the middlewares, Swagger and CORS. These are request routing and host start-up.
- The proposal HTTP client and the RabbitMQ publisher, consumer and initializer. The client's answer is the parameter `ClienteProposta`, with a non-2xx answer as null. Publishing is `Mediador.Publicar`, with a failure given as a parameter.
- Entity Framework plumbing: the DbContexts, migrations, change tracking and identity resolution. A stored entity is a value row. A query builds a new object from it (`Materializar`).
- The keys the configuration files declare are kept as the store invariant `Unicos`. Nothing else of the configuration files is modelled.
- The clock and `Guid.NewGuid()` are parameters. The model does not pick a fresh Id itself.
- The hash and text of a `Guid`, `string` and `decimal` are caller-supplied functions. `Dinheiro.ToString` is left out: it formats with "C2" under the current culture.
- `Equals(object)` overloads are left out. They cast and then delegate to the typed `Equals`, which is modelled.
- `decimal` is Dafny's exact `real`. Overflow and the 28-digit precision are not modelled.
- Text.IsWhiteSpace follows the Unicode white-space set of `char.IsWhiteSpace`.
- Text.IsAsciiDigit: the model accepts only '0'..'9' as digits. `char.IsDigit` also accepts non-ASCII Unicode decimal digits, both in `Cpf.ValidarCpf` (`Cpf.cs:42`) and in the `Must` rule of `CriarPropostaValidator` (`CriarPropostaValidator.cs:43`). A CPF of eleven such digits passes the C# validator, and then `int.Parse` in `Cpf.ValidarCpf` throws `FormatException`. The model does not capture that path. `PropostaValidacao.RegrasCpf` and `PropostaValidacao.ValidadoSoFalhaNoDigito` (a validated command fails in the domain only with "CPF inválido") hold under this ASCII restriction.
- Text.FoldChar: the case fold of `OrdinalIgnoreCase` covers ASCII letters only, so equality of `TipoSeguro` texts with non-ASCII letters (such as "saúde" against "SAÚDE") is not modelled.
- Null strings: only the optional command fields that may be null (`AtualizarPropostaCommand`) are `Option`. Elsewhere a null string is modelled as the empty string. Both are rejected, but for a null the validators' length rules report nothing, while for the empty string the model also lists the minimum-length failure.
- Enum numeric values: a status outside the declared members is `NaoDeclarado(code)`.
- Domain events are recorded on the aggregate. They are neither persisted nor dispatched.
- `Proposta.Nova` combines the private constructor with the first `AddDomainEvent`. `AdicionarEvento` is not a separate member.
- `ValidationBehavior` is not part of this model. Its source is not among the files.
- FluentValidation's derivation of property names is written out by hand, as the library would derive it.
- The read-side handlers and the mapping profiles only forward and map. The same goes for `CriarContratoHandler` and `ContratoApplicationService`.
- Cancellation tokens and the `OperationCanceledException` they raise are not modelled. In the saga any failure after creation is a publish failure.
- `CompensateAsync` of `VerificarPropostaStep` and `NotificarContratoStep` only logs. The saga never calls them, and the model has no member for them.
- Logging is not modelled.
- Concurrency is not modelled: two requests racing to issue a contract for one proposal. The unique index on `PropostaId` (`ContratacaoRepositorio.SegundoContratoRecusado`) is what the model keeps of it.
- An error thrown by the compensation escapes in place of the original error (`ContratacaoSaga.cs:49-54`); the model returns the compensation's error in that case.
- `UnitOfWork.RollbackAsync` does nothing (`UnitOfWork.cs:20-23`); the model's `Rollback` records the call and leaves the table and the staged changes as they are.
- PropostaRepositorio.PropostaRepository.Commit: returns no count of written entries. `SaveChangesAsync` also counts the owned Cliente, Cpf, Seguro, TipoSeguro and amount entries of each proposal, and the model's table holds one row per proposal. No caller reads the count.
- PropostaCpf.FormatarCpf: requires at least eleven characters. The `Cpf` datatype does not carry that length, but `Cpf`'s constructors are private and `Criar` only builds eleven-digit values (`PropostaCpf.CpfCriadoValido`).
- PropostaProposta.Proposta.Aprovar, Rejeitar, AlterarStatus, AtualizarCliente and AtualizarSeguro require the navigation they follow to be non-null. The first four require `cliente != null`, and `AtualizarSeguro` requires `seguro != null`. In `Proposta.cs`, `Aprovar` and `Rejeitar` set `Status` before they read `Cliente`, so on an aggregate with a null Cliente the C# throws `NullReferenceException` after the status has already changed. The model does not capture that partial update, nor the exception `AtualizarCliente` or `AtualizarSeguro` throws on a null Cliente or Seguro.
- ContratacaoContrato.Contrato.constructor: takes one instant for both DataContratacao and DataCriacao, where `Contrato.cs:21-23` reads `DateTime.UtcNow` twice, so the two may differ by a few ticks.
- The `decimal(18,2)` columns for ValorCobertura and ValorPremio (`PropostaConfiguration.cs:63,71`) round amounts to two places when they are stored. The model stores them exactly, so it does not capture a round trip through the database breaking 0 < prêmio < cobertura (for example, prêmio 0.004 stored as 0.00).
- PropostaRepositorio.PropostaRepository.ObterPorStatus and ObterTodas: proposals with the same DataCriacao come out in table order, because the model's OrderByDescending is a stable sort. The two C# methods are separate SQL queries, each with its own ORDER BY DataCriacao DESC, and SQL leaves the order of tied rows unspecified. So the clause that ObterPorStatus lists rows in ObterTodas's order is a property of the model; its membership and ordering clauses hold for the source too.
- PropostaDinheiro.Somar: its own contract only bounds the sum from below. The exact sum is stated by `SomarSubtrair` and `SomarMonoide`.
- ContratacaoServicos.ValidarContrato: the check for an empty `PropostaId` can never fail, because the `PropostaId` type rules that value out.

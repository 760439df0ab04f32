# controle_estoque — stock bookkeeping core, modelled in Dafny

This project models the core of `controle_estoque`, a Django inventory application in which companies (`Empresa`) keep stock items (`Estoque`) of products (`Produto`) in warehouses (`Armazem`). Entries and exits of stock are recorded as movements (`Movimento`), each tied to the profile (`Perfil`) of the user who recorded it. The model covers:

- **Movement recording.** `movimento_novo` validates a movement against its stock item and stores it (`Api.Banco.MovimentoNovo`).
- **Stock items.** `estoque_novo` creates an item and `estoque_edita` edits one (`Api.Banco.EstoqueNovo`, `Api.Banco.EstoqueEdita`).
- **Deletes.** The three delete handlers that turn a `PROTECT` refusal into a 400 (`Api.Banco.EstoqueExclui`, `ArmazemExclui`, `ProdutoExclui`).
- **Listing.** `estoque_lista` with its company, warehouse and product filters and its order by product name (`Api.EstoqueLista`).
- **Permission.** The company check `valida_permissao_empresa` (`Utils.ValidaPermissaoEmpresa`).
- **Validators.** The CNPJ and CEP display masks (`Mascara.Sub`, `Schemas.CnpjFormatado`, `Schemas.CepFormatado`) and the movement-type validator (`Schemas.ValidaTipo`).
- **Models.** The entity shapes, the `PROTECT` foreign keys as a referential-integrity predicate (`Modelos.Db.Integro`), the `TIPOS` codes and `Empresa.__str__`.

The database is the class `Api.Banco`, which has one `map` or `set` field per table. Its invariant `Valid()` says that every foreign key resolves. Each endpoint is a method that changes only the table it writes. Each method returns a `Result`: either the response or the error that aborts the request. The error can be:

- a 404;
- the permission failure;
- a validation error;
- a 400 with its reason;
- an uncaught exception (a server error) with its cause.

The tables hold decimals as integers: quantities in thousandths and prices in cents, each within 14 digits.

The model follows what the code does:

- **Quantity is never recomputed.** Recording a movement does not change the item's stored `quantidade`. Creating an item creates no opening movement.
- **Only a zero quantity is refused outright.** A negative quantity passes the zero check. An exit is refused only when it exceeds the stored quantity, which can itself be negative because item creation does not check it. An exit equal to the whole stock passes, because the comparison is a strict `>`.
- **No price check.** An item can be created with any price.
- **Responsible profile.** It is the caller's first profile in the item's company, and `.first()` on an unordered queryset orders by primary key. So it is the least matching profile key. A superuser with no profile in that company passes the permission check. The save then fails on the non-null `responsavel`.
- **Payload `estoque_id`.** The movement payload's `estoque_id` is overwritten by the item named in the URL.
- **Edit body.** The edit schema declares only `preco`, drops every other key and requires `preco`. So an edit changes the price and nothing else, and a body without a price is refused before the item is looked up.
- **Lookups in the listing.** A listing whose `empresa_id`, `armazem_id` or `produto_id` names no row filters on `None`. That matches no item, because those foreign keys are non-null. A superuser therefore gets an empty list for an unknown company, and anyone else is refused.
- **Masks.** Each mask is an unanchored `re.sub` over fixed-width digit groups. It rewrites every run of 14 (CNPJ) or 8 (CEP) digits, left to right. A string without such a run comes back unchanged. Formatting twice equals formatting once for strings no longer than the field (`max_length` 14 and 8). Some longer digit strings are rewritten again on a second pass: every 27-digit string under the CNPJ mask and every 15-digit string under the CEP mask.

## Model

| member | source | states |
|---|---|---|
| Mascara.Sub | controle_estoque/core/schemas.py:17-21 | the unanchored `re.sub` scan; the result is never shorter than the input |
| Mascara.SubInalteradaSse | controle_estoque/core/schemas.py:17-21 | the substitution returns its input unchanged if and only if the input holds no run of the pattern's width of digits |
| Mascara.SubSemOcorrencia | controle_estoque/core/schemas.py:17-21 | a string with no matching digit run is copied unchanged |
| Mascara.SubComOcorrenciaCresce | controle_estoque/core/schemas.py:17-21 | a string with a matching run comes back strictly longer (each rewrite inserts separators) |
| Mascara.SubDuasOcorrencias | controle_estoque/core/schemas.py:17-21 | two digit runs separated by a non-digit are both masked: the scan goes on after a match |
| Mascara.SubExata | controle_estoque/core/schemas.py:17-21 | on exactly one run of digits the substitution is the replacement template |
| Mascara.SubstituiCnpjPosicoes | controle_estoque/core/schemas.py:18-19 | the CNPJ template puts `.`, `.`, `/`, `-` at positions 2, 6, 10, 15 and the five groups in between |
| Mascara.SubstituiCnpj | controle_estoque/core/schemas.py:18-19 | a 14-digit group becomes 18 characters with the separators at 2, 6, 10, 15, digits elsewhere, and the same digits in order |
| Mascara.SubstituiCnpjDigitos | controle_estoque/core/schemas.py:18-19 | deleting the separators from a masked CNPJ gives back the 14 digits |
| Mascara.SubstituiCep | controle_estoque/core/schemas.py:45-46 | an 8-digit group becomes 9 characters with `-` at position 5; dropping it gives back the digits |
| Mascara.SubstituiSemOcorrencia | controle_estoque/core/schemas.py:17-21 | a masked group holds no further run of the pattern's width of digits |
| Mascara.SubIdempotenteCurta | controle_estoque/core/schemas.py:17-21 | on strings no longer than the pattern's width, masking twice equals masking once |
| Mascara.CnpjNaoIdempotente | controle_estoque/core/schemas.py:17-21 | for every 27-digit string, masking twice differs from masking once |
| Mascara.CepNaoIdempotente | controle_estoque/core/schemas.py:44-48 | for every 15-digit string, masking twice differs from masking once |
| Mascara.Digitos | controle_estoque/core/schemas.py:18 | the digits of a string, in order (used to state that a mask keeps the digits) |
| Modelos.Codigo | controle_estoque/core/models.py:145-153 | the stored movement code is one character (`max_length=1`) |
| Modelos.CodigosDosTipos | controle_estoque/core/models.py:145-148 | a movement type is stored as `"E"` or `"S"`, and no two types share a code |
| Modelos.EmpresaStr | controle_estoque/core/models.py:33-39 | `Empresa.__str__` starts with the name followed by `" - "` |
| Modelos.EmpresaStrCnpj | controle_estoque/core/models.py:33-39 | for a 14-digit CNPJ the label is the name, `" - "` and `NN.NNN.NNN/NNNN-NN` holding the same digits |
| Modelos.ProtecaoEstoque | controle_estoque/core/models.py:152 | removing a stock item keeps every foreign key resolving if and only if no movement references it |
| Modelos.ProtecaoPerfil | controle_estoque/core/models.py:151 | removing a profile keeps integrity if and only if no movement names it as responsible |
| Modelos.ProtecaoArmazem | controle_estoque/core/models.py:135 | removing a warehouse keeps integrity if and only if no stock item is kept in it |
| Modelos.ProtecaoProduto | controle_estoque/core/models.py:136 | removing a product keeps integrity if and only if no stock item holds it |
| Modelos.ProtecaoEmpresa | controle_estoque/core/models.py:96 | removing a company keeps integrity if and only if no warehouse and no profile belongs to it |
| Modelos.ProtecaoUnidade | controle_estoque/core/models.py:127 | removing a unit keeps integrity if and only if no product is measured in it |
| Modelos.ProtecaoMunicipio | controle_estoque/core/models.py:100-102 | removing a municipality keeps integrity if and only if no warehouse is in it; a warehouse without one references none |
| Schemas.CnpjFormatado | controle_estoque/core/schemas.py:14-22 | `cnpj_formatado` is the CNPJ mask; its contract is carried by `CnpjFormatado14`, `CnpjFormatadoInalterado` and `CnpjFormatadoIdempotente` |
| Schemas.CepFormatado | controle_estoque/core/schemas.py:41-49 | `cep_formatado` is the CEP mask; its contract is carried by `CepFormatado8`, `CepFormatadoInalterado`, `CepJaFormatadoInalterado` and `CepFormatadoIdempotente` |
| Schemas.ValidaTipo | controle_estoque/core/schemas.py:156-161 | `valida_tipo`; its contract is carried by `ValidaTipoSse` and `ValidaTipoCodigo` |
| Schemas.CnpjFormatado14 | controle_estoque/core/schemas.py:14-22 | `cnpj_formatado` on 14 digits returns 18 characters, separators after digits 2, 5, 8, 12, digits in order |
| Schemas.CnpjFormatadoInalterado | controle_estoque/core/schemas.py:14-22 | `cnpj_formatado` returns its argument unchanged exactly when it holds no run of 14 digits |
| Schemas.CnpjFormatadoIdempotente | controle_estoque/core/schemas.py:14-22 | on every value `Empresa.cnpj` can hold, `cnpj_formatado` applied twice equals once |
| Schemas.CepFormatado8 | controle_estoque/core/schemas.py:41-49 | `cep_formatado` on 8 digits returns `DDDDD-DDD`, and deleting the hyphen gives back the input |
| Schemas.CepFormatadoInalterado | controle_estoque/core/schemas.py:41-49 | `cep_formatado` returns its argument unchanged exactly when it holds no run of 8 digits |
| Schemas.CepJaFormatadoInalterado | controle_estoque/core/schemas.py:41-49 | an already masked CEP comes back unchanged |
| Schemas.CepFormatadoIdempotente | controle_estoque/core/schemas.py:41-49 | on every value `Armazem.cep` can hold, `cep_formatado` applied twice equals once |
| Schemas.ValidaTipoSse | controle_estoque/core/schemas.py:156-161 | the type is accepted exactly when it is `"E"` or `"S"`, and is returned as given; anything else is a validation error |
| Schemas.ValidaTipoCodigo | controle_estoque/core/models.py:145-148 | every stored code passes the validator as the type it encodes |
| Schemas.PrecoEnviado | controle_estoque/core/schemas.py:131-135 | the price a body sends is absent exactly when no `preco` key is sent, and otherwise is the last `preco` key |
| Schemas.EstoqueEditaDict | controle_estoque/core/schemas.py:131-135 | the parsed edit body succeeds exactly when `preco` is sent, and then holds the one key `preco` with the last price sent; otherwise a missing-field error |
| Utils.ValidaPermissaoEmpresa | controle_estoque/core/utils.py:6-15 | `valida_permissao_empresa`; its contract is carried by `SuperusuarioSemprePassa`, `PermissaoSse` and `SemEmpresaFalha`; as a function it reads the profiles and changes nothing |
| Utils.SuperusuarioSemprePassa | controle_estoque/core/utils.py:7-8 | a superuser passes the check for any company, even none |
| Utils.PermissaoSse | controle_estoque/core/utils.py:10-15 | a non-superuser passes if and only if some profile has that user and that company; otherwise the error is the authentication error |
| Utils.SemEmpresaFalha | controle_estoque/core/utils.py:10-15 | for a non-superuser, an absent company always fails |
| Ordenacao.NomeAntesReflexivo | controle_estoque/core/api.py:374 | the text order on product names is reflexive |
| Ordenacao.NomeAntesTotal | controle_estoque/core/api.py:374 | any two names are comparable |
| Ordenacao.NomeAntesTransitivo | controle_estoque/core/api.py:374 | the order is transitive |
| Ordenacao.NomeAntesAntissimetrico | controle_estoque/core/api.py:374 | two names each sorting no later than the other are equal |
| Ordenacao.Insere | controle_estoque/core/api.py:374 | insertion adds exactly the element (as a multiset) |
| Ordenacao.Ordena | controle_estoque/core/api.py:374 | sorting is a permutation of its input |
| Ordenacao.InsereOrdenado | controle_estoque/core/api.py:374 | inserting into a sorted sequence keeps it sorted |
| Ordenacao.OrdenaOrdenado | controle_estoque/core/api.py:374 | the sort's result is ordered by the key |
| Api.ValidaMovimento | controle_estoque/core/api.py:462-465 | the two checks of `movimento_novo`; its contract is carried by `ValidaMovimentoSse` and `ValidaMovimentoMotivo` |
| Api.ValidaMovimentoSse | controle_estoque/core/api.py:462-465 | a movement passes exactly when its quantity is non-zero and, for an exit, at most the stored quantity; an entry passes exactly when non-zero |
| Api.ValidaMovimentoMotivo | controle_estoque/core/api.py:462-465 | an over-draw is reported as such even when the quantity is also zero; a zero quantity is always refused |
| Api.Atribui | controle_estoque/core/api.py:338-339 | the `setattr` loop as a fold of `SetAttr` over the keys; its contract is carried by `AtribuiSoPreco` and the loop invariant of `Banco.EstoqueEdita` |
| Api.AtribuiSoPreco | controle_estoque/core/api.py:338-339 | assigning only price keys changes only `preco`, to the last price assigned |
| Api.Banco.MovimentoNovo | controle_estoque/core/api.py:456-484 | each outcome as an if-and-only-if, in the order the view meets them: invalid type, 404, permission failure, over-draw, zero quantity, no responsible profile, key collision, and success; on failure no movement is added; on success exactly one movement is added with the item, the least-keyed profile of the caller in the item's company, the type, the quantity, and `ativo` true; stored items unchanged; the item's quantity and price returned |
| Api.Banco.EstoqueNovo | controle_estoque/core/api.py:286-304 | each outcome as an if-and-only-if: a missing warehouse is a server error, then the permission check, then key collision and missing product as integrity errors, and success exactly when all four checks pass; on success the item is stored with exactly the sent quantity and price, `ativo` true, no movement created, and the values echoed |
| Api.Banco.EstoqueEdita | controle_estoque/core/api.py:334-352 | a body without `preco` is refused, then 404, then the permission check; on success only `preco` of that item changes, to the sent price, and every other item and field is unchanged |
| Api.Banco.EstoqueExclui | controle_estoque/core/api.py:355-364 | 404, then the permission check; a 400 exactly when a movement references the item, with nothing removed; otherwise exactly that item is removed; integrity is kept |
| Api.Banco.ArmazemExclui | controle_estoque/core/api.py:157-166 | 404, then the permission check; a 400 exactly when a stock item is kept in the warehouse, with nothing removed; otherwise exactly that warehouse is removed |
| Api.Banco.ProdutoExclui | controle_estoque/core/api.py:254-262 | 404 and no permission check; a 400 exactly when a stock item holds the product, with nothing removed; otherwise exactly that product is removed |
| Api.Filtra | controle_estoque/core/api.py:375-395 | a row is kept if and only if it passes every filter; distinct rows stay distinct |
| Api.EstoqueLista | controle_estoque/core/api.py:367-413 | `estoque_lista`; its contract is carried by `EstoqueListaAutorizacao`, `EstoqueListaOrdenada`, `EstoqueListaConteudo` and `EstoqueListaUnica` |
| Api.EstoqueListaAutorizacao | controle_estoque/core/api.py:375-377 | the listing is refused exactly when `empresa_id` is sent by a non-superuser with no profile in that company, with the authentication error |
| Api.CasaSse | controle_estoque/core/api.py:375-395 | the chained queryset filters accept an item exactly when `Seleciona` does |
| Api.ListadosMembros | controle_estoque/core/api.py:397-410 | every listed entry is the response of a table row that passes the filters, and every such row is listed |
| Api.ListadosUnicos | controle_estoque/core/api.py:380-383 | no entry is listed twice (the join on profiles is made distinct) |
| Api.EstoqueListaOrdenada | controle_estoque/core/api.py:371-374 | a granted listing is ordered by product name and its `quantidade` equals the number of entries |
| Api.EstoqueListaConteudo | controle_estoque/core/api.py:375-395 | a granted listing holds the response of exactly the items of the requested company (or, without one, all items for a superuser and those of the user's companies otherwise), narrowed by warehouse and product when sent |
| Api.EstoqueListaUnica | controle_estoque/core/api.py:380-383 | a granted listing shows no stock item twice |

## Left out

- HTTP routing, JWT authentication and status codes are not modelled. An endpoint's outcome is a `Result` whose error names what the view raises.
- Timestamps are not modelled: `criado_em`, `atualizado_em` and the `datetime.now()` of a movement.
- The generated `uuid4` keys are not produced by the model. Each is the parameter `novo`, and a collision ends in the integrity error a duplicate key raises.
- The response fields `produto_unidade_medida` and `produto_marca` are not modelled. The unit's `sigla` is not stored in the model.
- `Produto` has no `marca` field (models.py:124-130). As written, reading `produto.marca` while building a response (api.py:300, 348, 405, 480) raises an attribute error after the write has been made, so `estoque_novo` and `estoque_edita` end in a server error with the new item or price already stored. The model returns the response instead.
- As written, no movement is ever recorded. While the payload is parsed, the type validator reads the undefined `Movimento.ENTRADA` (schemas.py:159), so every `movimento_novo` request fails before the view body runs. `Api.Banco.MovimentoNovo` models the view once those two constants exist with the `TIPOS` codes.
- `select_related('produto__marca')` (api.py:373) names a relation that does not exist, so as written the listing query raises a field error as soon as it runs and `estoque_lista` answers every request with a server error. `Api.EstoqueLista` models the filters and order the view evidently intends.
- `Movimento.ENTRADA` and `Movimento.SAIDA` are not defined in `models.py`, although the type validator and `movimento_novo` read them. The model uses the `TIPOS` codes `"E"` and `"S"` instead of the attribute error those reads would raise.
- Parsing of the creation and movement payloads is not modelled: missing fields, malformed uuids, and decimal parsing, rounding and the `max_digits` limit. The model receives those payloads already typed, and values beyond 14 digits cannot be represented. The edit body is modelled with its key dropping and its required `preco`.
- Path and query identifiers are keys in the model. As written, a malformed `estoque_id` in the path (api.py:335, 356, 457) or a malformed `empresa_id`, `armazem_id` or `produto_id` in the listing query (api.py:369) makes the uuid lookup raise a validation error instead of finding no row.
- The masks take `\d` as the ASCII digits only. Python's `\d` also matches other Unicode decimal digits.
- Schemas.CepFormatado: `ArmazemSchema.cep` may be `None`, and on `None` the validator's `re.sub` raises a type error. The model takes only strings.
- Schemas.CnpjFormatadoIdempotente: proved only for strings of at most 14 characters, the field's `max_length`. Some longer digit strings are not masked idempotently, for example every 27-digit string (`Mascara.CnpjNaoIdempotente`).
- Schemas.CepFormatadoIdempotente: proved only for strings of at most 8 characters, the field's `max_length`. Some longer digit strings are not masked idempotently, for example every 15-digit string (`Mascara.CepNaoIdempotente`).
- Api.EstoqueLista: the database's row order is the parameter `linhas`. Names are compared by code point, not by the database collation. Items with equal product names keep `linhas` order, where the database leaves them unordered.
- The other endpoints, the `__str__` methods other than `Empresa.__str__`, `admin.py` and `urls.py` are not modelled. They build displays or configuration.
- No endpoint deletes profiles, companies, units or municipalities. Their `PROTECT` rules are stated as lemmas over the tables only.
- Concurrent requests and transactions are not modelled. Each endpoint runs alone.

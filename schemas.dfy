/**
 * The request and response schemas: the CNPJ and CEP field validators, the
 * movement-type validator, and the field sets of the stock-item payloads.
 */
module Schemas {
  import opened Erros
  import opened Mascara
  import opened Modelos

  /** `EmpresaSchema.cnpj_formatado`. */
  function CnpjFormatado(v: string): string {
    Sub(Cnpj, v)
  }

  /** `ArmazemSchema.cep_formatado`. */
  function CepFormatado(v: string): string {
    Sub(Cep, v)
  }

  /** A 14-digit CNPJ becomes `NN.NNN.NNN/NNNN-NN`: 18 characters, separators after digits 2, 5, 8 and 12, digits in order. */
  lemma CnpjFormatado14(v: string)
    requires |v| == 14 && SoDigitos(v)
    ensures var r := CnpjFormatado(v);
      && |r| == 18
      && r[2] == '.' && r[6] == '.' && r[10] == '/' && r[15] == '-'
      && (forall i :: 0 <= i < 18 && i !in {2, 6, 10, 15} ==> EhDigito(r[i]))
      && Digitos(r) == v
  {
    SubExata(Cnpj, v);
    SubstituiCnpj(v);
  }

  /** The CNPJ validator returns its argument unchanged exactly when it holds no run of 14 digits. */
  lemma CnpjFormatadoInalterado(v: string)
    ensures CnpjFormatado(v) == v <==> !TemOcorrencia(Cnpj, v)
  {
    SubInalteradaSse(Cnpj, v);
  }

  /** On every value of `Empresa.cnpj` (`max_length=14`), formatting twice is formatting once. */
  lemma CnpjFormatadoIdempotente(v: string)
    requires |v| <= 14
    ensures CnpjFormatado(CnpjFormatado(v)) == CnpjFormatado(v)
  {
    SubIdempotenteCurta(Cnpj, v);
  }

  /** An 8-digit CEP becomes `DDDDD-DDD`; deleting the hyphen gives back the input. */
  lemma CepFormatado8(v: string)
    requires |v| == 8 && SoDigitos(v)
    ensures var r := CepFormatado(v);
      && |r| == 9
      && r[5] == '-'
      && r[..5] + r[6..] == v
  {
    SubExata(Cep, v);
    SubstituiCep(v);
  }

  /** The CEP validator returns its argument unchanged exactly when it holds no run of 8 digits. */
  lemma CepFormatadoInalterado(v: string)
    ensures CepFormatado(v) == v <==> !TemOcorrencia(Cep, v)
  {
    SubInalteradaSse(Cep, v);
  }

  /** An already masked CEP (a hyphen at position 5 of 9 characters) comes back unchanged. */
  lemma CepJaFormatadoInalterado(v: string)
    requires |v| == 9 && v[5] == '-'
    ensures CepFormatado(v) == v
  {
    forall i: nat | i + 8 <= |v| ensures !CasaEm(Cep, v, i) {
      assert v[i..i + 8][5 - i] == v[5];
    }
    SubSemOcorrencia(Cep, v);
  }

  /** On every value of `Armazem.cep` (`max_length=8`), formatting twice is formatting once. */
  lemma CepFormatadoIdempotente(v: string)
    requires |v| <= 8
    ensures CepFormatado(CepFormatado(v)) == CepFormatado(v)
  {
    SubIdempotenteCurta(Cep, v);
  }

  /** `MovimentoNovoSchema.valida_tipo`: the value passes through when it is a `TIPOS` code. */
  function ValidaTipo(v: string): Result<Tipo> {
    if v == "E" then Success(Entrada)
    else if v == "S" then Success(Saida)
    else Failure(TipoNaoPermitido)
  }

  /** Accepted exactly when `"E"` or `"S"`, returned unchanged; anything else is a validation error. */
  lemma ValidaTipoSse(v: string)
    ensures ValidaTipo(v).Success? <==> v == "E" || v == "S"
    ensures ValidaTipo(v).Success? ==> Codigo(ValidaTipo(v).value) == v
    ensures ValidaTipo(v).Failure? ==> ValidaTipo(v).error == TipoNaoPermitido
  {
  }

  /** Every stored code passes the validator as the type it encodes. */
  lemma ValidaTipoCodigo(t: Tipo)
    ensures ValidaTipo(Codigo(t)) == Success(t)
  {
  }

  /** `MovimentoNovoSchema`: `estoque_id`, `tipo` and `quantidade`. */
  datatype MovimentoNovoCorpo = MovimentoNovoCorpo(estoqueId: EstoqueId, tipo: string, quantidade: Milesimos)

  /** `EstoqueNovoSchema`: `armazem_id`, `produto_id`, `quantidade` and `preco`. */
  datatype EstoqueNovoCorpo = EstoqueNovoCorpo(armazemId: ArmazemId, produtoId: ProdutoId, quantidade: Milesimos, preco: Centavos)

  /** One key of a JSON body sent to edit a stock item: any field of `Estoque` may be sent. */
  datatype Campo =
    | AtribuiArmazem(armazem: ArmazemId)
    | AtribuiProduto(produto: ProdutoId)
    | AtribuiQuantidade(quantidade: Milesimos)
    | AtribuiPreco(preco: Centavos)
    | AtribuiAtivo(ativo: bool)

  /**
   * The price a body sends: the last `preco` key, since a JSON object keeps
   * the last of repeated keys; `None` when the body sends no price.
   */
  function PrecoEnviado(corpo: seq<Campo>): (r: Option<Centavos>)
    ensures r.None? <==> forall c :: c in corpo ==> !c.AtribuiPreco?
    ensures r.Some? ==>
      (exists i :: 0 <= i < |corpo| && corpo[i] == AtribuiPreco(r.value) &&
         forall j :: i < j < |corpo| ==> !corpo[j].AtribuiPreco?)
    decreases |corpo|
  {
    if corpo == [] then None
    else
      var ultimo := corpo[|corpo| - 1];
      if ultimo.AtribuiPreco? then Some(ultimo.preco)
      else
        var antes := corpo[..|corpo| - 1];
        assert forall c :: c in corpo ==> c in antes || c == ultimo;
        PrecoEnviado(antes)
  }

  /**
   * `payload.dict(exclude_unset=True)` of `EstoqueEditaSchema`: the schema
   * declares only `preco`, drops the keys it does not declare, and refuses a
   * body without `preco`, which the model field requires.
   */
  function EstoqueEditaDict(corpo: seq<Campo>): (r: Result<seq<Campo>>)
    ensures r.Success? <==> exists c :: c in corpo && c.AtribuiPreco?
    ensures r.Success? ==> r.value == [AtribuiPreco(PrecoEnviado(corpo).value)] && r.value[0] in corpo
    ensures r.Failure? ==> r.error == CampoObrigatorio
  {
    match PrecoEnviado(corpo)
    case None => Failure(CampoObrigatorio)
    case Some(p) => Success([AtribuiPreco(p)])
  }
}

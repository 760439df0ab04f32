/**
 * The stock-item and movement endpoints over an in-memory store: movement
 * recording, creation and price-only editing of stock items, the three
 * `PROTECT`-guarded deletes, and the filtered, ordered stock listing.
 */
module Api {
  import opened Erros
  import opened Modelos
  import opened Schemas
  import opened Utils
  import opened Ordenacao

  /** `EstoqueSchema` as the endpoints fill it (without the product's brand). */
  datatype EstoqueView = EstoqueView(
    uuid: EstoqueId,
    armazemUuid: ArmazemId,
    armazemNome: string,
    produtoUuid: ProdutoId,
    produtoNome: string,
    quantidade: Milesimos,
    preco: Centavos)

  /** `ListaSchema`: the row count and the rows. */
  datatype Lista = Lista(quantidade: nat, lista: seq<EstoqueView>)

  function Visao(id: EstoqueId, e: Estoque, armazens: map<ArmazemId, Armazem>, produtos: map<ProdutoId, Produto>): EstoqueView
    requires e.armazem in armazens && e.produto in produtos
  {
    EstoqueView(id, e.armazem, armazens[e.armazem].nome, e.produto, produtos[e.produto].nome, e.quantidade, e.preco)
  }

  // ---------------------------------------------------------------------
  // Movement validation

  /** The two checks `movimento_novo` makes before saving, in the order it makes them. */
  function ValidaMovimento(estocado: Milesimos, tipo: Tipo, quantidade: Milesimos): Option<Motivo400> {
    if tipo == Saida && quantidade > estocado then Some(SaidaSuperiorAoEstocado)
    else if quantidade == 0 then Some(QuantidadeZero)
    else None
  }

  /**
   * A movement passes exactly when its quantity is not zero and, for an exit,
   * does not exceed the stored quantity (an exit of the whole stock passes).
   * Only a zero quantity is refused outright: a negative quantity passes the
   * zero check, and an exit is refused only when it exceeds the stored quantity.
   */
  lemma ValidaMovimentoSse(estocado: Milesimos, tipo: Tipo, quantidade: Milesimos)
    ensures ValidaMovimento(estocado, tipo, quantidade) == None <==>
      quantidade != 0 && (tipo == Saida ==> quantidade <= estocado)
    ensures tipo == Entrada ==> (ValidaMovimento(estocado, tipo, quantidade) == None <==> quantidade != 0)
  {
  }

  /** Which error a rejected movement reports: the over-draw test comes first. */
  lemma ValidaMovimentoMotivo(estocado: Milesimos, tipo: Tipo, quantidade: Milesimos)
    ensures tipo == Saida && quantidade > estocado ==>
      ValidaMovimento(estocado, tipo, quantidade) == Some(SaidaSuperiorAoEstocado)
    ensures quantidade == 0 && !(tipo == Saida && estocado < 0) ==>
      ValidaMovimento(estocado, tipo, quantidade) == Some(QuantidadeZero)
    ensures quantidade == 0 ==> ValidaMovimento(estocado, tipo, quantidade).Some?
  {
  }

  /** `.first()` on an unordered queryset orders by primary key: the least key wins. */
  ghost predicate PrimeiroPerfil(perfis: map<PerfilId, Perfil>, u: UsuarioId, empresa: EmpresaId, k: PerfilId) {
    && k in perfis && perfis[k].usuario == u && perfis[k].empresa == empresa
    && forall k' :: k' in perfis && perfis[k'].usuario == u && perfis[k'].empresa == empresa ==> k <= k'
  }

  /** A set of keys holding `x` has a least element, no larger than `x`. */
  lemma {:induction false} MenorExiste(s: set<nat>, x: nat)
    requires x in s
    ensures exists m :: m in s && m <= x && forall k :: k in s ==> m <= k
    decreases x
  {
    if !forall k :: k in s ==> x <= k {
      var y :| y in s && y < x;
      MenorExiste(s, y);
    }
  }

  // ---------------------------------------------------------------------
  // Field assignment of `estoque_edita`

  /** `setattr(estoque, attr, value)` for one key of the body. */
  function SetAttr(e: Estoque, c: Campo): Estoque {
    match c
    case AtribuiArmazem(a) => e.(armazem := a)
    case AtribuiProduto(p) => e.(produto := p)
    case AtribuiQuantidade(q) => e.(quantidade := q)
    case AtribuiPreco(p) => e.(preco := p)
    case AtribuiAtivo(b) => e.(ativo := b)
  }

  /** The assignments of `cs` applied in order. */
  function Atribui(e: Estoque, cs: seq<Campo>): Estoque
    decreases |cs|
  {
    if cs == [] then e
    else SetAttr(Atribui(e, cs[..|cs| - 1]), cs[|cs| - 1])
  }

  /** Assigning only prices leaves every field but `preco` alone, and the last price stays. */
  lemma {:induction false} AtribuiSoPreco(e: Estoque, cs: seq<Campo>)
    requires forall c :: c in cs ==> c.AtribuiPreco?
    ensures Atribui(e, cs) == if cs == [] then e else e.(preco := cs[|cs| - 1].preco)
    decreases |cs|
  {
    if cs != [] {
      var antes := cs[..|cs| - 1];
      assert forall c :: c in antes ==> c in cs;
      assert cs[|cs| - 1] in cs;
      AtribuiSoPreco(e, antes);
    }
  }

  // ---------------------------------------------------------------------
  // The store

  class Banco {
    var usuarios: set<UsuarioId>
    var tiposPerfil: set<TipoPerfilId>
    var empresas: map<EmpresaId, Empresa>
    var perfis: map<PerfilId, Perfil>
    var municipios: set<MunicipioId>
    var unidades: set<UnidadeId>
    var armazens: map<ArmazemId, Armazem>
    var produtos: map<ProdutoId, Produto>
    var estoques: map<EstoqueId, Estoque>
    var movimentos: map<MovimentoId, Movimento>

    function Tabelas(): Db
      reads this
    {
      Db(usuarios, tiposPerfil, empresas, perfis, municipios, unidades, armazens, produtos, estoques, movimentos)
    }

    /** Every foreign key resolves. */
    predicate Valid()
      reads this
    {
      Tabelas().Integro()
    }

    constructor (db: Db)
      requires db.Integro()
      ensures Tabelas() == db && Valid()
    {
      usuarios, tiposPerfil, empresas, perfis := db.usuarios, db.tiposPerfil, db.empresas, db.perfis;
      municipios, unidades, armazens, produtos := db.municipios, db.unidades, db.armazens, db.produtos;
      estoques, movimentos := db.estoques, db.movimentos;
    }

    /** The company owning a stock item, through its warehouse. */
    function EmpresaDoEstoque(id: EstoqueId): EmpresaId
      reads this
      requires Valid() && id in estoques
    {
      armazens[estoques[id].armazem].empresa
    }

    function VisaoDe(id: EstoqueId): EstoqueView
      reads this
      requires Valid() && id in estoques
    {
      Visao(id, estoques[id], armazens, produtos)
    }

    /** The payload parsed, the item found and the caller allowed: the view body reaches its checks. */
    ghost predicate MovimentoChegaAosTestes(u: Usuario, estoqueId: EstoqueId, corpo: MovimentoNovoCorpo)
      reads this
      requires Valid()
    {
      && ValidaTipo(corpo.tipo).Success?
      && estoqueId in estoques
      && ValidaPermissaoEmpresa(u, Some(EmpresaDoEstoque(estoqueId)), perfis).Success?
    }

    /** `movimento_novo`: validate a movement against its stock item and store it. */
    method MovimentoNovo(u: Usuario, estoqueId: EstoqueId, corpo: MovimentoNovoCorpo, novo: MovimentoId)
      returns (r: Result<EstoqueView>)
      requires Valid()
      modifies this`movimentos
      ensures Valid()
      ensures estoques == old(estoques)
      ensures r.Failure? ==> movimentos == old(movimentos)
      ensures r == Failure(TipoNaoPermitido) <==> ValidaTipo(corpo.tipo).Failure?
      ensures r == Failure(NaoEncontrado) <==> ValidaTipo(corpo.tipo).Success? && estoqueId !in estoques
      ensures r == Failure(NaoAutenticado) <==>
        (ValidaTipo(corpo.tipo).Success? && estoqueId in estoques &&
         ValidaPermissaoEmpresa(u, Some(EmpresaDoEstoque(estoqueId)), perfis).Failure?)
      ensures r == Failure(Http400(SaidaSuperiorAoEstocado)) <==>
        MovimentoChegaAosTestes(u, estoqueId, corpo) &&
        corpo.tipo == "S" && corpo.quantidade > estoques[estoqueId].quantidade
      ensures r == Failure(Http400(QuantidadeZero)) <==>
        MovimentoChegaAosTestes(u, estoqueId, corpo) && corpo.quantidade == 0 &&
        !(corpo.tipo == "S" && estoques[estoqueId].quantidade < 0)
      ensures r == Failure(ErroInterno(ResponsavelNulo)) <==>
        MovimentoChegaAosTestes(u, estoqueId, corpo) &&
        ValidaMovimento(estoques[estoqueId].quantidade, ValidaTipo(corpo.tipo).value, corpo.quantidade) == None &&
        !ExistePerfil(perfis, u.id, Some(EmpresaDoEstoque(estoqueId)))
      ensures r == Failure(ErroInterno(ChaveDuplicada)) <==>
        MovimentoChegaAosTestes(u, estoqueId, corpo) &&
        ValidaMovimento(estoques[estoqueId].quantidade, ValidaTipo(corpo.tipo).value, corpo.quantidade) == None &&
        ExistePerfil(perfis, u.id, Some(EmpresaDoEstoque(estoqueId))) &&
        novo in old(movimentos)
      ensures r == Failure(ErroInterno(ResponsavelNulo)) ==> u.superusuario
      ensures r.Success? <==>
        MovimentoChegaAosTestes(u, estoqueId, corpo) &&
        ValidaMovimento(estoques[estoqueId].quantidade, ValidaTipo(corpo.tipo).value, corpo.quantidade) == None &&
        ExistePerfil(perfis, u.id, Some(EmpresaDoEstoque(estoqueId))) &&
        novo !in old(movimentos)
      ensures r.Success? ==>
        exists responsavel :: PrimeiroPerfil(perfis, u.id, EmpresaDoEstoque(estoqueId), responsavel) &&
          movimentos == old(movimentos)[novo := Movimento(responsavel, estoqueId, ValidaTipo(corpo.tipo).value, corpo.quantidade, true)]
      ensures r.Success? ==>
        (r.value == VisaoDe(estoqueId) &&
         r.value.quantidade == estoques[estoqueId].quantidade && r.value.preco == estoques[estoqueId].preco)
    {
      var tipo := ValidaTipo(corpo.tipo);
      if tipo.Failure? {
        return Failure(TipoNaoPermitido);
      }
      if estoqueId !in estoques {
        return Failure(NaoEncontrado);
      }
      var estoque := estoques[estoqueId];
      var empresa := armazens[estoque.armazem].empresa;
      if ValidaPermissaoEmpresa(u, Some(empresa), perfis).Failure? {
        return Failure(NaoAutenticado);
      }
      var motivo := ValidaMovimento(estoque.quantidade, tipo.value, corpo.quantidade);
      if motivo.Some? {
        return Failure(Http400(motivo.value));
      }
      var candidatos := set k | k in perfis && perfis[k].usuario == u.id && perfis[k].empresa == empresa;
      forall k | k in perfis && perfis[k].usuario == u.id && perfis[k].empresa == empresa
        ensures k in candidatos
      {
      }
      if candidatos == {} {
        return Failure(ErroInterno(ResponsavelNulo));
      }
      var algum :| algum in candidatos;
      MenorExiste(candidatos, algum);
      var responsavel :| responsavel in candidatos && responsavel <= algum && forall k :: k in candidatos ==> responsavel <= k;
      assert PrimeiroPerfil(perfis, u.id, empresa, responsavel);
      assert ExistePerfil(perfis, u.id, Some(empresa));
      if novo in movimentos {
        return Failure(ErroInterno(ChaveDuplicada));
      }
      movimentos := movimentos[novo := Movimento(responsavel, estoqueId, tipo.value, corpo.quantidade, true)];
      r := Success(Visao(estoqueId, estoque, armazens, produtos));
    }

    /** `estoque_novo`: store a new stock item exactly as sent; no movement is created. */
    method EstoqueNovo(u: Usuario, corpo: EstoqueNovoCorpo, novo: EstoqueId) returns (r: Result<EstoqueView>)
      requires Valid()
      modifies this`estoques
      ensures Valid()
      ensures movimentos == old(movimentos)
      ensures r.Failure? ==> estoques == old(estoques)
      ensures r == Failure(ErroInterno(ArmazemNulo)) <==> corpo.armazemId !in armazens
      ensures r == Failure(NaoAutenticado) <==>
        (corpo.armazemId in armazens &&
         ValidaPermissaoEmpresa(u, Some(armazens[corpo.armazemId].empresa), perfis).Failure?)
      ensures r == Failure(ErroInterno(ChaveDuplicada)) <==>
        corpo.armazemId in armazens &&
        ValidaPermissaoEmpresa(u, Some(armazens[corpo.armazemId].empresa), perfis).Success? &&
        novo in old(estoques)
      ensures r == Failure(ErroInterno(ChaveEstrangeira)) <==>
        corpo.armazemId in armazens &&
        ValidaPermissaoEmpresa(u, Some(armazens[corpo.armazemId].empresa), perfis).Success? &&
        novo !in old(estoques) && corpo.produtoId !in produtos
      ensures r.Success? <==>
        corpo.armazemId in armazens &&
        ValidaPermissaoEmpresa(u, Some(armazens[corpo.armazemId].empresa), perfis).Success? &&
        novo !in old(estoques) && corpo.produtoId in produtos
      ensures r.Success? ==>
        estoques == old(estoques)[novo := Estoque(corpo.armazemId, corpo.produtoId, corpo.quantidade, corpo.preco, true)]
      ensures r.Success? ==>
        (r.value == VisaoDe(novo) && r.value.quantidade == corpo.quantidade && r.value.preco == corpo.preco)
    {
      if corpo.armazemId !in armazens {
        return Failure(ErroInterno(ArmazemNulo));
      }
      if ValidaPermissaoEmpresa(u, Some(armazens[corpo.armazemId].empresa), perfis).Failure? {
        return Failure(NaoAutenticado);
      }
      if novo in estoques {
        return Failure(ErroInterno(ChaveDuplicada));
      }
      if corpo.produtoId !in produtos {
        return Failure(ErroInterno(ChaveEstrangeira));
      }
      estoques := estoques[novo := Estoque(corpo.armazemId, corpo.produtoId, corpo.quantidade, corpo.preco, true)];
      r := Success(VisaoDe(novo));
    }

    /** `estoque_edita`: parse the body, then assign its keys, of which `preco` is the only one. */
    method EstoqueEdita(u: Usuario, id: EstoqueId, corpo: seq<Campo>) returns (r: Result<EstoqueView>)
      requires Valid()
      modifies this`estoques
      ensures Valid()
      ensures r.Failure? ==> estoques == old(estoques)
      ensures PrecoEnviado(corpo).None? ==> r == Failure(CampoObrigatorio)
      ensures PrecoEnviado(corpo).Some? && id !in old(estoques) ==> r == Failure(NaoEncontrado)
      ensures (PrecoEnviado(corpo).Some? && id in old(estoques) &&
               ValidaPermissaoEmpresa(u, Some(old(EmpresaDoEstoque(id))), perfis).Failure?) ==>
        r == Failure(NaoAutenticado)
      ensures r.Success? <==>
        (PrecoEnviado(corpo).Some? && id in old(estoques) &&
         ValidaPermissaoEmpresa(u, Some(old(EmpresaDoEstoque(id))), perfis).Success?)
      ensures r.Success? ==>
        estoques == old(estoques)[id := old(estoques)[id].(preco := PrecoEnviado(corpo).value)]
      ensures r.Success? ==> r.value == VisaoDe(id) && r.value.preco == PrecoEnviado(corpo).value
    {
      var dados := EstoqueEditaDict(corpo);
      if dados.Failure? {
        return Failure(CampoObrigatorio);
      }
      if id !in estoques {
        return Failure(NaoEncontrado);
      }
      if ValidaPermissaoEmpresa(u, Some(EmpresaDoEstoque(id)), perfis).Failure? {
        return Failure(NaoAutenticado);
      }
      var e := estoques[id];
      var campos := dados.value;
      var i := 0;
      while i < |campos|
        invariant 0 <= i <= |campos|
        invariant e == Atribui(estoques[id], campos[..i])
      {
        assert campos[..i + 1][..i] == campos[..i];
        e := SetAttr(e, campos[i]);
        i := i + 1;
      }
      assert campos[..i] == campos;
      AtribuiSoPreco(estoques[id], campos);
      estoques := estoques[id := e];
      r := Success(VisaoDe(id));
    }

    /** `estoque_exclui`: refused while any movement references the item. */
    method EstoqueExclui(u: Usuario, id: EstoqueId) returns (r: Result<()>)
      requires Valid()
      modifies this`estoques
      ensures Valid()
      ensures r.Failure? ==> estoques == old(estoques)
      ensures r.Success? ==> estoques == old(estoques) - {id}
      ensures id !in old(estoques) ==> r == Failure(NaoEncontrado)
      ensures id in old(estoques) && ValidaPermissaoEmpresa(u, Some(old(EmpresaDoEstoque(id))), perfis).Failure? ==>
        r == Failure(NaoAutenticado)
      ensures r == Failure(Http400(ItemComMovimentacao)) <==>
        id in old(estoques) && ValidaPermissaoEmpresa(u, Some(old(EmpresaDoEstoque(id))), perfis).Success? &&
        old(Tabelas()).EstoqueReferenciado(id)
      ensures r.Success? <==>
        id in old(estoques) && ValidaPermissaoEmpresa(u, Some(old(EmpresaDoEstoque(id))), perfis).Success? &&
        !old(Tabelas()).EstoqueReferenciado(id)
    {
      if id !in estoques {
        return Failure(NaoEncontrado);
      }
      if ValidaPermissaoEmpresa(u, Some(EmpresaDoEstoque(id)), perfis).Failure? {
        return Failure(NaoAutenticado);
      }
      if Tabelas().EstoqueReferenciado(id) {
        return Failure(Http400(ItemComMovimentacao));
      }
      ProtecaoEstoque(Tabelas(), id);
      estoques := estoques - {id};
      r := Success(());
    }

    /** `armazem_exclui`: refused while any stock item is kept in the warehouse. */
    method ArmazemExclui(u: Usuario, id: ArmazemId) returns (r: Result<()>)
      requires Valid()
      modifies this`armazens
      ensures Valid()
      ensures r.Failure? ==> armazens == old(armazens)
      ensures r.Success? ==> armazens == old(armazens) - {id}
      ensures id !in old(armazens) ==> r == Failure(NaoEncontrado)
      ensures id in old(armazens) && ValidaPermissaoEmpresa(u, Some(old(armazens)[id].empresa), perfis).Failure? ==>
        r == Failure(NaoAutenticado)
      ensures r == Failure(Http400(ArmazemComItens)) <==>
        id in old(armazens) && ValidaPermissaoEmpresa(u, Some(old(armazens)[id].empresa), perfis).Success? &&
        old(Tabelas()).ArmazemReferenciado(id)
      ensures r.Success? <==>
        id in old(armazens) && ValidaPermissaoEmpresa(u, Some(old(armazens)[id].empresa), perfis).Success? &&
        !old(Tabelas()).ArmazemReferenciado(id)
    {
      if id !in armazens {
        return Failure(NaoEncontrado);
      }
      if ValidaPermissaoEmpresa(u, Some(armazens[id].empresa), perfis).Failure? {
        return Failure(NaoAutenticado);
      }
      if Tabelas().ArmazemReferenciado(id) {
        return Failure(Http400(ArmazemComItens));
      }
      ProtecaoArmazem(Tabelas(), id);
      armazens := armazens - {id};
      r := Success(());
    }

    /** `produto_exclui`: no permission check; refused while any stock item holds the product. */
    method ProdutoExclui(id: ProdutoId) returns (r: Result<()>)
      requires Valid()
      modifies this`produtos
      ensures Valid()
      ensures r.Failure? ==> produtos == old(produtos)
      ensures r.Success? ==> produtos == old(produtos) - {id}
      ensures id !in old(produtos) ==> r == Failure(NaoEncontrado)
      ensures r == Failure(Http400(ProdutoEmEstoque)) <==> id in old(produtos) && old(Tabelas()).ProdutoReferenciado(id)
      ensures r.Success? <==> id in old(produtos) && !old(Tabelas()).ProdutoReferenciado(id)
    {
      if id !in produtos {
        return Failure(NaoEncontrado);
      }
      if Tabelas().ProdutoReferenciado(id) {
        return Failure(Http400(ProdutoEmEstoque));
      }
      ProtecaoProduto(Tabelas(), id);
      produtos := produtos - {id};
      r := Success(());
    }
  }

  // ---------------------------------------------------------------------
  // Listing

  /** A row of the `Estoque` table, in the order the database returns it. */
  datatype Linha = Linha(id: EstoqueId, item: Estoque)

  /** `linhas` lists every row of `estoques` once. */
  predicate Enumera(linhas: seq<Linha>, estoques: map<EstoqueId, Estoque>) {
    && (forall i, j :: 0 <= i < j < |linhas| ==> linhas[i].id != linhas[j].id)
    && (forall l :: l in linhas ==> l.id in estoques && estoques[l.id] == l.item)
    && (forall k :: k in estoques ==> Linha(k, estoques[k]) in linhas)
  }

  /** `.filter(uuid=...).first()`: the row with that key, or `None`. */
  function Busca<K>(chaves: set<K>, id: K): Option<K> {
    if id in chaves then Some(id) else None
  }

  /** The company restriction of the listing. */
  datatype FiltroEmpresa =
    | Qualquer                              // superuser without `empresa_id`
    | DaEmpresa(empresa: Option<EmpresaId>) // `filter(armazem__empresa=empresa)`
    | DeUsuario(usuario: UsuarioId)         // `filter(armazem__empresa__perfil__usuario=user).distinct()`

  /**
   * The three restrictions; `armazem` and `produto` are `None` when the query
   * parameter is absent and `Some(lookup)` when present, the lookup being
   * `None` for an unknown key.
   */
  datatype Filtros = Filtros(empresa: FiltroEmpresa, armazem: Option<Option<ArmazemId>>, produto: Option<Option<ProdutoId>>)

  /** A row passes the filters; `filter(fk=None)` matches no row, as every such foreign key is non-null. */
  predicate Casa(f: Filtros, x: Estoque, armazens: map<ArmazemId, Armazem>, perfis: map<PerfilId, Perfil>)
    requires x.armazem in armazens
  {
    var empresa := armazens[x.armazem].empresa;
    && (match f.empresa
        case Qualquer => true
        case DaEmpresa(e) => e == Some(empresa)
        case DeUsuario(u) => ExistePerfil(perfis, u, Some(empresa)))
    && (f.armazem.Some? ==> f.armazem.value == Some(x.armazem))
    && (f.produto.Some? ==> f.produto.value == Some(x.produto))
  }

  /** The rows that pass, in their original order. */
  function Filtra(linhas: seq<Linha>, f: Filtros, armazens: map<ArmazemId, Armazem>, perfis: map<PerfilId, Perfil>): (r: seq<Linha>)
    requires forall l :: l in linhas ==> l.item.armazem in armazens
    ensures forall l :: l in r <==> l in linhas && Casa(f, l.item, armazens, perfis)
    ensures (forall i, j :: 0 <= i < j < |linhas| ==> linhas[i].id != linhas[j].id) ==>
      (forall i, j :: 0 <= i < j < |r| ==> r[i].id != r[j].id)
    decreases |linhas|
  {
    if linhas == [] then []
    else
      var resto := Filtra(linhas[1..], f, armazens, perfis);
      if Casa(f, linhas[0].item, armazens, perfis) then [linhas[0]] + resto else resto
  }

  function Visoes(linhas: seq<Linha>, armazens: map<ArmazemId, Armazem>, produtos: map<ProdutoId, Produto>): (r: seq<EstoqueView>)
    requires forall l :: l in linhas ==> l.item.armazem in armazens && l.item.produto in produtos
    ensures |r| == |linhas|
    ensures forall i :: 0 <= i < |r| ==> r[i] == Visao(linhas[i].id, linhas[i].item, armazens, produtos)
    decreases |linhas|
  {
    if linhas == [] then []
    else [Visao(linhas[0].id, linhas[0].item, armazens, produtos)] + Visoes(linhas[1..], armazens, produtos)
  }

  function NomeDoProduto(v: EstoqueView): string {
    v.produtoNome
  }

  /** The filters `estoque_lista` builds from its query parameters. */
  function FiltrosDe(db: Db, u: Usuario, empresaId: Option<EmpresaId>, armazemId: Option<ArmazemId>, produtoId: Option<ProdutoId>): Filtros {
    var empresa :=
      if empresaId.Some? then DaEmpresa(Busca(db.empresas.Keys, empresaId.value))
      else if !u.superusuario then DeUsuario(u.id)
      else Qualquer;
    var armazem := if armazemId.Some? then Some(Busca(db.armazens.Keys, armazemId.value)) else None;
    var produto := if produtoId.Some? then Some(Busca(db.produtos.Keys, produtoId.value)) else None;
    Filtros(empresa, armazem, produto)
  }

  /** `estoque_lista`: the permission check on `empresa_id`, the filters, and the order by product name. */
  function EstoqueLista(db: Db, linhas: seq<Linha>, u: Usuario,
                        empresaId: Option<EmpresaId>, armazemId: Option<ArmazemId>, produtoId: Option<ProdutoId>): Result<Lista>
    requires db.Integro() && Enumera(linhas, db.estoques)
  {
    if empresaId.Some? && ValidaPermissaoEmpresa(u, Busca(db.empresas.Keys, empresaId.value), db.perfis).Failure? then
      Failure(NaoAutenticado)
    else
      var lista := Listados(db, linhas, FiltrosDe(db, u, empresaId, armazemId, produtoId));
      Success(Lista(|lista|, lista))
  }

  /** The views of the rows that pass `f`, unsorted. */
  function Filtrados(db: Db, linhas: seq<Linha>, f: Filtros): seq<EstoqueView>
    requires db.Integro() && Enumera(linhas, db.estoques)
  {
    Visoes(Filtra(linhas, f, db.armazens, db.perfis), db.armazens, db.produtos)
  }

  /** The rows that pass `f`, as views sorted by product name. */
  function Listados(db: Db, linhas: seq<Linha>, f: Filtros): seq<EstoqueView>
    requires db.Integro() && Enumera(linhas, db.estoques)
  {
    Ordena(Filtrados(db, linhas, f), NomeDoProduto)
  }

  /**
   * Which items the listing shows, stated on the tables: those of the given
   * company when `empresa_id` is sent; otherwise all of them for a superuser
   * and those of the user's companies for anyone else; narrowed to the given
   * warehouse and product when those are sent.
   */
  predicate Seleciona(db: Db, u: Usuario, empresaId: Option<EmpresaId>, armazemId: Option<ArmazemId>,
                      produtoId: Option<ProdutoId>, id: EstoqueId) {
    && id in db.estoques
    && db.estoques[id].armazem in db.armazens
    && var x := db.estoques[id];
       var empresa := db.armazens[x.armazem].empresa;
       && (if empresaId.Some? then empresa == empresaId.value
           else u.superusuario || ExistePerfil(db.perfis, u.id, Some(empresa)))
       && (armazemId.Some? ==> x.armazem == armazemId.value)
       && (produtoId.Some? ==> x.produto == produtoId.value)
  }

  /** A listing with `empresa_id` is refused exactly when a non-superuser has no profile in that company. */
  lemma EstoqueListaAutorizacao(db: Db, linhas: seq<Linha>, u: Usuario,
                                empresaId: Option<EmpresaId>, armazemId: Option<ArmazemId>, produtoId: Option<ProdutoId>)
    requires db.Integro() && Enumera(linhas, db.estoques)
    ensures var r := EstoqueLista(db, linhas, u, empresaId, armazemId, produtoId);
      && (r.Failure? <==> empresaId.Some? && !u.superusuario && !ExistePerfil(db.perfis, u.id, empresaId))
      && (r.Failure? ==> r.error == NaoAutenticado)
  {
  }

  lemma CasaSse(db: Db, u: Usuario, empresaId: Option<EmpresaId>, armazemId: Option<ArmazemId>,
                produtoId: Option<ProdutoId>, id: EstoqueId)
    requires db.Integro() && id in db.estoques
    ensures Casa(FiltrosDe(db, u, empresaId, armazemId, produtoId), db.estoques[id], db.armazens, db.perfis) <==>
      Seleciona(db, u, empresaId, armazemId, produtoId, id)
  {
  }

  /** `s[i] == s[j]` at two positions puts that element in `multiset(s)` twice. */
  lemma DoisIndices<T>(s: seq<T>, i: int, j: int)
    requires 0 <= i < j < |s| && s[i] == s[j]
    ensures multiset(s)[s[i]] >= 2
  {
    assert s == s[..j] + s[j..];
    assert s[i] in s[..j];
    assert s[j..][0] == s[j];
  }

  lemma {:induction false} VisoesUnicas(linhas: seq<Linha>, armazens: map<ArmazemId, Armazem>, produtos: map<ProdutoId, Produto>)
    requires forall l :: l in linhas ==> l.item.armazem in armazens && l.item.produto in produtos
    requires forall i, j :: 0 <= i < j < |linhas| ==> linhas[i].id != linhas[j].id
    ensures forall v :: multiset(Visoes(linhas, armazens, produtos))[v] <= 1
    decreases |linhas|
  {
    if linhas != [] {
      var resto := linhas[1..];
      forall i, j | 0 <= i < j < |resto| ensures resto[i].id != resto[j].id {
        assert resto[i] == linhas[i + 1] && resto[j] == linhas[j + 1];
      }
      VisoesUnicas(resto, armazens, produtos);
      var vs := Visoes(resto, armazens, produtos);
      var h := Visao(linhas[0].id, linhas[0].item, armazens, produtos);
      assert Visoes(linhas, armazens, produtos) == [h] + vs;
      assert h !in vs by {
        forall i | 0 <= i < |vs| ensures vs[i] != h {
          assert vs[i].uuid == linhas[i + 1].id;
        }
      }
    }
  }

  /** Every listed view is the view of a table row that the filters accept, and every accepted row is listed. */
  lemma ListadosMembros(db: Db, linhas: seq<Linha>, f: Filtros)
    requires db.Integro() && Enumera(linhas, db.estoques)
    ensures forall v :: v in Listados(db, linhas, f) ==>
      && v.uuid in db.estoques
      && v == Visao(v.uuid, db.estoques[v.uuid], db.armazens, db.produtos)
      && Casa(f, db.estoques[v.uuid], db.armazens, db.perfis)
    ensures forall id :: id in db.estoques && Casa(f, db.estoques[id], db.armazens, db.perfis) ==>
      exists v :: v in Listados(db, linhas, f) && v.uuid == id
  {
    var linhasFiltradas := Filtra(linhas, f, db.armazens, db.perfis);
    var vs := Filtrados(db, linhas, f);
    var s := Listados(db, linhas, f);
    assert multiset(s) == multiset(vs);
    forall v | v in s
      ensures v.uuid in db.estoques && v == Visao(v.uuid, db.estoques[v.uuid], db.armazens, db.produtos)
      ensures Casa(f, db.estoques[v.uuid], db.armazens, db.perfis)
    {
      assert v in multiset(vs);
      var i :| 0 <= i < |vs| && vs[i] == v;
      assert linhasFiltradas[i] in linhasFiltradas;
    }
    forall id | id in db.estoques && Casa(f, db.estoques[id], db.armazens, db.perfis)
      ensures exists v :: v in s && v.uuid == id
    {
      var l := Linha(id, db.estoques[id]);
      assert l in linhasFiltradas;
      var i :| 0 <= i < |linhasFiltradas| && linhasFiltradas[i] == l;
      assert vs[i] in multiset(s);
    }
  }

  /** No stock item is listed twice. */
  lemma ListadosUnicos(db: Db, linhas: seq<Linha>, f: Filtros)
    requires db.Integro() && Enumera(linhas, db.estoques)
    ensures var s := Listados(db, linhas, f);
      forall i, j :: 0 <= i < j < |s| ==> s[i] != s[j]
  {
    var s := Listados(db, linhas, f);
    var vs := Filtrados(db, linhas, f);
    VisoesUnicas(Filtra(linhas, f, db.armazens, db.perfis), db.armazens, db.produtos);
    assert multiset(s) == multiset(vs);
    forall i, j | 0 <= i < j < |s| ensures s[i] != s[j] {
      if s[i] == s[j] {
        DoisIndices(s, i, j);
        assert false;
      }
    }
  }

  /** A granted listing is ordered by product name and reports its own length. */
  lemma EstoqueListaOrdenada(db: Db, linhas: seq<Linha>, u: Usuario,
                             empresaId: Option<EmpresaId>, armazemId: Option<ArmazemId>, produtoId: Option<ProdutoId>)
    requires db.Integro() && Enumera(linhas, db.estoques)
    requires EstoqueLista(db, linhas, u, empresaId, armazemId, produtoId).Success?
    ensures var l := EstoqueLista(db, linhas, u, empresaId, armazemId, produtoId).value;
      l.quantidade == |l.lista| && Ordenado(l.lista, NomeDoProduto)
  {
    OrdenaOrdenado(Filtrados(db, linhas, FiltrosDe(db, u, empresaId, armazemId, produtoId)), NomeDoProduto);
  }

  /**
   * A granted listing holds the response of exactly the items `Seleciona`
   * picks: those of the requested company, or without one all items for a
   * superuser and those of the user's companies otherwise, narrowed by
   * warehouse and product.
   */
  lemma EstoqueListaConteudo(db: Db, linhas: seq<Linha>, u: Usuario,
                             empresaId: Option<EmpresaId>, armazemId: Option<ArmazemId>, produtoId: Option<ProdutoId>)
    requires db.Integro() && Enumera(linhas, db.estoques)
    requires EstoqueLista(db, linhas, u, empresaId, armazemId, produtoId).Success?
    ensures var l := EstoqueLista(db, linhas, u, empresaId, armazemId, produtoId).value;
      && (forall v :: v in l.lista ==>
            v.uuid in db.estoques && v == Visao(v.uuid, db.estoques[v.uuid], db.armazens, db.produtos))
      && (forall id :: Seleciona(db, u, empresaId, armazemId, produtoId, id) <==> exists v :: v in l.lista && v.uuid == id)
  {
    var f := FiltrosDe(db, u, empresaId, armazemId, produtoId);
    var s := Listados(db, linhas, f);
    ListadosMembros(db, linhas, f);
    forall id ensures Seleciona(db, u, empresaId, armazemId, produtoId, id) <==> exists v :: v in s && v.uuid == id {
      if id in db.estoques {
        CasaSse(db, u, empresaId, armazemId, produtoId, id);
      }
    }
  }

  /** A granted listing shows no stock item twice. */
  lemma EstoqueListaUnica(db: Db, linhas: seq<Linha>, u: Usuario,
                          empresaId: Option<EmpresaId>, armazemId: Option<ArmazemId>, produtoId: Option<ProdutoId>)
    requires db.Integro() && Enumera(linhas, db.estoques)
    requires EstoqueLista(db, linhas, u, empresaId, armazemId, produtoId).Success?
    ensures var l := EstoqueLista(db, linhas, u, empresaId, armazemId, produtoId).value;
      forall i, j :: 0 <= i < j < |l.lista| ==> l.lista[i].uuid != l.lista[j].uuid
  {
    var f := FiltrosDe(db, u, empresaId, armazemId, produtoId);
    var s := Listados(db, linhas, f);
    ListadosMembros(db, linhas, f);
    ListadosUnicos(db, linhas, f);
    forall i, j | 0 <= i < j < |s| ensures s[i].uuid != s[j].uuid {
      assert s[i] in s && s[j] in s;
    }
  }
}

/**
 * The Django models of the inventory app: the entity shapes, the decimal
 * fields as scaled integers, the two movement codes, the `PROTECT` foreign
 * keys as a referential-integrity predicate over a snapshot of the tables,
 * and `Empresa.__str__`.
 */
module Modelos {
  import opened Erros
  import opened Mascara

  // Primary keys. The uuid4 / auto-increment values are opaque identifiers.
  type UsuarioId = nat
  type TipoPerfilId = nat
  type EmpresaId = nat
  type PerfilId = nat
  type MunicipioId = nat
  type ArmazemId = nat
  type UnidadeId = nat
  type ProdutoId = nat
  type EstoqueId = nat
  type MovimentoId = nat

  /** `max_digits=14`: a decimal field holds at most 14 digits, fraction included. */
  const LIMITE_14_DIGITOS: int := 100_000_000_000_000

  predicate Cabe14Digitos(x: int) {
    -LIMITE_14_DIGITOS < x < LIMITE_14_DIGITOS
  }

  /** A quantity (`decimal_places=3`) counted in thousandths. */
  type Milesimos = x: int | Cabe14Digitos(x)

  /** A price (`decimal_places=2`) counted in cents. */
  type Centavos = x: int | Cabe14Digitos(x)

  /** `auth.User`, reduced to what the permission check reads. */
  datatype Usuario = Usuario(id: UsuarioId, superusuario: bool)

  // Every model inherits `ativo` (default true) from `ModeloBase`.
  datatype Empresa = Empresa(nome: string, cnpj: string, ativo: bool)
  datatype Perfil = Perfil(usuario: UsuarioId, empresa: EmpresaId, tipo: TipoPerfilId, ativo: bool)
  datatype Armazem = Armazem(nome: string, empresa: EmpresaId, municipio: Option<MunicipioId>, cep: string, ativo: bool)
  datatype Produto = Produto(nome: string, unidadeMedida: UnidadeId, ativo: bool)
  datatype Estoque = Estoque(armazem: ArmazemId, produto: ProdutoId, quantidade: Milesimos, preco: Centavos, ativo: bool)

  /** `Movimento.TIPOS`: an entry or an exit. */
  datatype Tipo = Entrada | Saida

  datatype Movimento = Movimento(responsavel: PerfilId, estoque: EstoqueId, tipo: Tipo, quantidade: Milesimos, ativo: bool)

  /** The stored code of a movement type (`max_length=1`). */
  function Codigo(t: Tipo): (c: string)
    ensures |c| == 1
  {
    match t
    case Entrada => "E"
    case Saida => "S"
  }

  /** The two codes are `"E"` and `"S"`, and no two types share one. */
  lemma CodigosDosTipos(t: Tipo, u: Tipo)
    ensures Codigo(t) == "E" || Codigo(t) == "S"
    ensures Codigo(t) == Codigo(u) ==> t == u
  {
  }

  /** `Empresa.__str__`: the name, `" - "`, and the CNPJ through the mask. */
  function EmpresaStr(e: Empresa): (r: string)
    ensures |r| >= |e.nome| + 3
    ensures r[..|e.nome| + 3] == e.nome + " - "
  {
    e.nome + " - " + Sub(Cnpj, e.cnpj)
  }

  /** For a 14-digit CNPJ the label ends in the 18-character `NN.NNN.NNN/NNNN-NN`. */
  lemma EmpresaStrCnpj(e: Empresa)
    requires |e.cnpj| == 14 && SoDigitos(e.cnpj)
    ensures var r := EmpresaStr(e); var k := |e.nome| + 3;
      && |r| == k + 18
      && r[k + 2] == '.' && r[k + 6] == '.' && r[k + 10] == '/' && r[k + 15] == '-'
      && Digitos(r[k..]) == e.cnpj
  {
    SubExata(Cnpj, e.cnpj);
    SubstituiCnpj(e.cnpj);
    var r := EmpresaStr(e);
    assert r[|e.nome| + 3..] == Substitui(Cnpj, e.cnpj);
  }

  /** A snapshot of every table the core touches. */
  datatype Db = Db(
    usuarios: set<UsuarioId>,
    tiposPerfil: set<TipoPerfilId>,
    empresas: map<EmpresaId, Empresa>,
    perfis: map<PerfilId, Perfil>,
    municipios: set<MunicipioId>,
    unidades: set<UnidadeId>,
    armazens: map<ArmazemId, Armazem>,
    produtos: map<ProdutoId, Produto>,
    estoques: map<EstoqueId, Estoque>,
    movimentos: map<MovimentoId, Movimento>)
  {
    /** `Perfil.usuario`, `.empresa`, `.tipo` point at existing rows. */
    predicate PerfisIntegros() {
      forall k :: k in perfis ==>
        perfis[k].usuario in usuarios && perfis[k].empresa in empresas && perfis[k].tipo in tiposPerfil
    }

    /** `Armazem.empresa` points at a company; `Armazem.municipio`, when present, at a municipality. */
    predicate ArmazensIntegros() {
      forall k :: k in armazens ==>
        armazens[k].empresa in empresas &&
        (armazens[k].municipio.Some? ==> armazens[k].municipio.value in municipios)
    }

    /** `Produto.unidade_medida` points at a unit. */
    predicate ProdutosIntegros() {
      forall k :: k in produtos ==> produtos[k].unidadeMedida in unidades
    }

    /** `Estoque.armazem` and `Estoque.produto` point at existing rows. */
    predicate EstoquesIntegros() {
      forall k :: k in estoques ==> estoques[k].armazem in armazens && estoques[k].produto in produtos
    }

    /** `Movimento.responsavel` and `Movimento.estoque` point at existing rows. */
    predicate MovimentosIntegros() {
      forall k :: k in movimentos ==> movimentos[k].responsavel in perfis && movimentos[k].estoque in estoques
    }

    /** Every foreign key resolves: the state `PROTECT` keeps. */
    predicate Integro() {
      PerfisIntegros() && ArmazensIntegros() && ProdutosIntegros() && EstoquesIntegros() && MovimentosIntegros()
    }

    predicate EstoqueReferenciado(id: EstoqueId) {
      exists k :: k in movimentos && movimentos[k].estoque == id
    }

    predicate PerfilReferenciado(id: PerfilId) {
      exists k :: k in movimentos && movimentos[k].responsavel == id
    }

    predicate ArmazemReferenciado(id: ArmazemId) {
      exists k :: k in estoques && estoques[k].armazem == id
    }

    predicate ProdutoReferenciado(id: ProdutoId) {
      exists k :: k in estoques && estoques[k].produto == id
    }

    predicate EmpresaReferenciada(id: EmpresaId) {
      (exists k :: k in perfis && perfis[k].empresa == id) ||
      (exists k :: k in armazens && armazens[k].empresa == id)
    }

    predicate UnidadeReferenciada(id: UnidadeId) {
      exists k :: k in produtos && produtos[k].unidadeMedida == id
    }

    predicate MunicipioReferenciado(id: MunicipioId) {
      exists k :: k in armazens && armazens[k].municipio == Some(id)
    }
  }

  // PROTECT: removing a row keeps every foreign key resolving exactly when
  // nothing references the row, which is the condition under which Django
  // deletes it instead of raising `ProtectedError`.

  lemma ProtecaoEstoque(db: Db, id: EstoqueId)
    requires db.Integro()
    ensures db.(estoques := db.estoques - {id}).Integro() <==> !db.EstoqueReferenciado(id)
  {
  }

  lemma ProtecaoPerfil(db: Db, id: PerfilId)
    requires db.Integro()
    ensures db.(perfis := db.perfis - {id}).Integro() <==> !db.PerfilReferenciado(id)
  {
  }

  lemma ProtecaoArmazem(db: Db, id: ArmazemId)
    requires db.Integro()
    ensures db.(armazens := db.armazens - {id}).Integro() <==> !db.ArmazemReferenciado(id)
  {
  }

  lemma ProtecaoProduto(db: Db, id: ProdutoId)
    requires db.Integro()
    ensures db.(produtos := db.produtos - {id}).Integro() <==> !db.ProdutoReferenciado(id)
  {
  }

  lemma ProtecaoEmpresa(db: Db, id: EmpresaId)
    requires db.Integro()
    ensures db.(empresas := db.empresas - {id}).Integro() <==> !db.EmpresaReferenciada(id)
  {
  }

  lemma ProtecaoUnidade(db: Db, id: UnidadeId)
    requires db.Integro()
    ensures db.(unidades := db.unidades - {id}).Integro() <==> !db.UnidadeReferenciada(id)
  {
  }

  /** `Armazem.municipio` is nullable, so a warehouse without one references no municipality. */
  lemma ProtecaoMunicipio(db: Db, id: MunicipioId)
    requires db.Integro()
    ensures db.(municipios := db.municipios - {id}).Integro() <==> !db.MunicipioReferenciado(id)
  {
  }
}

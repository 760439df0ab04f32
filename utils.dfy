/** `valida_permissao_empresa`: may this user act on this company? */
module Utils {
  import opened Erros
  import opened Modelos

  /** `Perfil.objects.filter(usuario=u, empresa=empresa).exists()`; a `None` company matches no row. */
  predicate ExistePerfil(perfis: map<PerfilId, Perfil>, u: UsuarioId, empresa: Option<EmpresaId>) {
    exists k :: k in perfis && perfis[k].usuario == u && Some(perfis[k].empresa) == empresa
  }

  /** Superusers pass at once; anyone else needs a profile in the company, or `AuthenticationError`. */
  function ValidaPermissaoEmpresa(u: Usuario, empresa: Option<EmpresaId>, perfis: map<PerfilId, Perfil>): Result<()> {
    if u.superusuario then Success(())
    else if ExistePerfil(perfis, u.id, empresa) then Success(())
    else Failure(NaoAutenticado)
  }

  lemma SuperusuarioSemprePassa(u: Usuario, empresa: Option<EmpresaId>, perfis: map<PerfilId, Perfil>)
    requires u.superusuario
    ensures ValidaPermissaoEmpresa(u, empresa, perfis) == Success(())
  {
  }

  /** A non-superuser passes exactly when some profile ties that user to that company. */
  lemma PermissaoSse(u: Usuario, e: EmpresaId, perfis: map<PerfilId, Perfil>)
    requires !u.superusuario
    ensures ValidaPermissaoEmpresa(u, Some(e), perfis).Success? <==>
      exists k :: k in perfis && perfis[k].usuario == u.id && perfis[k].empresa == e
    ensures ValidaPermissaoEmpresa(u, Some(e), perfis).Failure? ==>
      ValidaPermissaoEmpresa(u, Some(e), perfis).error == NaoAutenticado
  {
  }

  /** `Perfil.empresa` is not nullable, so for a non-superuser an absent company always fails. */
  lemma SemEmpresaFalha(u: Usuario, perfis: map<PerfilId, Perfil>)
    requires !u.superusuario
    ensures ValidaPermissaoEmpresa(u, None, perfis) == Failure(NaoAutenticado)
  {
  }
}

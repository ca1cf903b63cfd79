/** Role handling: the role name stored at login (`index`), the role read back from the session,
    the dashboard's visibility table (`dashboard`) and the per-type access block (`acao`). */
module Roles {
  import opened Wrappers
  import opened Text

  const Administrator: string := "ADMINISTRATOR"
  const Compras: string := "COMPRAS"
  const Vendas: string := "VENDAS"
  const Public: string := "PUBLIC"

  /** What the identity service's profile request (`/users/me?fields=role.name`) answered. */
  datatype Profile =
    | ProfileUnavailable          // a status other than 200
    | ProfileWithoutRole          // `role` absent, null or empty
    | ProfileRoleUnnamed          // a `role` object without a `name` key
    | ProfileRole(name: string)   // a `role` object with a `name`

  /** The role stored in the session after a successful login. */
  function StoredRole(p: Profile): (r: string)
    ensures p.ProfileRole? ==> r == Upper(p.name)
    ensures !p.ProfileRole? ==> r == Public
    ensures forall i :: 0 <= i < |r| ==> !IsLowerLetter(r[i])
  {
    match p
    case ProfileUnavailable => Public
    case ProfileWithoutRole => var u := Upper("Public"); assert u == Public; u
    case ProfileRoleUnnamed => var u := Upper("Public"); assert u == Public; u
    case ProfileRole(name) => Upper(name)
  }

  /** The stored role does not depend on how the identity service cased the role name. */
  lemma StoredRoleIgnoresCase(a: string, b: string)
    requires Lower(a) == Lower(b)
    ensures StoredRole(ProfileRole(a)) == StoredRole(ProfileRole(b))
  {
  }

  /** Normalising an already stored role changes nothing. */
  lemma StoredRoleStable(name: string)
    ensures StoredRole(ProfileRole(StoredRole(ProfileRole(name)))) == StoredRole(ProfileRole(name))
  {
  }

  /** The login state kept in the session: the e-mail and the stored role, each possibly missing. */
  datatype Session = Session(userEmail: Option<string>, userRole: Option<string>)

  /** `session.get('user_role', 'PUBLIC')`. */
  function SessionRole(s: Session): (r: string)
    ensures s.userRole.None? ==> r == Public
    ensures s.userRole.Some? ==> r == s.userRole.value
  {
    s.userRole.GetOr(Public)
  }

  /** Which tables the dashboard lists for a role. */
  datatype Visibility = Visibility(seesProducts: bool, seesSamples: bool)

  function DashboardVisibility(role: string): (v: Visibility)
    ensures v.seesProducts <==> role in {Administrator, Compras}
    ensures v.seesSamples <==> role in {Administrator, Vendas}
  {
    var seesAll := role == Administrator;
    Visibility(role == Compras || seesAll, role == Vendas || seesAll)
  }

  /** Only the administrator sees both tables, and a role outside the three named ones sees none. */
  lemma VisibilityTable(role: string)
    ensures DashboardVisibility(role).seesProducts && DashboardVisibility(role).seesSamples
      <==> role == Administrator
    ensures !DashboardVisibility(role).seesProducts && !DashboardVisibility(role).seesSamples
      <==> role !in {Administrator, Compras, Vendas}
  {
  }

  const ProductKind: string := "produto"
  const SampleKind: string := "amostra"

  const DeniedToVendas: string := "⛔ Acesso Negado: Vendas não mexe no Almoxarifado."
  const DeniedToCompras: string := "⛔ Acesso Negado: Compras não mexe no Showroom."

  /** The refusal `acao` answers before looking anything up, if any. */
  function AccessDenial(kind: string, role: string): (r: Option<string>)
    ensures r.Some? <==> (kind == ProductKind && role == Vendas) || (kind == SampleKind && role == Compras)
    ensures kind == ProductKind && role == Vendas ==> r == Some(DeniedToVendas)
    ensures kind == SampleKind && role == Compras ==> r == Some(DeniedToCompras)
  {
    if kind == ProductKind && role == Vendas then Some(DeniedToVendas)
    else if kind == SampleKind && role == Compras then Some(DeniedToCompras)
    else None
  }

  /** A role that the dashboard shows a table to is never refused on that table by `acao`. The
      block is a deny-list, though: a role that sees neither table (PUBLIC, say) is refused on neither. */
  lemma AccessAgreesWithVisibility(role: string)
    ensures DashboardVisibility(role).seesProducts ==> AccessDenial(ProductKind, role).None?
    ensures DashboardVisibility(role).seesSamples ==> AccessDenial(SampleKind, role).None?
    ensures role !in {Administrator, Compras, Vendas} ==>
      AccessDenial(ProductKind, role).None? && AccessDenial(SampleKind, role).None?
  {
  }
}

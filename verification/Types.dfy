/** The record types shared by the screens (src/types/supabase.ts). */
module Types {
  import opened Wrappers

  /** One id type for profiles, clients and staff members (the source mixes
      string profile ids and numeric registry ids). */
  type UserId = int

  /** `Profile.role`. */
  datatype Role = Admin | Manager | Staff | Client

  /** The `profiles` row of the signed-in user. */
  datatype Profile = Profile(id: UserId, fullName: string, role: Role, avatarUrl: Option<string>)

  /** The role's spelling in the database and in forms. */
  function RoleName(r: Role): string
  {
    match r
    case Admin => "admin"
    case Manager => "manager"
    case Staff => "staff"
    case Client => "client"
  }

  /** `oneOf(['admin', 'manager', 'staff', 'client'])`: a form value read back as a role. */
  function ParseRole(s: string): (r: Option<Role>)
    ensures r.Some? ==> RoleName(r.value) == s
    ensures r.None? ==> forall role: Role :: RoleName(role) != s
  {
    if s == "admin" then Some(Admin)
    else if s == "manager" then Some(Manager)
    else if s == "staff" then Some(Staff)
    else if s == "client" then Some(Client)
    else None
  }

  /** Every role reads back as itself. */
  lemma ParseRoleName(r: Role)
    ensures ParseRole(RoleName(r)) == Some(r)
  {
  }
}

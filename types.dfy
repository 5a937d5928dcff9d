/** The user roles of the portal and the strings the stores hold for them. */
module Types {

  datatype UserRole = SuperAdmin | Inspector | Reviewer | Agent

  /** The enum's string value, as stored in user and session records. */
  function RoleName(r: UserRole): (s: string)
    ensures |s| > 0
  {
    match r
    case SuperAdmin => "SUPERADMIN"
    case Inspector => "INSPECTOR"
    case Reviewer => "REVIEWER"
    case Agent => "AGENT"
  }

  /** Distinct roles are stored as distinct strings, so a stored role names one role. */
  lemma RoleNameInjective(a: UserRole, b: UserRole)
    requires RoleName(a) == RoleName(b)
    ensures a == b
  {
  }
}

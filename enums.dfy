/** The enumerations of the data model that the services branch on. */
module Enums {
  import opened Common

  /** The four roles, as the controllers' role lists name them. */
  datatype Role = USER | MANAGER | ADMIN | SUPER_ADMIN

  /** `@IsEnum(Role)` on a JSON string: the value must be one of the names. */
  function ParseRole(s: string): (r: Option<Role>)
    ensures r.Some? ==> RoleName(r.value) == s
  {
    if s == "USER" then Some(USER)
    else if s == "MANAGER" then Some(MANAGER)
    else if s == "ADMIN" then Some(ADMIN)
    else if s == "SUPER_ADMIN" then Some(SUPER_ADMIN)
    else None
  }

  function RoleName(r: Role): string {
    match r
    case USER => "USER"
    case MANAGER => "MANAGER"
    case ADMIN => "ADMIN"
    case SUPER_ADMIN => "SUPER_ADMIN"
  }

  /** Every role name parses back to its role. */
  lemma RoleNameRoundTrip(r: Role)
    ensures ParseRole(RoleName(r)) == Some(r)
  {
  }

  /** The stage of a deal. The services single out the two closed stages; the
      open stages of the schema's enum are not named anywhere the services
      can see, so they are kept as named values of one constructor. */
  datatype DealStage = Open(name: string) | CLOSED_WON | CLOSED_LOST {
    predicate IsClosed() {
      CLOSED_WON? || CLOSED_LOST?
    }
  }

  /** The enum name the store keeps for a stage, and that a `stage` filter
      is compared with. */
  function StageName(s: DealStage): string {
    match s
    case Open(name) => name
    case CLOSED_WON => "CLOSED_WON"
    case CLOSED_LOST => "CLOSED_LOST"
  }
}

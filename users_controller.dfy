/** The users controller's access rules: the role list each route declares
    for the roles guard, and the owner-or-admin check `findOne` and `update`
    make before calling the service. */
module UsersController {
  import opened Common
  import opened Enums
  import opened Entities
  import opened Dtos
  import opened Pagination
  import Users

  const VIEW_OWN_PROFILE := "You can only view your own profile"
  const UPDATE_OWN_PROFILE := "You can only update your own profile"
  /** The defaults of the `page` and `limit` query parameters. */
  const DEFAULT_PAGE: int := 1
  const DEFAULT_LIMIT: int := 20

  datatype Route = CreateUser | ListUsers | GetUser | UpdateUser | UpdateUserRole | RemoveUser

  /** The `@Roles(...)` list of each route. */
  function DeclaredRoles(r: Route): set<Role> {
    match r
    case CreateUser => {ADMIN, SUPER_ADMIN}
    case ListUsers => {ADMIN, SUPER_ADMIN}
    case GetUser => {ADMIN, SUPER_ADMIN, MANAGER, USER}
    case UpdateUser => {ADMIN, SUPER_ADMIN, MANAGER, USER}
    case UpdateUserRole => {SUPER_ADMIN}
    case RemoveUser => {SUPER_ADMIN}
  }

  predicate IsAdmin(role: Role) {
    role == ADMIN || role == SUPER_ADMIN
  }

  /** The requester may act on the profile `id`: an admin on any, anyone
      else on their own. */
  predicate CanAccessProfile(requesterRole: Role, requesterId: Id, id: Id) {
    !(requesterRole != ADMIN && requesterRole != SUPER_ADMIN && requesterId != id)
  }

  /** `findOne` of the controller: the guard, then the service. */
  function FindOne(users: map<Id, User>, requesterRole: Role, requesterId: Id, id: Id): Result<Users.UserView> {
    if !CanAccessProfile(requesterRole, requesterId, id) then Err(Forbidden(VIEW_OWN_PROFILE))
    else Users.FindOne(users, id)
  }

  /** `update` of the controller: the guard, then the service's step. */
  function Update(users: map<Id, User>, requesterRole: Role, requesterId: Id, id: Id, dto: UpdateUserDto): Step<Users.UserView, map<Id, User>> {
    if !CanAccessProfile(requesterRole, requesterId, id) then Step(Err(Forbidden(UPDATE_OWN_PROFILE)), users)
    else Users.UpdateStep(users, id, dto)
  }

  /** `findAll`'s query parameters with their defaults. */
  function ListQuery(page: Option<int>, limit: Option<int>): (int, int) {
    (page.GetOr(DEFAULT_PAGE), limit.GetOr(DEFAULT_LIMIT))
  }

  /** An ADMIN or SUPER_ADMIN may view and update any profile; a USER or
      MANAGER exactly their own, and any other id is Forbidden with the
      route's message and no change. */
  lemma OwnerOrAdmin(users: map<Id, User>, role: Role, requesterId: Id, id: Id, dto: UpdateUserDto)
    ensures CanAccessProfile(role, requesterId, id) <==> IsAdmin(role) || requesterId == id
    ensures !IsAdmin(role) && requesterId != id ==>
      FindOne(users, role, requesterId, id) == Err(Forbidden(VIEW_OWN_PROFILE))
      && Update(users, role, requesterId, id, dto) == Step(Err(Forbidden(UPDATE_OWN_PROFILE)), users)
    ensures IsAdmin(role) || requesterId == id ==>
      FindOne(users, role, requesterId, id) == Users.FindOne(users, id)
      && Update(users, role, requesterId, id, dto) == Users.UpdateStep(users, id, dto)
  {
  }

  /** Creating and listing users are for ADMIN and SUPER_ADMIN; changing a
      role and deleting are for SUPER_ADMIN alone; every role may reach the
      profile routes, where the owner-or-admin check applies. */
  lemma RouteRoles(role: Role)
    ensures role in DeclaredRoles(CreateUser) <==> IsAdmin(role)
    ensures role in DeclaredRoles(ListUsers) <==> IsAdmin(role)
    ensures role in DeclaredRoles(UpdateUserRole) <==> role == SUPER_ADMIN
    ensures role in DeclaredRoles(RemoveUser) <==> role == SUPER_ADMIN
    ensures role in DeclaredRoles(GetUser) && role in DeclaredRoles(UpdateUser)
  {
  }

  /** Without query parameters the first page of twenty is listed. */
  lemma DefaultListing(users: map<Id, User>, ordered: seq<Id>)
    requires Lists(ordered, Users.LiveUserIds(users))
    ensures var (p, l) := ListQuery(None, None);
      p == 1 && l == 20
      && Users.FindAll(users, p, l, ordered).meta.hasPrevPage == false
      && |Users.FindAll(users, p, l, ordered).data| == (if |ordered| < 20 then |ordered| else 20)
  {
    ListsCount(ordered, Users.LiveUserIds(users));
  }
}

/**
  The user endpoints: the update with its admin-or-self permission and non-admin field whitelist,
  the admin-only delete, and the scoped, filtered, paginated user list.
*/
module UserController {
  import opened Wrappers
  import opened TicketModel
  import opened AgentModel
  import opened Store
  import Lists
  import Paging
  import Text

  // ---------------------------------------------------------------------------------------------
  // enum names

  function RoleName(r: Role): string {
    match r
    case Admin => "admin"
    case Member => "user"
  }

  function ParseRole(s: string): (r: Option<Role>)
    ensures r.Some? ==> RoleName(r.value) == s
  {
    if s == "admin" then Some(Admin) else if s == "user" then Some(Member) else None
  }

  function ActivityName(a: Activity): string {
    match a
    case Active => "active"
    case Inactive => "inactive"
  }

  function ParseActivity(s: string): (r: Option<Activity>)
    ensures r.Some? ==> ActivityName(r.value) == s
  {
    if s == "active" then Some(Active) else if s == "inactive" then Some(Inactive) else None
  }

  function PlanName(p: Plan): string {
    match p
    case Free => "free"
    case Pro => "pro"
    case Enterprise => "enterprise"
  }

  function ParsePlan(s: string): (r: Option<Plan>)
    ensures r.Some? ==> PlanName(r.value) == s
  {
    if s == "free" then Some(Free) else if s == "pro" then Some(Pro)
    else if s == "enterprise" then Some(Enterprise) else None
  }

  /** Every enum value is accepted under its own name, and only its names are accepted. */
  lemma EnumNamesRoundTrip(r: Role, a: Activity, p: Plan)
    ensures ParseRole(RoleName(r)) == Some(r)
    ensures ParseActivity(ActivityName(a)) == Some(a)
    ensures ParsePlan(PlanName(p)) == Some(p)
  {
  }

  // ---------------------------------------------------------------------------------------------
  // updateUser

  datatype SubscriptionInput = SubscriptionInput(plan: Option<string>, status: Option<string>)

  /** The body after `updateUserSchema` has stripped unknown keys: each field present or absent. */
  datatype UserInput = UserInput(
    name: Option<string>,
    email: Option<string>,
    role: Option<string>,
    status: Option<string>,
    subscription: Option<SubscriptionInput>)

  const MinUserName := 2
  const MaxUserName := 100

  /** `updateUserSchema`: name of 2 to 100 characters, an e-mail address, and every enum field one
      of its names. */
  predicate ValidUserInput(u: UserInput) {
    (u.name.Some? ==> MinUserName <= |u.name.value| <= MaxUserName)
    && (u.email.Some? ==> Text.IsEmail(u.email.value))
    && (u.role.Some? ==> ParseRole(u.role.value).Some?)
    && (u.status.Some? ==> ParseActivity(u.status.value).Some?)
    && (u.subscription.Some? ==>
          (u.subscription.value.plan.Some? ==> ParsePlan(u.subscription.value.plan.value).Some?)
          && (u.subscription.value.status.Some? ==> ParseActivity(u.subscription.value.status.value).Some?))
  }

  /** What a non-admin may change: the name and e-mail fields of the validated body, nothing else. */
  function Whitelisted(u: UserInput): (w: UserInput)
    ensures w.role.None? && w.status.None? && w.subscription.None?
    ensures w.name == u.name && w.email == u.email
  {
    UserInput(u.name, u.email, None, None, None)
  }

  /** `Object.keys(data).length > 0` */
  predicate HasFields(u: UserInput) {
    u.name.Some? || u.email.Some? || u.role.Some? || u.status.Some? || u.subscription.Some?
  }

  /** The stored user after `findByIdAndUpdate` with the body: each present field is set, a present
      `subscription` object replaces the stored one whole. */
  function ApplyUserInput(user: User, u: UserInput): User
    requires ValidUserInput(u)
  {
    user.(
      name := if u.name.Some? then u.name.value else user.name,
      email := if u.email.Some? then u.email.value else user.email,
      role := if u.role.Some? then ParseRole(u.role.value).value else user.role,
      status := if u.status.Some? then ParseActivity(u.status.value) else user.status,
      subscription :=
        if u.subscription.Some? then
          var si := u.subscription.value;
          Subscription(
            if si.plan.Some? then ParsePlan(si.plan.value) else None,
            if si.status.Some? then ParseActivity(si.status.value) else None)
        else user.subscription)
  }

  /** Whitelisting keeps a valid body valid and never lets a non-admin touch the role, the account
      status, the subscription or the creation date. */
  lemma WhitelistedKeepsPrivileges(user: User, u: UserInput)
    requires ValidUserInput(u)
    ensures ValidUserInput(Whitelisted(u))
    ensures var v := ApplyUserInput(user, Whitelisted(u));
            v.role == user.role && v.status == user.status && v.subscription == user.subscription
            && v.createdAt == user.createdAt
            && (u.name.Some? ==> v.name == u.name.value) && (u.name.None? ==> v.name == user.name)
            && (u.email.Some? ==> v.email == u.email.value) && (u.email.None? ==> v.email == user.email)
  {
  }

  /** An empty body changes nothing, and applying the same body twice is applying it once. */
  lemma ApplyUserInputIdempotent(user: User, u: UserInput)
    requires ValidUserInput(u)
    ensures !HasFields(u) ==> ApplyUserInput(user, u) == user
    ensures ApplyUserInput(ApplyUserInput(user, u), u) == ApplyUserInput(user, u)
  {
  }

  /**
    `updateUser`. The permission check comes first: a non-admin may only update their own id (403).
    The body is validated next (400), so a non-admin's invalid role is refused even though it would
    be dropped. A non-admin's body is cut down to name and e-mail; nothing left gives 400, and an
    update of a missing own document answers success with a null user. An admin's update of a
    missing user gives 404.
  */
  method UpdateUser(db: Database, caller: Caller, id: Id, u: UserInput) returns (r: Result<Option<User>>)
    requires db.Valid()
    modifies db
    ensures db.Valid()
    ensures db.agents == old(db.agents) && db.tickets == old(db.tickets)
    ensures caller.role != Admin && caller.id != id ==> r == Err(403)
    ensures (caller.role == Admin || caller.id == id) && !ValidUserInput(u) ==> r == Err(400)
    ensures caller.role != Admin && caller.id == id && ValidUserInput(u) && !HasFields(Whitelisted(u)) ==> r == Err(400)
    ensures caller.role != Admin && caller.id == id && ValidUserInput(u) && HasFields(Whitelisted(u)) ==>
              if id in old(db.users) then
                r == Ok(Some(ApplyUserInput(old(db.users)[id], Whitelisted(u))))
                && db.users == old(db.users)[id := r.value.value]
              else r == Ok(None)
    ensures caller.role == Admin && ValidUserInput(u) ==>
              if id in old(db.users) then
                r == Ok(Some(ApplyUserInput(old(db.users)[id], u))) && db.users == old(db.users)[id := r.value.value]
              else r == Err(404)
    ensures r.Err? || r == Ok(None) ==> db.users == old(db.users)
  {
    if caller.role != Admin && caller.id != id {
      return Err(403);
    }
    if !ValidUserInput(u) {
      return Err(400);
    }
    if caller.role != Admin {
      var w := Whitelisted(u);
      if !HasFields(w) {
        return Err(400);
      }
      if id !in db.users {
        return Ok(None);
      }
      var v := ApplyUserInput(db.users[id], w);
      db.users := db.users[id := v];
      return Ok(Some(v));
    }
    if id !in db.users {
      return Err(404);
    }
    var v := ApplyUserInput(db.users[id], u);
    db.users := db.users[id := v];
    r := Ok(Some(v));
  }

  // ---------------------------------------------------------------------------------------------
  // deleteUser

  /** `deleteUser`: admins only (403), 404 for an unknown id, otherwise the user is removed and
      nothing else changes. */
  method DeleteUser(db: Database, caller: Caller, id: Id) returns (r: Result<()>)
    requires db.Valid()
    modifies db
    ensures db.Valid()
    ensures db.agents == old(db.agents) && db.tickets == old(db.tickets)
    ensures caller.role != Admin ==> r == Err(403) && db.users == old(db.users)
    ensures caller.role == Admin && id !in old(db.users) ==> r == Err(404) && db.users == old(db.users)
    ensures caller.role == Admin && id in old(db.users) ==> r == Ok(()) && db.users == old(db.users) - {id}
  {
    if caller.role != Admin {
      return Err(403);
    }
    if id !in db.users {
      return Err(404);
    }
    db.users := db.users - {id};
    r := Ok(());
  }

  // ---------------------------------------------------------------------------------------------
  // getUsers

  datatype UserQuery = UserQuery(page: Option<int>, limit: Option<int>, search: Option<string>,
                                 status: Option<string>, role: Option<string>)

  datatype UserPage = UserPage(users: seq<User>, count: int, total: int, pages: Option<int>, currentPage: int)

  function UserPageOf(q: UserQuery): int {
    if q.page.Some? then q.page.value else 1
  }

  function UserLimitOf(q: UserQuery): int {
    if q.limit.Some? then q.limit.value else 20
  }

  /** The user filed some ticket on one of the caller's agents (`Ticket.distinct('userId', ...)`). */
  predicate HasTicketOn(agents: map<Id, Agent>, tickets: map<Id, Ticket>, caller: Id, uid: Id) {
    exists t :: t in tickets && tickets[t].userId == Some(uid) && Owns(agents, caller, tickets[t].agentId)
  }

  /** Admins see every user; anyone else only those with a ticket on one of their agents. */
  predicate InScope(agents: map<Id, Agent>, tickets: map<Id, Ticket>, caller: Caller, uid: Id) {
    caller.role == Admin || HasTicketOn(agents, tickets, caller.id, uid)
  }

  /** The search (case-insensitive, on name or e-mail) and the subscription-status and role
      filters, each applied only when given. */
  predicate MatchesUserQuery(u: User, q: UserQuery) {
    (Truthy(q.search) ==>
       var needle := Text.ToLower(q.search.value);
       Text.Includes(Text.ToLower(u.name), needle) || Text.Includes(Text.ToLower(u.email), needle))
    && (Truthy(q.status) ==> u.subscription.status.Some? && ActivityName(u.subscription.status.value) == q.status.value)
    && (Truthy(q.role) ==> RoleName(u.role) == q.role.value)
  }

  function UserCreatedAtKey(users: map<Id, User>): Id -> int {
    id => if id in users then users[id].createdAt else 0
  }

  /** The matching users in query order: every user in scope that passes the filters, once each,
      newest first. */
  ghost predicate IsUserListing(listing: seq<Id>, agents: map<Id, Agent>, tickets: map<Id, Ticket>,
                                users: map<Id, User>, caller: Caller, q: UserQuery) {
    Lists.NoDuplicates(listing)
    && (forall id :: id in listing <==> id in users && InScope(agents, tickets, caller, id) && MatchesUserQuery(users[id], q))
    && Lists.SortedDesc(listing, UserCreatedAtKey(users))
  }

  method ListUsers(agents: map<Id, Agent>, tickets: map<Id, Ticket>, users: map<Id, User>, caller: Caller, q: UserQuery)
    returns (listing: seq<Id>)
    ensures IsUserListing(listing, agents, tickets, users, caller, q)
  {
    var ids := Store.Ids(users);
    var keep := (id: Id) => id in users && InScope(agents, tickets, caller, id) && MatchesUserQuery(users[id], q);
    var matching := Lists.Filter(ids, keep);
    Lists.FilterNoDuplicates(ids, keep);
    listing := Lists.SortDesc(matching, UserCreatedAtKey(users));
    Lists.PermutationNoDuplicates(matching, listing);
    forall id ensures id in listing <==> id in matching {
      assert id in listing <==> id in multiset(listing);
      assert id in matching <==> id in multiset(matching);
    }
  }

  function UsersOf(users: map<Id, User>, ids: seq<Id>): (r: seq<User>)
    requires forall i :: 0 <= i < |ids| ==> ids[i] in users
    ensures |r| == |ids|
    ensures forall i :: 0 <= i < |ids| ==> r[i] == users[ids[i]]
  {
    seq(|ids|, i requires 0 <= i < |ids| => users[ids[i]])
  }

  /** `getUsers`: page `page` (default 1) of `limit` (default 20) users of the listing, with
      `skip = (page-1)*limit`, the listing's length as total and `pages = ceil(total/limit)`; a
      negative skip is a database error (500). */
  method GetUsers(db: Database, caller: Caller, q: UserQuery) returns (r: Result<UserPage>, listing: seq<Id>)
    ensures IsUserListing(listing, db.agents, db.tickets, db.users, caller, q)
    ensures var page := UserPageOf(q);
            var limit := UserLimitOf(q);
            var w := Paging.Window(listing, (page - 1) * limit, limit);
            (w.Err? ==> r == Err(500))
            && (w.Ok? ==> forall i :: 0 <= i < |w.value| ==> w.value[i] in db.users)
            && (w.Ok? ==> r == Ok(UserPage(UsersOf(db.users, w.value), |w.value|, |listing|,
                                           Paging.Pages(|listing|, limit), page)))
  {
    listing := ListUsers(db.agents, db.tickets, db.users, caller, q);
    var page := UserPageOf(q);
    var limit := UserLimitOf(q);
    var w := Paging.Window(listing, (page - 1) * limit, limit);
    if w.Err? {
      return Err(500), listing;
    }
    Paging.WindowWithin(listing, (page - 1) * limit, limit);
    r := Ok(UserPage(UsersOf(db.users, w.value), |w.value|, |listing|, Paging.Pages(|listing|, limit), page));
  }

  /** A non-admin never sees a user without a ticket on one of their agents; in particular only a
      caller who owns some agent sees anybody. */
  lemma NonAdminScope(agents: map<Id, Agent>, tickets: map<Id, Ticket>, users: map<Id, User>,
                      caller: Caller, q: UserQuery, listing: seq<Id>)
    requires caller.role != Admin
    requires IsUserListing(listing, agents, tickets, users, caller, q)
    ensures forall id :: id in listing ==> HasTicketOn(agents, tickets, caller.id, id)
    ensures listing != [] ==> exists a :: a in agents && agents[a].owner == caller.id
  {
    if listing != [] {
      var id := listing[0];
      assert HasTicketOn(agents, tickets, caller.id, id);
      var t :| t in tickets && tickets[t].userId == Some(id) && Owns(agents, caller.id, tickets[t].agentId);
      assert agents[tickets[t].agentId].owner == caller.id;
    }
  }
}

/** User administration in the legacy application: the requests that create
    users, switch them on and off, and change their roles, one at a time. */
module AdminUsers {
  import opened Common

  datatype RoleName = ValidationTester | ValidationLead | Qa | Administrator

  function Value(r: RoleName): string {
    match r
    case ValidationTester => "Validation Tester"
    case ValidationLead => "Validation Lead"
    case Qa => "QA"
    case Administrator => "Administrator"
  }

  function Parse(s: string): (r: Option<RoleName>)
    ensures r.Some? ==> Value(r.value) == s
    ensures r.None? ==> forall n: RoleName :: Value(n) != s
  {
    if s == "Validation Tester" then Some(ValidationTester)
    else if s == "Validation Lead" then Some(ValidationLead)
    else if s == "QA" then Some(Qa)
    else if s == "Administrator" then Some(Administrator)
    else None
  }

  datatype User = User(login: string, active: bool)

  datatype UserRole = UserRole(user: nat, role: nat)

  /** The three tables; a row's id is its position, and user rows are never deleted. */
  datatype Db = Db(users: seq<User>, roles: seq<RoleName>, links: seq<UserRole>)

  datatype Request =
    | Create(login: string, names: seq<string>)
    | Deactivate(target: nat)
    | Activate(target: nat)
    | UpdateRoles(target: nat, names: seq<string>)

  datatype Reply = ToLogin | Forbidden | Exists | NoRoles | Missing | IsSelf | LastAdmin | Done | Raised

  // ---------------------------------------------------------------------
  // Queries
  // ---------------------------------------------------------------------

  function FindUser(users: seq<User>, login: string): (r: Option<nat>)
    ensures r.Some? ==> r.value < |users| && users[r.value].login == login
    ensures r.None? ==> forall i :: 0 <= i < |users| ==> users[i].login != login
  {
    if users == [] then None
    else
      var last := |users| - 1;
      var earlier := FindUser(users[..last], login);
      assert forall i :: 0 <= i < last ==> users[..last][i] == users[i];
      if earlier.Some? then earlier else if users[last].login == login then Some(last) else None
  }

  function FindRole(roles: seq<RoleName>, name: RoleName): (r: Option<nat>)
    ensures r.Some? ==> r.value < |roles| && roles[r.value] == name
    ensures r.None? ==> name !in roles
  {
    if roles == [] then None
    else
      var last := |roles| - 1;
      var earlier := FindRole(roles[..last], name);
      assert roles == roles[..last] + [roles[last]];
      if earlier.Some? then earlier else if roles[last] == name then Some(last) else None
  }

  predicate LinkGives(db: Db, l: UserRole, user: nat, name: RoleName) {
    l.user == user && l.role < |db.roles| && db.roles[l.role] == name
  }

  predicate HoldsRole(db: Db, user: nat, name: RoleName) {
    exists k :: 0 <= k < |db.links| && LinkGives(db, db.links[k], user, name)
  }

  predicate IsAdmin(db: Db, user: nat) {
    HoldsRole(db, user, Administrator)
  }

  /** A link row survives the join with an active user and the administrator role. */
  predicate Joins(db: Db, l: UserRole) {
    l.user < |db.users| && db.users[l.user].active && LinkGives(db, l, l.user, Administrator)
  }

  function JoinedRows(db: Db, links: seq<UserRole>): nat {
    if links == [] then 0
    else JoinedRows(db, links[..|links| - 1]) + if Joins(db, links[|links| - 1]) then 1 else 0
  }

  function ActiveAdminCount(db: Db): nat {
    JoinedRows(db, db.links)
  }

  /** The user a session belongs to, unless it is gone or inactive. */
  function Actor(db: Db, session: Option<string>): Option<nat> {
    if session.None? then None
    else
      var me := FindUser(db.users, session.value);
      if me.Some? && db.users[me.value].active then me else None
  }

  // ---------------------------------------------------------------------
  // Requests
  // ---------------------------------------------------------------------

  datatype Lookup = Ids(ids: seq<nat>) | Invalid | Unknown

  function Prepend(ids: seq<nat>, r: Lookup): Lookup {
    if r.Ids? then Ids(ids + r.ids) else r
  }

  /** The role ids of the names; the first name that has none decides. */
  function RoleIds(roles: seq<RoleName>, names: seq<string>): (r: Lookup)
    ensures r.Ids? ==> |r.ids| == |names|
    ensures r.Ids? ==> forall i :: 0 <= i < |names| ==> r.ids[i] < |roles| && Value(roles[r.ids[i]]) == names[i]
    ensures !r.Ids? ==> exists i :: 0 <= i < |names| && forall n :: n in roles ==> Value(n) != names[i]
  {
    if names == [] then Ids([])
    else
      var name := Parse(names[0]);
      if name.None? then Invalid
      else
        var id := FindRole(roles, name.value);
        if id.None? then Unknown else Prepend([id.value], RoleIds(roles, names[1..]))
  }

  /** The first name in the list that is not that of a stored role. */
  ghost predicate FirstBad(roles: seq<RoleName>, names: seq<string>, i: nat) {
    && i < |names|
    && (forall n :: n in roles ==> Value(n) != names[i])
    && forall j :: 0 <= j < i ==> exists n :: n in roles && Value(n) == names[j]
  }

  lemma ValueInjective(a: RoleName, b: RoleName)
    ensures Value(a) == Value(b) ==> a == b
  {
    assert Parse(Value(a)) == Some(a);
  }

  lemma StoredNameGoesOn(roles: seq<RoleName>, names: seq<string>, n: RoleName)
    requires names != [] && n in roles && Value(n) == names[0]
    ensures !RoleIds(roles, names[1..]).Ids? ==> RoleIds(roles, names) == RoleIds(roles, names[1..])
  {
    ValueInjective(n, Parse(names[0]).value);
  }

  lemma OtherNameStops(roles: seq<RoleName>, names: seq<string>)
    requires names != [] && forall n :: n in roles ==> Value(n) != names[0]
    ensures RoleIds(roles, names) == if exists n: RoleName :: Value(n) == names[0] then Unknown else Invalid
  {
    var name := Parse(names[0]);
    assert name.Some? ==> name.value !in roles;
  }

  lemma {:induction false} FirstBadDecides(roles: seq<RoleName>, names: seq<string>, i: nat)
    requires FirstBad(roles, names, i)
    ensures RoleIds(roles, names) == if exists n: RoleName :: Value(n) == names[i] then Unknown else Invalid
  {
    hide RoleIds;
    hide Value;
    if i == 0 {
      OtherNameStops(roles, names);
    } else {
      assert exists n :: n in roles && Value(n) == names[0];
      assert forall j :: 0 <= j < i - 1 ==> names[1..][j] == names[j + 1];
      FirstBadDecides(roles, names[1..], i - 1);
      var n :| n in roles && Value(n) == names[0];
      StoredNameGoesOn(roles, names, n);
    }
  }

  lemma PrependMore(ids: seq<nat>, id: nat, r: Lookup)
    ensures Prepend(ids, Prepend([id], r)) == Prepend(ids + [id], r)
  {
    if r.Ids? {
      assert ids + ([id] + r.ids) == ids + [id] + r.ids;
    }
  }

  function LinksFor(user: nat, ids: seq<nat>): seq<UserRole> {
    seq(|ids|, i requires 0 <= i < |ids| => UserRole(user, ids[i]))
  }

  /** The role loop and the commit that ends it; `kept` are the link rows that the
      transaction still holds. A repeated name breaks the primary key. */
  function Assign(db: Db, kept: seq<UserRole>, user: nat, names: seq<string>): (Db, Reply) {
    match RoleIds(db.roles, names)
    case Invalid => (db, Raised)
    case Unknown => (db, NoRoles)
    case Ids(ids) =>
      if Distinct(kept + LinksFor(user, ids)) then (db.(links := kept + LinksFor(user, ids)), Done) else (db, Raised)
  }

  function LinksOfOthers(db: Db, user: nat): seq<UserRole> {
    Filter(db.links, (l: UserRole) => l.user != user)
  }

  function SetActive(db: Db, user: nat, active: bool): Db
    requires user < |db.users|
  {
    db.(users := db.users[user := db.users[user].(active := active)])
  }

  predicate RemovesAdmin(db: Db, target: nat, names: seq<string>) {
    IsAdmin(db, target) && Value(Administrator) !in names
  }

  function Serve(db: Db, me: nat, req: Request): (Db, Reply) {
    match req
    case Create(login, names) =>
      if FindUser(db.users, login).Some? then (db, Exists)
      else if names == [] then (db, NoRoles)
      else Assign(db.(users := db.users + [User(login, true)]), db.links, |db.users|, names)
    case Deactivate(target) =>
      if target >= |db.users| then (db, Missing)
      else if target == me then (db, IsSelf)
      else if IsAdmin(db, target) && ActiveAdminCount(db) <= 1 then (db, LastAdmin)
      else (SetActive(db, target, false), Done)
    case Activate(target) =>
      if target >= |db.users| then (db, Missing) else (SetActive(db, target, true), Done)
    case UpdateRoles(target, names) =>
      if target >= |db.users| then (db, Missing)
      else if names == [] then (db, NoRoles)
      else if RemovesAdmin(db, target, names) && ActiveAdminCount(db) <= 1 then (db, LastAdmin)
      else Assign(db, LinksOfOthers(db, target), target, names)
  }

  function Handle(db: Db, session: Option<string>, req: Request): (Db, Reply) {
    var me := Actor(db, session);
    if me.None? then (db, ToLogin)
    else if !IsAdmin(db, me.value) then (db, Forbidden)
    else Serve(db, me.value, req)
  }

  function Run(db: Db, requests: seq<(Option<string>, Request)>): Db {
    if requests == [] then db
    else
      var last := requests[|requests| - 1];
      Handle(Run(db, requests[..|requests| - 1]), last.0, last.1).0
  }

  // ---------------------------------------------------------------------
  // Active administrators
  // ---------------------------------------------------------------------

  /** The primary, unique and foreign keys of the three tables. */
  ghost predicate Keys(db: Db) {
    && Distinct(db.links)
    && Distinct(db.roles)
    && (forall k :: 0 <= k < |db.links| ==> db.links[k].user < |db.users| && db.links[k].role < |db.roles|)
    && (forall i, j :: 0 <= i < j < |db.users| ==> db.users[i].login != db.users[j].login)
  }

  ghost predicate ActiveAdmin(db: Db, u: nat) {
    u < |db.users| && db.users[u].active && IsAdmin(db, u)
  }

  ghost function ActiveAdmins(db: Db): set<nat> {
    set u: nat | u < |db.users| && ActiveAdmin(db, u)
  }

  /** The users behind the joined rows of the first link rows. */
  ghost function Joined(db: Db, links: seq<UserRole>): set<nat> {
    if links == [] then {}
    else Joined(db, links[..|links| - 1]) + if Joins(db, links[|links| - 1]) then {links[|links| - 1].user} else {}
  }

  ghost predicate SomeRowJoins(db: Db, links: seq<UserRole>, u: nat) {
    exists k :: 0 <= k < |links| && Joins(db, links[k]) && links[k].user == u
  }

  lemma {:induction false} JoinedMembers(db: Db, links: seq<UserRole>, u: nat)
    ensures u in Joined(db, links) <==> SomeRowJoins(db, links, u)
  {
    hide Joins;
    if links != [] {
      var last := |links| - 1;
      JoinedMembers(db, links[..last], u);
      assert forall k :: 0 <= k < last ==> links[..last][k] == links[k];
    }
  }

  lemma JoinedRowsDiffer(db: Db, links: seq<UserRole>, i: nat, j: nat)
    requires Distinct(links) && Distinct(db.roles) && i < |links| && j < |links|
    requires Joins(db, links[i]) && Joins(db, links[j]) && links[i].user == links[j].user
    ensures i == j
  {
    assert links[i].role == links[j].role;
    assert links[i] == links[j];
  }

  /** A further joined row brings a further user. */
  lemma {:induction false} LastRowIsNew(db: Db, links: seq<UserRole>)
    requires Distinct(links) && Distinct(db.roles) && links != [] && Joins(db, links[|links| - 1])
    ensures links[|links| - 1].user !in Joined(db, links[..|links| - 1])
  {
    hide Joins;
    var last := |links| - 1;
    JoinedMembers(db, links[..last], links[last].user);
    if SomeRowJoins(db, links[..last], links[last].user) {
      var k :| 0 <= k < last && Joins(db, links[..last][k]) && links[..last][k].user == links[last].user;
      JoinedRowsDiffer(db, links, k, last);
      assert false;
    }
  }

  lemma {:induction false} JoinedOnce(db: Db, links: seq<UserRole>)
    requires Distinct(links) && Distinct(db.roles)
    ensures JoinedRows(db, links) == |Joined(db, links)|
  {
    hide Joins;
    if links != [] {
      var last := |links| - 1;
      assert Distinct(links[..last]);
      JoinedOnce(db, links[..last]);
      if Joins(db, links[last]) {
        LastRowIsNew(db, links);
      }
    }
  }

  /** The joined row count is the number of distinct active administrators. */
  lemma CountIsAdmins(db: Db)
    requires Keys(db)
    ensures ActiveAdminCount(db) == |ActiveAdmins(db)|
  {
    JoinedOnce(db, db.links);
    forall u: nat
      ensures u in Joined(db, db.links) <==> ActiveAdmin(db, u)
    {
      JoinedMembers(db, db.links, u);
      if ActiveAdmin(db, u) {
        var k :| 0 <= k < |db.links| && LinkGives(db, db.links[k], u, Administrator);
        assert Joins(db, db.links[k]);
      }
    }
    assert Joined(db, db.links) == ActiveAdmins(db);
  }

  // ---------------------------------------------------------------------
  // One request
  // ---------------------------------------------------------------------

  lemma {:induction false} FilterDistinct<T(!new)>(s: seq<T>, p: T -> bool)
    requires Distinct(s)
    ensures Distinct(Filter(s, p))
  {
    if s != [] {
      var last := |s| - 1;
      assert forall i :: 0 <= i < last ==> s[..last][i] == s[i];
      FilterDistinct(s[..last], p);
      assert s[last] !in s[..last];
    }
  }

  lemma AssignKeepsKeys(db: Db, kept: seq<UserRole>, user: nat, names: seq<string>)
    requires Keys(db) && user < |db.users|
    requires forall l :: l in kept ==> l in db.links
    ensures Keys(Assign(db, kept, user, names).0)
  {
    var t := Assign(db, kept, user, names).0;
    forall k | 0 <= k < |t.links|
      ensures t.links[k].user < |db.users| && t.links[k].role < |db.roles|
    {
      if t.links != db.links && k < |kept| {
        assert kept[k] in db.links;
      }
    }
  }

  lemma {:induction false} HandleKeepsKeys(db: Db, session: Option<string>, req: Request)
    requires Keys(db)
    ensures Keys(Handle(db, session, req).0)
  {
    hide Assign;
    if req.Create? && FindUser(db.users, req.login).None? {
      AssignKeepsKeys(db.(users := db.users + [User(req.login, true)]), db.links, |db.users|, req.names);
    }
    if req.UpdateRoles? && req.target < |db.users| {
      AssignKeepsKeys(db, LinksOfOthers(db, req.target), req.target, req.names);
    }
  }

  lemma AddedGivesAt(db: Db, user: nat, names: seq<string>, i: nat, u: nat, n: RoleName)
    requires RoleIds(db.roles, names).Ids? && i < |names|
    ensures var added := LinksFor(user, RoleIds(db.roles, names).ids);
      |added| == |names| && (LinkGives(db, added[i], u, n) <==> u == user && names[i] == Value(n))
  {
    var id := RoleIds(db.roles, names).ids[i];
    ValueInjective(db.roles[id], n);
  }

  lemma {:induction false} AddedGive(db: Db, user: nat, names: seq<string>, u: nat, n: RoleName)
    requires RoleIds(db.roles, names).Ids?
    ensures var added := LinksFor(user, RoleIds(db.roles, names).ids);
      (exists i :: 0 <= i < |added| && LinkGives(db, added[i], u, n))
        <==> u == user && Value(n) in names
  {
    hide LinkGives;
    hide RoleIds;
    hide Value;
    var added := LinksFor(user, RoleIds(db.roles, names).ids);
    if i :| 0 <= i < |added| && LinkGives(db, added[i], u, n) {
      AddedGivesAt(db, user, names, i, u, n);
    }
    if u == user && Value(n) in names {
      var i :| 0 <= i < |names| && names[i] == Value(n);
      AddedGivesAt(db, user, names, i, u, n);
    }
  }

  /** After a committed role loop a user holds exactly the roles the names say,
      and everyone else those of the kept rows. */
  lemma {:induction false} AssignedRoles(db: Db, kept: seq<UserRole>, user: nat, names: seq<string>, u: nat, n: RoleName)
    requires Assign(db, kept, user, names).1 == Done
    requires forall k :: 0 <= k < |kept| ==> kept[k].user != user
    ensures HoldsRole(Assign(db, kept, user, names).0, u, n)
       <==> if u == user then Value(n) in names
            else exists k :: 0 <= k < |kept| && LinkGives(db, kept[k], u, n)
  {
    hide Distinct;
    var t := Assign(db, kept, user, names).0;
    var added := LinksFor(user, RoleIds(db.roles, names).ids);
    AddedGive(db, user, names, u, n);
    assert forall k :: 0 <= k < |kept| ==> t.links[k] == kept[k];
    assert forall i :: 0 <= i < |added| ==> t.links[|kept| + i] == added[i];
    if HoldsRole(t, u, n) {
      var k :| 0 <= k < |t.links| && LinkGives(t, t.links[k], u, n);
      if k < |kept| {
        assert LinkGives(db, kept[k], u, n);
      } else {
        assert LinkGives(db, added[k - |kept|], u, n);
      }
    }
    if k :| 0 <= k < |kept| && LinkGives(db, kept[k], u, n) {
      assert LinkGives(t, t.links[k], u, n);
    }
    if i :| 0 <= i < |added| && LinkGives(db, added[i], u, n) {
      assert LinkGives(t, t.links[|kept| + i], u, n);
    }
  }

  /** Who is an active administrator after a request that went through. */
  ghost function AdminsAfter(db: Db, req: Request): set<nat> {
    match req
    case Create(login, names) => ActiveAdmins(db) + if Value(Administrator) in names then {|db.users|} else {}
    case Deactivate(target) => ActiveAdmins(db) - {target}
    case Activate(target) => ActiveAdmins(db) + if IsAdmin(db, target) then {target} else {}
    case UpdateRoles(target, names) =>
      if target < |db.users| && db.users[target].active && Value(Administrator) in names
      then ActiveAdmins(db) + {target} else ActiveAdmins(db) - {target}
  }

  lemma SameLinks(db: Db, t: Db)
    requires t.links == db.links && t.roles == db.roles
    ensures forall u: nat, n :: HoldsRole(t, u, n) <==> HoldsRole(db, u, n)
  {
    assert forall l, u: nat, n :: LinkGives(t, l, u, n) <==> LinkGives(db, l, u, n);
  }

  lemma NoRoleYet(db: Db, u: nat, n: RoleName)
    requires Keys(db) && u >= |db.users|
    ensures !HoldsRole(db, u, n)
  {
  }

  lemma {:induction false} CreatedRole(db: Db, grown: Db, user: nat, names: seq<string>, u: nat, n: RoleName)
    requires grown.links == db.links && grown.roles == db.roles
    requires Assign(grown, db.links, user, names).1.Done?
    requires forall k :: 0 <= k < |db.links| ==> db.links[k].user != user
    ensures HoldsRole(Assign(grown, db.links, user, names).0, u, n)
       <==> if u == user then Value(n) in names else HoldsRole(db, u, n)
  {
    hide Assign;
    AssignedRoles(grown, db.links, user, names, u, n);
    assert forall k :: 0 <= k < |db.links| ==>
      (LinkGives(grown, db.links[k], u, n) <==> LinkGives(db, db.links[k], u, n));
  }

  lemma AssignKeepsTheRest(db: Db, kept: seq<UserRole>, user: nat, names: seq<string>)
    ensures var (t, reply) := Assign(db, kept, user, names);
      t.users == db.users && t.roles == db.roles && (!reply.Done? ==> t == db)
  {
  }

  lemma {:induction false} CreateAdmins(db: Db, session: Option<string>, login: string, names: seq<string>)
    requires Keys(db)
    ensures var (t, reply) := Handle(db, session, Create(login, names));
      ActiveAdmins(t) == if reply.Done? then AdminsAfter(db, Create(login, names)) else ActiveAdmins(db)
  {
    hide Assign;
    hide HoldsRole;
    hide JoinedRows;
    var (t, reply) := Handle(db, session, Create(login, names));
    var grown := db.(users := db.users + [User(login, true)]);
    SameLinks(db, grown);
    NoRoleYet(db, |db.users|, Administrator);
    AssignKeepsTheRest(grown, db.links, |db.users|, names);
    if reply.Done? {
      forall u: nat
        ensures IsAdmin(t, u) <==> if u == |db.users| then Value(Administrator) in names else IsAdmin(db, u)
      {
        CreatedRole(db, grown, |db.users|, names, u, Administrator);
      }
    }
  }

  lemma {:induction false} UpdatedRole(db: Db, target: nat, names: seq<string>, u: nat, n: RoleName)
    requires Assign(db, LinksOfOthers(db, target), target, names).1.Done?
    ensures HoldsRole(Assign(db, LinksOfOthers(db, target), target, names).0, u, n)
       <==> if u == target then Value(n) in names else HoldsRole(db, u, n)
  {
    hide Assign;
    var kept := LinksOfOthers(db, target);
    assert forall k :: 0 <= k < |kept| ==> kept[k] in kept;
    AssignedRoles(db, kept, target, names, u, n);
    if u != target && HoldsRole(db, u, n) {
      var k :| 0 <= k < |db.links| && LinkGives(db, db.links[k], u, n);
      assert db.links[k] in kept;
      var m :| 0 <= m < |kept| && kept[m] == db.links[k];
      assert LinkGives(db, kept[m], u, n);
    }
    if exists m :: 0 <= m < |kept| && LinkGives(db, kept[m], u, n) {
      var m :| 0 <= m < |kept| && LinkGives(db, kept[m], u, n);
      assert kept[m] in db.links;
    }
  }

  lemma {:induction false} UpdateAdmins(db: Db, session: Option<string>, target: nat, names: seq<string>)
    requires Keys(db)
    ensures var (t, reply) := Handle(db, session, UpdateRoles(target, names));
      ActiveAdmins(t) == if reply.Done? then AdminsAfter(db, UpdateRoles(target, names)) else ActiveAdmins(db)
  {
    hide LinksOfOthers;
    hide Assign;
    hide RemovesAdmin;
    hide JoinedRows;
    hide HoldsRole;
    var (t, reply) := Handle(db, session, UpdateRoles(target, names));
    AssignKeepsTheRest(db, LinksOfOthers(db, target), target, names);
    if reply.Done? {
      forall u: nat
        ensures IsAdmin(t, u) <==> if u == target then Value(Administrator) in names else IsAdmin(db, u)
      {
        UpdatedRole(db, target, names, u, Administrator);
      }
    }
  }

  /** A request that goes through changes the active administrators as it says;
      any other request leaves them as they are. */
  lemma {:induction false} RequestChangesAdmins(db: Db, session: Option<string>, req: Request)
    requires Keys(db)
    ensures var (t, reply) := Handle(db, session, req);
      ActiveAdmins(t) == if reply.Done? then AdminsAfter(db, req) else ActiveAdmins(db)
  {
    hide Assign;
    hide HoldsRole;
    hide JoinedRows;
    var (t, reply) := Handle(db, session, req);
    match req {
      case Create(login, names) => CreateAdmins(db, session, login, names);
      case Deactivate(target) => SameLinks(db, t);
      case Activate(target) => SameLinks(db, t);
      case UpdateRoles(target, names) => UpdateAdmins(db, session, target, names);
    }
  }

  /** Whose roles a request that goes through changes, and to what. */
  lemma {:induction false} RolesAfter(db: Db, session: Option<string>, req: Request, u: nat, n: RoleName)
    requires Keys(db) && Handle(db, session, req).1.Done?
    ensures HoldsRole(Handle(db, session, req).0, u, n)
       <==> match req
            case Create(_, names) => if u == |db.users| then Value(n) in names else HoldsRole(db, u, n)
            case UpdateRoles(target, names) => if u == target then Value(n) in names else HoldsRole(db, u, n)
            case _ => HoldsRole(db, u, n)
  {
    hide Assign;
    hide HoldsRole;
    hide JoinedRows;
    var t := Handle(db, session, req).0;
    match req {
      case Create(login, names) =>
        var grown := db.(users := db.users + [User(login, true)]);
        CreatedRole(db, grown, |db.users|, names, u, n);
      case UpdateRoles(target, names) => UpdatedRole(db, target, names, u, n);
      case _ => SameLinks(db, t);
    }
  }

  /** The rows that a request leaves: user rows as it says, and every link row of
      any other user. */
  lemma {:induction false} RowsAfter(db: Db, session: Option<string>, req: Request)
    ensures var (t, reply) := Handle(db, session, req);
      && t.roles == db.roles
      && (!reply.Done? && !req.Create? ==> t == db)
      && (reply.Done? ==>
            match req
            case Create(login, _) => t.users == db.users + [User(login, true)] && db.links <= t.links
            case Deactivate(target) =>
              && target < |db.users| && t.links == db.links
              && t.users == db.users[target := User(db.users[target].login, false)]
            case Activate(target) =>
              && target < |db.users| && t.links == db.links
              && t.users == db.users[target := User(db.users[target].login, true)]
            case UpdateRoles(target, _) =>
              t.users == db.users && forall l: UserRole :: l.user != target ==> (l in t.links <==> l in db.links))
  {
    hide RoleIds;
    hide Distinct;
    hide HoldsRole;
    hide JoinedRows;
  }

  // ---------------------------------------------------------------------
  // What request sequences keep
  // ---------------------------------------------------------------------

  lemma AssignReplies(db: Db, kept: seq<UserRole>, user: nat, names: seq<string>)
    ensures Assign(db, kept, user, names).1 in {Done, NoRoles, Raised}
  {
  }

  lemma {:induction false} ServeReplies(db: Db, me: nat, req: Request)
    ensures Serve(db, me, req).1 !in {ToLogin, Forbidden}
  {
    hide Assign;
    hide IsAdmin;
    hide JoinedRows;
    if req.Create? {
      AssignReplies(db.(users := db.users + [User(req.login, true)]), db.links, |db.users|, req.names);
    } else if req.UpdateRoles? {
      AssignReplies(db, LinksOfOthers(db, req.target), req.target, req.names);
    }
  }

  /** Only an active administrator is served; for anyone else nothing changes. */
  lemma OnlyAdminsAreServed(db: Db, session: Option<string>, req: Request)
    ensures var (t, reply) := Handle(db, session, req);
      var me := Actor(db, session);
      && (reply !in {ToLogin, Forbidden} <==> me.Some? && ActiveAdmin(db, me.value))
      && (reply in {ToLogin, Forbidden} ==> t == db)
  {
    var me := Actor(db, session);
    if me.Some? {
      ServeReplies(db, me.value, req);
    }
  }

  /** The session's user is the active one with its login. */
  lemma ActorIs(db: Db, session: Option<string>, u: nat)
    requires Keys(db)
    ensures Actor(db, session) == Some(u)
       <==> session.Some? && u < |db.users| && db.users[u].login == session.value && db.users[u].active
  {
  }

  /** The names a request may give for roles. */
  lemma KnownNames(name: string)
    ensures Parse(name).Some? <==> name in {"Validation Tester", "Validation Lead", "QA", "Administrator"}
    ensures Value(Administrator) == "Administrator"
  {
  }

  lemma OnlyElement(s: set<nat>, x: nat)
    requires s <= {x}
    ensures |s| <= 1
  {
    assert s == {} || s == {x};
  }

  lemma ActiveAdminMeans(db: Db, u: nat)
    requires ActiveAdmin(db, u)
    ensures u < |db.users| && db.users[u].active && IsAdmin(db, u)
  {
  }

  lemma {:induction false} HandleKeepsAdmin(db: Db, session: Option<string>, req: Request)
    requires Keys(db) && ActiveAdmins(db) != {}
    ensures ActiveAdmins(Handle(db, session, req).0) != {}
  {
    hide Assign;
    hide ActiveAdmin;
    hide JoinedRows;
    RequestChangesAdmins(db, session, req);
    var reply := Handle(db, session, req).1;
    if reply.Done? {
      OnlyAdminsAreServed(db, session, req);
      var me := Actor(db, session).value;
      assert me in ActiveAdmins(db);
      CountIsAdmins(db);
      if req.UpdateRoles? && ActiveAdmins(db) <= {req.target} {
        OnlyElement(ActiveAdmins(db), req.target);
        assert me == req.target;
        assert ActiveAdmin(db, me);
        ActiveAdminMeans(db, me);
      }
    }
  }

  /** From any state with an active administrator, every sequence of requests, by
      whichever sessions, keeps the keys and at least one active administrator. */
  lemma {:induction false} AnAdminRemains(db: Db, requests: seq<(Option<string>, Request)>)
    requires Keys(db) && ActiveAdmins(db) != {}
    ensures Keys(Run(db, requests)) && ActiveAdmins(Run(db, requests)) != {}
  {
    hide Keys;
    hide ActiveAdmins;
    hide Handle;
    if requests != [] {
      var last := |requests| - 1;
      AnAdminRemains(db, requests[..last]);
      HandleKeepsKeys(Run(db, requests[..last]), requests[last].0, requests[last].1);
      HandleKeepsAdmin(Run(db, requests[..last]), requests[last].0, requests[last].1);
    }
  }

  lemma OnlyOne(s: set<nat>, x: nat)
    requires x in s && |s| <= 1
    ensures s == {x}
  {
    assert |s - {x}| == 0;
  }

  /** The refusal to remove the last administrator. Switching a user off is
      refused exactly when another administrator, the only active one, asks for an
      administrator who is already off: the guard against switching oneself off
      has caught every other case. */
  lemma DeactivateRefusedIff(db: Db, session: Option<string>, target: nat)
    requires Keys(db)
    ensures Handle(db, session, Deactivate(target)).1 == LastAdmin
       <==> var me := Actor(db, session);
            && me.Some? && ActiveAdmins(db) == {me.value}
            && target < |db.users| && IsAdmin(db, target) && !db.users[target].active
  {
    var me := Actor(db, session);
    CountIsAdmins(db);
    if Handle(db, session, Deactivate(target)).1 == LastAdmin {
      OnlyOne(ActiveAdmins(db), me.value);
      assert db.users[target].active ==> target in ActiveAdmins(db);
    }
    if me.Some? && ActiveAdmins(db) == {me.value} {
      assert me.value in ActiveAdmins(db) && |ActiveAdmins(db)| == 1;
    }
  }

  /** A role change is refused as taking the last administrator exactly when the
      asking user is the only active one and the change takes the role from that
      user or from one who is switched off. */
  lemma {:induction false} UpdateRefusedIff(db: Db, session: Option<string>, target: nat, names: seq<string>)
    requires Keys(db)
    ensures Handle(db, session, UpdateRoles(target, names)).1 == LastAdmin
       <==> var me := Actor(db, session);
            && me.Some? && ActiveAdmins(db) == {me.value}
            && target < |db.users| && names != [] && RemovesAdmin(db, target, names)
            && (target == me.value || !db.users[target].active)
  {
    hide Assign;
    AssignReplies(db, LinksOfOthers(db, target), target, names);
    var me := Actor(db, session);
    CountIsAdmins(db);
    if Handle(db, session, UpdateRoles(target, names)).1 == LastAdmin {
      OnlyOne(ActiveAdmins(db), me.value);
      assert db.users[target].active ==> target in ActiveAdmins(db);
    }
    if me.Some? && ActiveAdmins(db) == {me.value} {
      assert me.value in ActiveAdmins(db) && |ActiveAdmins(db)| == 1;
    }
  }

  /** Every name is the value of a stored role, and no name is given twice. */
  predicate Assignable(roles: seq<RoleName>, names: seq<string>) {
    Distinct(names) && forall i :: 0 <= i < |names| ==> exists n :: n in roles && Value(n) == names[i]
  }

  lemma DoneIffAssignable(db: Db, kept: seq<UserRole>, user: nat, names: seq<string>)
    requires Distinct(kept) && Distinct(db.roles) && forall k :: 0 <= k < |kept| ==> kept[k].user != user
    ensures Assign(db, kept, user, names).1.Done? <==> Assignable(db.roles, names)
  {
    var found := RoleIds(db.roles, names);
    if found.Ids? {
      var all := kept + LinksFor(user, found.ids);
      assert forall i :: 0 <= i < |names| ==> all[|kept| + i] == UserRole(user, found.ids[i]);
      if Distinct(all) {
        forall i, j | 0 <= i < j < |names|
          ensures names[i] != names[j]
        {
          assert all[|kept| + i] != all[|kept| + j];
          ValueInjective(db.roles[found.ids[i]], db.roles[found.ids[j]]);
        }
        assert forall i :: 0 <= i < |names| ==> db.roles[found.ids[i]] in db.roles;
      }
      if Distinct(names) {
        forall i, j | 0 <= i < j < |all|
          ensures all[i] != all[j]
        {
          if i >= |kept| {
            assert names[i - |kept|] != names[j - |kept|];
          }
        }
      }
    }
  }

  /** Creating a user goes through exactly when the names can be assigned. When it
      does not, the user is stored all the same, with no role, and asking again
      for that login is refused. */
  lemma {:induction false} CreateIsAllOrRoleless(db: Db, me: nat, login: string, names: seq<string>)
    requires Keys(db) && FindUser(db.users, login).None? && names != []
    ensures var (t, reply) := Serve(db, me, Create(login, names));
      && t.users == db.users + [User(login, true)]
      && (reply.Done? <==> Assignable(db.roles, names))
      && (!reply.Done? ==> t.links == db.links)
      && forall again :: Serve(t, me, Create(login, again)) == (t, Exists)
  {
    hide Assign;
    hide Assignable;
    hide JoinedRows;
    hide IsAdmin;
    hide Distinct;
    var grown := db.(users := db.users + [User(login, true)]);
    AssignKeepsTheRest(grown, db.links, |db.users|, names);
    DoneIffAssignable(grown, db.links, |db.users|, names);
    assert grown.users[|db.users|].login == login;
  }

  lemma OthersKeepDistinct(db: Db, target: nat)
    requires Distinct(db.links)
    ensures var kept := LinksOfOthers(db, target); Distinct(kept) && forall k :: 0 <= k < |kept| ==> kept[k].user != target
  {
    var kept := LinksOfOthers(db, target);
    FilterDistinct(db.links, (l: UserRole) => l.user != target);
    assert forall k :: 0 <= k < |kept| ==> kept[k] in kept;
  }

  /** What the request asks for exists and can be stored, and the
      request is not refused for the sake of the last active administrator. */
  ghost predicate Allowed(db: Db, me: nat, req: Request) {
    match req
    case Create(login, names) =>
      (forall i :: 0 <= i < |db.users| ==> db.users[i].login != login) && names != [] && Assignable(db.roles, names)
    case Activate(target) => target < |db.users|
    case Deactivate(target) =>
      && target < |db.users| && target != me
      && !(ActiveAdmins(db) == {me} && IsAdmin(db, target) && !db.users[target].active)
    case UpdateRoles(target, names) =>
      && target < |db.users| && names != [] && Assignable(db.roles, names)
      && !(ActiveAdmins(db) == {me} && IsAdmin(db, target) && "Administrator" !in names
           && (target == me || !db.users[target].active))
  }

  /** When a request goes through. */
  lemma {:induction false} GoesThroughIff(db: Db, session: Option<string>, req: Request)
    requires Keys(db)
    ensures var me := Actor(db, session);
      Handle(db, session, req).1.Done? <==> me.Some? && ActiveAdmin(db, me.value) && Allowed(db, me.value, req)
  {
    hide Assign;
    hide Assignable;
    hide HoldsRole;
    hide JoinedRows;
    hide LinksOfOthers;
    var me := Actor(db, session);
    match req {
      case Create(login, names) =>
        var grown := db.(users := db.users + [User(login, true)]);
        DoneIffAssignable(grown, db.links, |db.users|, names);
      case Activate(target) =>
      case Deactivate(target) => DeactivateRefusedIff(db, session, target);
      case UpdateRoles(target, names) =>
        UpdateRefusedIff(db, session, target, names);
        OthersKeepDistinct(db, target);
        DoneIffAssignable(db, LinksOfOthers(db, target), target, names);
    }
  }

  /** Why a request is refused before any role is looked up, case by case. */
  lemma {:induction false} RefusedBecause(db: Db, session: Option<string>, req: Request)
    ensures var me, reply := Actor(db, session), Handle(db, session, req).1;
      && (reply.ToLogin? <==> me == None)
      && (reply.Forbidden? <==> me.Some? && !HoldsRole(db, me.value, Administrator))
      && (me.Some? && HoldsRole(db, me.value, Administrator) ==>
            && (reply.Exists? <==> req.Create? && exists u :: u in db.users && u.login == req.login)
            && (reply.Missing? <==> !req.Create? && req.target >= |db.users|)
            && (reply.IsSelf? <==> req.Deactivate? && req.target == me.value && me.value < |db.users|))
  {
    hide HoldsRole;
    hide RoleIds;
    hide JoinedRows;
    hide Distinct;
    hide LinksOfOthers;
    if req.Create? {
      var found := FindUser(db.users, req.login);
      if found.Some? {
        assert db.users[found.value] in db.users;
      }
    }
  }

  /** With a name that no stored role has, the first such name decides the reply:
      a name the program does not know raises, one that is merely not stored is
      answered, and nothing but a new user without roles is left. */
  lemma {:induction false} BadNameReply(db: Db, session: Option<string>, req: Request, names: seq<string>, i: nat)
    requires FirstBad(db.roles, names, i)
    requires Actor(db, session).Some? && IsAdmin(db, Actor(db, session).value)
    requires match req
             case Create(login, given) => given == names && forall u :: 0 <= u < |db.users| ==> db.users[u].login != login
             case UpdateRoles(target, given) =>
               given == names && target < |db.users| && !(RemovesAdmin(db, target, names) && ActiveAdminCount(db) <= 1)
             case _ => false
    ensures Handle(db, session, req).1 == if exists n: RoleName :: Value(n) == names[i] then NoRoles else Raised
    ensures Handle(db, session, req).0.links == db.links && Handle(db, session, req).0.roles == db.roles
  {
    hide HoldsRole;
    hide RoleIds;
    hide JoinedRows;
    hide Distinct;
    hide LinksOfOthers;
    FirstBadDecides(db.roles, names, i);
  }

  // ---------------------------------------------------------------------
  // The handlers
  // ---------------------------------------------------------------------

  class AdminPages {
    var users: seq<User>
    var roles: seq<RoleName>
    var links: seq<UserRole>

    constructor (db: Db)
      ensures Tables() == db
    {
      users, roles, links := db.users, db.roles, db.links;
    }

    function Tables(): Db
      reads this
    {
      Db(users, roles, links)
    }

    /** The loop over the submitted names, and its commit. */
    method AssignRoles(kept: seq<UserRole>, user: nat, names: seq<string>) returns (reply: Reply)
      modifies this`links
      ensures (Tables(), reply) == Assign(old(Tables()), kept, user, names)
    {
      hide Distinct;
      var ids: seq<nat> := [];
      for i := 0 to |names|
        invariant RoleIds(roles, names) == Prepend(ids, RoleIds(roles, names[i..]))
        invariant links == old(links)
      {
        var name := Parse(names[i]);
        if name.None? {
          return Raised;
        }
        var role := FindRole(roles, name.value);
        if role.None? {
          return NoRoles;
        }
        assert names[i..][1..] == names[i + 1..];
        PrependMore(ids, role.value, RoleIds(roles, names[i + 1..]));
        ids := ids + [role.value];
      }
      assert ids + [] == ids;
      assert RoleIds(roles, names) == Ids(ids);
      var rows := kept + LinksFor(user, ids);
      if !Distinct(rows) {
        return Raised;
      }
      links := rows;
      return Done;
    }

    method CreateUser(session: Option<string>, login: string, names: seq<string>) returns (reply: Reply)
      modifies this
      ensures (Tables(), reply) == Handle(old(Tables()), session, Create(login, names))
    {
      hide Assign;
      var me := Actor(Tables(), session);
      if me.None? {
        return ToLogin;
      }
      if !IsAdmin(Tables(), me.value) {
        return Forbidden;
      }
      if FindUser(users, login).Some? {
        return Exists;
      }
      if names == [] {
        return NoRoles;
      }
      users := users + [User(login, true)];
      reply := AssignRoles(links, |users| - 1, names);
    }

    method DeactivateUser(session: Option<string>, target: nat) returns (reply: Reply)
      modifies this
      ensures (Tables(), reply) == Handle(old(Tables()), session, Deactivate(target))
    {
      var me := Actor(Tables(), session);
      if me.None? {
        return ToLogin;
      }
      if !IsAdmin(Tables(), me.value) {
        return Forbidden;
      }
      if target >= |users| {
        return Missing;
      }
      if target == me.value {
        return IsSelf;
      }
      if IsAdmin(Tables(), target) && ActiveAdminCount(Tables()) <= 1 {
        return LastAdmin;
      }
      users := users[target := users[target].(active := false)];
      return Done;
    }

    method ActivateUser(session: Option<string>, target: nat) returns (reply: Reply)
      modifies this
      ensures (Tables(), reply) == Handle(old(Tables()), session, Activate(target))
    {
      var me := Actor(Tables(), session);
      if me.None? {
        return ToLogin;
      }
      if !IsAdmin(Tables(), me.value) {
        return Forbidden;
      }
      if target >= |users| {
        return Missing;
      }
      users := users[target := users[target].(active := true)];
      return Done;
    }

    method ChangeRoles(session: Option<string>, target: nat, names: seq<string>) returns (reply: Reply)
      modifies this
      ensures (Tables(), reply) == Handle(old(Tables()), session, UpdateRoles(target, names))
    {
      hide Assign;
      var me := Actor(Tables(), session);
      if me.None? {
        return ToLogin;
      }
      if !IsAdmin(Tables(), me.value) {
        return Forbidden;
      }
      if target >= |users| {
        return Missing;
      }
      if names == [] {
        return NoRoles;
      }
      if RemovesAdmin(Tables(), target, names) && ActiveAdminCount(Tables()) <= 1 {
        return LastAdmin;
      }
      reply := AssignRoles(LinksOfOthers(Tables(), target), target, names);
    }
  }
}

/** Changes to policies, groups and attachments under the lockout guard
    (src/application/iam.rs): no change may leave the instance without an active
    AdministratorAccess holder able to manage IAM. */
module IamGuard {
  import opened Prelude
  import opened Tables
  import opened Transactions
  import opened Iam

  datatype AccountStatus = Pending | Active | Blocked

  datatype PolicyRow = PolicyRow(policy: Policy, managed: bool, version: nat)

  datatype IamTables = IamTables(
    next: nat, accounts: map<nat, AccountStatus>, policies: map<nat, PolicyRow>, groups: map<nat, string>,
    groupPolicies: set<(nat, nat)>, userGroups: set<(nat, nat)>, userPolicies: set<(nat, nat)>,
    grants: map<nat, Grant>)

  const ADMINISTRATOR_ACCESS: nat := 0
  const PUBLICO: nat := 1
  const IAM_MANAGE := "iam:manage"
  const BASELINE := Statement(Some("PerfilProprio"), Allow, ["profile:read"], [ANY_RESOURCE])

  // ------------------------------------------------------------ effective access

  predicate ViaGroup(t: IamTables, u: nat, p: nat) {
    exists g :: g in t.userGroups && g.0 == u && (g.1, p) in t.groupPolicies
  }

  predicate AttachedTo(t: IamTables, u: nat, p: nat) { (u, p) in t.userPolicies || ViaGroup(t, u, p) }

  /** `Publico` plus what is attached to the account directly or through groups; only an
      active account has attachments, and a blocked one has nothing. */
  predicate InForce(t: IamTables, u: nat, status: AccountStatus, p: nat) {
    && p in t.policies && !status.Blocked? && (p == PUBLICO || (status.Active? && AttachedTo(t, u, p)))
  }

  ghost predicate HeldBy(t: IamTables, u: nat, status: AccountStatus, s: Statement) {
    && !status.Blocked?
    && (s == BASELINE || exists p :: InForce(t, u, status, p) && s in t.policies[p].policy.statements)
  }

  ghost predicate SomeHeld(t: IamTables, u: nat, status: AccountStatus, effect: Effect, action: string,
                           resource: string)
  {
    exists s :: HeldBy(t, u, status, s) && s.effect == effect && Applies(s, action, resource)
  }

  ghost predicate Can(t: IamTables, u: nat, status: AccountStatus, action: string, resource: string) {
    SomeHeld(t, u, status, Allow, action, resource) && !SomeHeld(t, u, status, Deny, action, resource)
  }

  ghost predicate Holder(t: IamTables, u: nat) {
    u in t.accounts && t.accounts[u].Active? && AttachedTo(t, u, ADMINISTRATOR_ACCESS)
  }

  /** Some active AdministratorAccess holder can still manage IAM. */
  ghost predicate HasManager(t: IamTables) {
    exists u :: Holder(t, u) && Can(t, u, Active, IAM_MANAGE, ANY_RESOURCE)
  }

  // ------------------------------------------------------------ changes

  datatype Change =
    | CreatePolicy(policy: Policy) | UpdatePolicy(p: nat, statements: seq<Statement>) | DeletePolicy(p: nat)
    | CreateGroup(name: string) | DeleteGroup(g: nat)
    | SetGroupPolicy(g: nat, p: nat, attach: bool)
    | SetGroupMember(g: nat, u: nat, member: bool)
    | SetUserPolicy(u: nat, p: nat, attach: bool)

  predicate PolicyNameTaken(t: IamTables, name: string) {
    exists p :: p in t.policies && t.policies[p].policy.name == name
  }
  predicate GroupNameTaken(t: IamTables, name: string) { exists g :: g in t.groups && t.groups[g] == name }

  predicate HasAttachment(t: IamTables, p: nat) {
    (exists up :: up in t.userPolicies && up.1 == p) || (exists gp :: gp in t.groupPolicies && gp.1 == p)
  }

  /** One row added to or removed from an attachment table. */
  function Toggle(rows: set<(nat, nat)>, row: (nat, nat), add: bool): Result<set<(nat, nat)>> {
    if add then
      if row in rows then Err(Conflict(AlreadyAttached)) else Ok(rows + {row})
    else
      if row in rows then Ok(rows - {row}) else Err(NotFound)
  }

  /** The rows a change writes, before the guard. */
  function Written(t: IamTables, change: Change): Result<IamTables> {
    match change
    case CreatePolicy(policy) =>
      if PolicyNameTaken(t, policy.name) then Err(Conflict(NameTaken))
      else Ok(t.(next := t.next + 1, policies := t.policies[t.next := PolicyRow(policy, false, 1)]))
    case UpdatePolicy(p, statements) =>
      if p !in t.policies then Err(NotFound)
      else if t.policies[p].managed then Err(Conflict(Managed))
      else
        var row := t.policies[p];
        Ok(t.(policies := t.policies[p := PolicyRow(Policy(row.policy.name, statements), false, row.version + 1)]))
    case DeletePolicy(p) =>
      if p !in t.policies then Err(NotFound)
      else if t.policies[p].managed then Err(Conflict(Managed))
      else if HasAttachment(t, p) then Err(Conflict(Clash.Attached))
      else Ok(t.(policies := t.policies - {p}))
    case CreateGroup(name) =>
      if GroupNameTaken(t, name) then Err(Conflict(NameTaken))
      else Ok(t.(next := t.next + 1, groups := t.groups[t.next := name]))
    case DeleteGroup(g) =>
      if g !in t.groups then Err(NotFound)
      else Ok(t.(userGroups := (set r | r in t.userGroups && r.1 != g),
                 groupPolicies := (set r | r in t.groupPolicies && r.0 != g),
                 groups := t.groups - {g}))
    case SetGroupPolicy(g, p, attach) =>
      if g !in t.groups || p !in t.policies then Err(NotFound)
      else
        var rows :- Toggle(t.groupPolicies, (g, p), attach);
        Ok(t.(groupPolicies := rows))
    case SetGroupMember(g, u, member) =>
      if g !in t.groups then Err(NotFound)
      else if u !in t.accounts then Err(Validation)
      else
        var rows :- Toggle(t.userGroups, (u, g), member);
        Ok(t.(userGroups := rows))
    case SetUserPolicy(u, p, attach) =>
      if u !in t.accounts || p !in t.policies then Err(NotFound)
      else
        var rows :- Toggle(t.userPolicies, (u, p), attach);
        Ok(t.(userPolicies := rows))
  }

  ghost function Spend(t: IamTables, now: int, session: nat): Result<IamTables> {
    var usable := UsableGrants(t.grants, now, session, ManageIam, 0);
    if usable == {} then Err(ReauthRequired)
    else
      var g := Oldest(t.grants, usable);
      Ok(t.(grants := t.grants[g := t.grants[g].(consumedAt := Some(now))]))
  }

  /** A whole change: permission, grant, rows, guard. An error commits nothing, so the
      grant is not spent either. */
  ghost function ChangeTx(t: IamTables, now: int, session: nat, mayManage: bool, change: Change): Result<IamTables> {
    if !mayManage then Err(Forbidden)
    else
      match Spend(t, now, session)
      case Err(e) => Err(e)
      case Ok(t1) =>
        match Written(t1, change)
        case Err(e) => Err(e)
        case Ok(t2) => if HasManager(t1) && !HasManager(t2) then Err(Conflict(Lockout)) else Ok(t2)
  }

  datatype Attempt = Attempt(now: int, session: nat, mayManage: bool, change: Change)

  ghost function AfterAttempt(t: IamTables, a: Attempt): IamTables {
    match ChangeTx(t, a.now, a.session, a.mayManage, a.change)
    case Ok(u) => u
    case Err(_) => t
  }

  ghost function AfterAll(t: IamTables, attempts: seq<Attempt>): IamTables {
    if attempts == [] then t else AfterAttempt(AfterAll(t, attempts[..|attempts| - 1]), attempts[|attempts| - 1])
  }

  // ------------------------------------------------------------ what the tables keep

  /** References hold and the two managed policies the guard relies on are as shipped:
      AdministratorAccess allows everything. */
  ghost predicate WellFormed(t: IamTables) {
    && (forall r :: r in t.groupPolicies ==> r.0 in t.groups && r.1 in t.policies)
    && (forall r :: r in t.userGroups ==> r.0 in t.accounts && r.1 in t.groups)
    && (forall r :: r in t.userPolicies ==> r.0 in t.accounts && r.1 in t.policies)
    && (forall p :: p in t.policies ==> p < t.next)
    && (forall g :: g in t.groups ==> g < t.next)
    && ADMINISTRATOR_ACCESS in t.policies && t.policies[ADMINISTRATOR_ACCESS].managed
    && t.policies[ADMINISTRATOR_ACCESS].policy.statements == [Statement(Some("TudoLiberado"), Allow, ["*"], ["*"])]
    && PUBLICO in t.policies && t.policies[PUBLICO].managed
  }

  lemma WrittenKeeps(t: IamTables, change: Change)
    requires WellFormed(t) && Written(t, change).Ok?
    ensures WellFormed(Written(t, change).value)
    ensures forall p :: p in t.policies && t.policies[p].managed ==>
              p in Written(t, change).value.policies && Written(t, change).value.policies[p] == t.policies[p]
    ensures Written(t, change).value.accounts == t.accounts && Written(t, change).value.grants == t.grants
  {
  }

  predicate Writes(t: IamTables, p: nat, s: Statement) {
    p in t.policies && s in t.policies[p].policy.statements
  }

  /** What an account of each status holds: nothing when blocked, its own profile and the
      public policy when pending, and also what is attached directly or through a group
      when active. */
  lemma HeldIs(t: IamTables, u: nat, s: Statement)
    ensures !HeldBy(t, u, Blocked, s)
    ensures HeldBy(t, u, Pending, s) <==>
              || s == Statement(Some("PerfilProprio"), Allow, ["profile:read"], ["*"])
              || (PUBLICO in t.policies && s in t.policies[PUBLICO].policy.statements)
    ensures HeldBy(t, u, Active, s) <==>
              || HeldBy(t, u, Pending, s)
              || (exists p :: p in t.policies && s in t.policies[p].policy.statements && (u, p) in t.userPolicies)
              || (exists p, g :: p in t.policies && s in t.policies[p].policy.statements
                                 && (u, g) in t.userGroups && (g, p) in t.groupPolicies)
  {
    if p :| p in t.policies && s in t.policies[p].policy.statements && (u, p) in t.userPolicies {
      assert InForce(t, u, Active, p);
    }
    if p: nat, g: nat :| Writes(t, p, s) && (u, g) in t.userGroups && (g, p) in t.groupPolicies {
      assert (u, g).0 == u && ((u, g).1, p) in t.groupPolicies;
      assert ViaGroup(t, u, p) && InForce(t, u, Active, p);
    }
    if PUBLICO in t.policies && s in t.policies[PUBLICO].policy.statements {
      assert InForce(t, u, Pending, PUBLICO) && InForce(t, u, Active, PUBLICO);
    }
    if HeldBy(t, u, Active, s) && s != BASELINE {
      var p :| InForce(t, u, Active, p) && s in t.policies[p].policy.statements;
      if ViaGroup(t, u, p) {
        var g :| g in t.userGroups && g.0 == u && (g.1, p) in t.groupPolicies;
        assert g == (u, g.1);
      }
    }
  }

  /** Somebody can manage IAM: an active account with AdministratorAccess, directly or
      through a group, that no Deny in force keeps from it. */
  lemma ManagerIff(t: IamTables)
    requires WellFormed(t)
    ensures HasManager(t) <==>
              exists u :: Holder(t, u) && !SomeHeld(t, u, Active, Deny, "iam:manage", "*")
    ensures forall u :: Holder(t, u) <==>
              && u in t.accounts && t.accounts[u].Active?
              && ((u, ADMINISTRATOR_ACCESS) in t.userPolicies ||
                  exists g :: (u, g) in t.userGroups && (g, ADMINISTRATOR_ACCESS) in t.groupPolicies)
  {
    hide WellFormed, Can, SomeHeld;
    forall u | Holder(t, u)
      ensures Can(t, u, Active, IAM_MANAGE, ANY_RESOURCE) <==> !SomeHeld(t, u, Active, Deny, "iam:manage", "*")
    {
      HolderIsManagerUnlessDenied(t, u);
    }
    forall u: nat
      ensures ViaGroup(t, u, ADMINISTRATOR_ACCESS) <==>
                exists g :: (u, g) in t.userGroups && (g, ADMINISTRATOR_ACCESS) in t.groupPolicies
    {
      if g :| g in t.userGroups && g.0 == u && (g.1, ADMINISTRATOR_ACCESS) in t.groupPolicies {
        assert g == (u, g.1);
      }
      if g :| (u, g) in t.userGroups && (g, ADMINISTRATOR_ACCESS) in t.groupPolicies {
        assert (u, g).0 == u && (u, g).1 == g;
      }
    }
  }

  /** A change is committed exactly with the permission, an open grant, rows it can write,
      and a manager left if there was one; then its rows are written and one grant is spent. */
  lemma ChangeIff(t: IamTables, now: int, session: nat, mayManage: bool, change: Change)
    requires WellFormed(t)
    ensures ChangeTx(t, now, session, mayManage, change).Ok? <==>
            && mayManage
            && (exists g :: && g in t.grants && t.grants[g].session == session && t.grants[g].action == ManageIam
                            && t.grants[g].resource == 0 && t.grants[g].consumedAt.None? && now < t.grants[g].expiresAt)
            && Written(t, change).Ok? && (HasManager(t) ==> HasManager(Written(t, change).value))
    ensures ChangeTx(t, now, session, mayManage, change).Ok? ==>
            && Written(t, change).Ok?
            && var u := ChangeTx(t, now, session, mayManage, change).value;
               && u == Written(t, change).value.(grants := u.grants)
               && exists g :: g in t.grants && u.grants == t.grants[g := t.grants[g].(consumedAt := Some(now))]
  {
    var usable := UsableGrants(t.grants, now, session, ManageIam, 0);
    if g :| && g in t.grants && t.grants[g].session == session && t.grants[g].action == ManageIam
            && t.grants[g].resource == 0 && t.grants[g].consumedAt.None? && now < t.grants[g].expiresAt {
      assert g in usable;
    }
    if usable != {} {
      var g := Oldest(t.grants, usable);
      assert g in usable;
      var t1 := Spend(t, now, session).value;
      assert t1 == t.(grants := t1.grants);
      GrantsAside(t, t1.grants);
      WrittenAside(t, t1.grants, change);
      if Written(t, change).Ok? {
        GrantsAside(Written(t, change).value, t1.grants);
      }
    }
    hide HasManager, WellFormed, Written, Oldest;
  }

  lemma WrittenAside(t: IamTables, grants: map<nat, Grant>, change: Change)
    ensures Written(t.(grants := grants), change).Ok? <==> Written(t, change).Ok?
    ensures Written(t, change).Ok? ==>
              Written(t.(grants := grants), change).value == Written(t, change).value.(grants := grants)
  {
  }

  /** What each change of a policy or group needs and leaves, everything else untouched. */
  lemma DefinitionsWritten(t: IamTables, change: Change)
    requires WellFormed(t)
    ensures match change
            case CreatePolicy(policy) =>
              && (Written(t, change).Ok? <==> forall p :: p in t.policies ==> t.policies[p].policy.name != policy.name)
              && (Written(t, change).Ok? ==>
                    && t.next !in t.policies
                    && Written(t, change).value ==
                       t.(next := t.next + 1, policies := t.policies[t.next := PolicyRow(policy, false, 1)]))
            case UpdatePolicy(p, statements) =>
              && (Written(t, change).Ok? <==> p in t.policies && !t.policies[p].managed)
              && (Written(t, change).Ok? ==>
                    && p in Written(t, change).value.policies
                    && var row := Written(t, change).value.policies[p];
                       && row.policy.name == t.policies[p].policy.name && row.policy.statements == statements
                       && !row.managed && row.version == t.policies[p].version + 1
                       && Written(t, change).value == t.(policies := t.policies[p := row]))
            case DeletePolicy(p) =>
              && (Written(t, change).Ok? <==>
                    && p in t.policies && !t.policies[p].managed
                    && (forall u :: (u, p) !in t.userPolicies) && (forall g :: (g, p) !in t.groupPolicies))
              && (Written(t, change).Ok? ==> Written(t, change).value == t.(policies := t.policies - {p}))
            case CreateGroup(name) =>
              && (Written(t, change).Ok? <==> forall g :: g in t.groups ==> t.groups[g] != name)
              && (Written(t, change).Ok? ==>
                    && t.next !in t.groups
                    && Written(t, change).value == t.(next := t.next + 1, groups := t.groups[t.next := name]))
            case DeleteGroup(g) =>
              && (Written(t, change).Ok? <==> g in t.groups)
              && (Written(t, change).Ok? ==>
                    var u := Written(t, change).value;
                    && u == t.(groups := t.groups - {g}, userGroups := u.userGroups, groupPolicies := u.groupPolicies)
                    && (forall r :: r in u.userGroups <==> r in t.userGroups && r.1 != g)
                    && (forall r :: r in u.groupPolicies <==> r in t.groupPolicies && r.0 != g))
            case _ => true
  {
    match change
    case DeletePolicy(p) => UnattachedIs(t, p);
    case _ =>
  }

  lemma UnattachedIs(t: IamTables, p: nat)
    ensures HasAttachment(t, p) <==> (exists u :: (u, p) in t.userPolicies) || (exists g :: (g, p) in t.groupPolicies)
  {
    if up :| up in t.userPolicies && up.1 == p {
      assert (up.0, p) == up;
    }
    if gp :| gp in t.groupPolicies && gp.1 == p {
      assert (gp.0, p) == gp;
    }
    if u :| (u, p) in t.userPolicies {
      assert (u, p).1 == p;
    }
    if g :| (g, p) in t.groupPolicies {
      assert (g, p).1 == p;
    }
  }

  /** New statements are in force for every account that has the policy. */
  lemma UpdateInForce(t: IamTables, p: nat, statements: seq<Statement>, u: nat, s: Statement)
    requires WellFormed(t) && Written(t, UpdatePolicy(p, statements)).Ok? && InForce(t, u, Active, p)
    ensures s in statements ==> HeldBy(Written(t, UpdatePolicy(p, statements)).value, u, Active, s)
    ensures HeldBy(Written(t, UpdatePolicy(p, statements)).value, u, Active, s) ==>
              s in statements || HeldBy(t, u, Active, s)
  {
    var v := Written(t, UpdatePolicy(p, statements)).value;
    assert forall q :: InForce(v, u, Active, q) <==> InForce(t, u, Active, q);
    assert InForce(v, u, Active, p);
  }

  /** Membership of an attachment row in a table. */
  predicate Linked(t: IamTables, change: Change) {
    match change
    case SetGroupPolicy(g, p, _) => (g, p) in t.groupPolicies
    case SetGroupMember(g, u, _) => (u, g) in t.userGroups
    case SetUserPolicy(u, p, _) => (u, p) in t.userPolicies
    case _ => false
  }

  function Undoing(change: Change): Change {
    match change
    case SetGroupPolicy(g, p, attach) => SetGroupPolicy(g, p, !attach)
    case SetGroupMember(g, u, member) => SetGroupMember(g, u, !member)
    case SetUserPolicy(u, p, attach) => SetUserPolicy(u, p, !attach)
    case _ => change
  }

  predicate Attaches(change: Change) { change.SetGroupPolicy? || change.SetGroupMember? || change.SetUserPolicy? }

  function Adds(change: Change): bool
    requires Attaches(change)
  {
    match change
    case SetGroupPolicy(_, _, attach) => attach
    case SetGroupMember(_, _, member) => member
    case SetUserPolicy(_, _, attach) => attach
  }

  /** The group, policy and account an attachment change names are stored. */
  predicate Known(t: IamTables, change: Change) {
    match change
    case SetGroupPolicy(g, p, _) => g in t.groups && p in t.policies
    case SetGroupMember(g, u, _) => g in t.groups && u in t.accounts
    case SetUserPolicy(u, p, _) => u in t.accounts && p in t.policies
    case _ => false
  }

  /** An attachment change is written exactly when what it names is stored and its row is
      not yet as asked; then it is, and the opposite change restores every table. */
  lemma AttachmentUndone(t: IamTables, change: Change)
    requires Attaches(change)
    ensures Written(t, change).Ok? <==> Known(t, change) && Linked(t, change) != Adds(change)
    ensures Written(t, change).Ok? ==>
              var u := Written(t, change).value;
              && Linked(u, change) == Adds(change)
              && Written(u, Undoing(change)) == Ok(t)
  {
    match change
    case SetGroupPolicy(g, p, attach) => RowUndone(t.groupPolicies, (g, p), attach);
    case SetGroupMember(g, u, member) => RowUndone(t.userGroups, (u, g), member);
    case SetUserPolicy(u, p, attach) => RowUndone(t.userPolicies, (u, p), attach);
  }

  lemma RowUndone(rows: set<(nat, nat)>, row: (nat, nat), add: bool)
    ensures Toggle(rows, row, add).Ok? <==> (row in rows) != add
    ensures Toggle(rows, row, add).Ok? ==> Toggle(Toggle(rows, row, add).value, row, !add) == Ok(rows)
  {
    if row in rows {
      assert rows - {row} + {row} == rows;
    } else {
      assert rows + {row} - {row} == rows;
    }
  }

  /** An unscoped check by a holder comes down to the denials in force. */
  lemma HolderIsManagerUnlessDenied(t: IamTables, u: nat)
    requires WellFormed(t) && Holder(t, u)
    ensures Can(t, u, Active, IAM_MANAGE, ANY_RESOURCE) <==> !SomeHeld(t, u, Active, Deny, IAM_MANAGE, ANY_RESOURCE)
  {
    var s := t.policies[ADMINISTRATOR_ACCESS].policy.statements[0];
    assert InForce(t, u, Active, ADMINISTRATOR_ACCESS) && s in t.policies[ADMINISTRATOR_ACCESS].policy.statements;
    assert HeldBy(t, u, Active, s);
    assert Matches(s.actions[0], IAM_MANAGE) && Matches(s.resources[0], ANY_RESOURCE);
    assert Applies(s, IAM_MANAGE, ANY_RESOURCE);
  }

  ghost predicate SameAccess(t: IamTables, v: IamTables) {
    && v.accounts == t.accounts
    && (forall u, p :: AttachedTo(t, u, p) <==> AttachedTo(v, u, p))
    && (forall u, p :: InForce(t, u, Active, p) <==> InForce(v, u, Active, p))
    && (forall u, p :: InForce(t, u, Active, p) ==> v.policies[p].policy == t.policies[p].policy)
  }

  lemma SameAccessSameManager(t: IamTables, v: IamTables)
    requires SameAccess(t, v)
    ensures HasManager(t) <==> HasManager(v)
  {
    forall u, s
      ensures HeldBy(t, u, Active, s) <==> HeldBy(v, u, Active, s)
    {
      if p :| InForce(t, u, Active, p) && s in t.policies[p].policy.statements {
        assert InForce(v, u, Active, p);
      }
      if p :| InForce(v, u, Active, p) && s in v.policies[p].policy.statements {
        assert InForce(t, u, Active, p);
      }
    }
    forall u
      ensures Can(t, u, Active, IAM_MANAGE, ANY_RESOURCE) <==> Can(v, u, Active, IAM_MANAGE, ANY_RESOURCE)
      ensures Holder(t, u) <==> Holder(v, u)
    {
    }
    hide Can, Holder, HeldBy;
  }

  /** Creating a policy or a group and deleting a policy can never lock anybody out, so
      the guard never refuses them: nothing attached changes. */
  lemma UnattachedChangesAreSafe(t: IamTables, change: Change)
    requires WellFormed(t) && Written(t, change).Ok?
    requires change.CreatePolicy? || change.DeletePolicy? || change.CreateGroup?
    ensures HasManager(Written(t, change).value) <==> HasManager(t)
  {
    var v := Written(t, change).value;
    forall u, p
      ensures AttachedTo(t, u, p) <==> AttachedTo(v, u, p)
    {
    }
    assert forall u, p :: AttachedTo(t, u, p) ==> p in t.policies;
    assert SameAccess(t, v);
    hide HasManager, SameAccess;
    SameAccessSameManager(t, v);
  }

  lemma GrantsAside(t: IamTables, grants: map<nat, Grant>)
    ensures HasManager(t.(grants := grants)) <==> HasManager(t)
  {
    var v := t.(grants := grants);
    forall u, p
      ensures AttachedTo(t, u, p) <==> AttachedTo(v, u, p)
    {
    }
    SameAccessSameManager(t, v);
  }

  // ------------------------------------------------------------ runs

  lemma AttemptKeeps(t: IamTables, a: Attempt)
    requires WellFormed(t)
    ensures WellFormed(AfterAttempt(t, a)) && (HasManager(t) ==> HasManager(AfterAttempt(t, a)))
    ensures forall p :: p in t.policies && t.policies[p].managed ==>
              p in AfterAttempt(t, a).policies && AfterAttempt(t, a).policies[p] == t.policies[p]
  {
    if ChangeTx(t, a.now, a.session, a.mayManage, a.change).Ok? {
      var t1 := Spend(t, a.now, a.session).value;
      assert t1 == t.(grants := t1.grants);
      GrantsAside(t, t1.grants);
      assert WellFormed(t1);
      WrittenKeeps(t1, a.change);
    }
    hide HasManager, Spend, Written;
  }

  /** Over every run of changes, by anybody and refused or not: if an active
      AdministratorAccess holder could manage IAM at the start, one can at the end; and
      managed policies are untouched. */
  lemma {:induction false} NeverLockedOut(t: IamTables, attempts: seq<Attempt>)
    requires WellFormed(t)
    ensures WellFormed(AfterAll(t, attempts)) && (HasManager(t) ==> HasManager(AfterAll(t, attempts)))
    ensures forall p :: p in t.policies && t.policies[p].managed ==>
              p in AfterAll(t, attempts).policies && AfterAll(t, attempts).policies[p] == t.policies[p]
  {
    hide WellFormed, HasManager, AfterAttempt;
    if attempts != [] {
      NeverLockedOut(t, attempts[..|attempts| - 1]);
      AttemptKeeps(AfterAll(t, attempts[..|attempts| - 1]), attempts[|attempts| - 1]);
    }
  }

  /** The guard at work: the only manager cannot detach the policy that makes it one. */
  lemma LastManagerStays(t: IamTables, now: int, session: nat, u: nat)
    requires HasManager(t) && (forall w :: Holder(t, w) && Can(t, w, Active, IAM_MANAGE, ANY_RESOURCE) ==> w == u)
    requires u in t.accounts && ADMINISTRATOR_ACCESS in t.policies && (u, ADMINISTRATOR_ACCESS) in t.userPolicies
    requires !ViaGroup(t, u, ADMINISTRATOR_ACCESS) && Spend(t, now, session).Ok?
    ensures ChangeTx(t, now, session, true, SetUserPolicy(u, ADMINISTRATOR_ACCESS, false)) == Err(Conflict(Lockout))
  {
    var t1 := Spend(t, now, session).value;
    assert t1 == t.(grants := t1.grants);
    GrantsAside(t, t1.grants);
    var v := Written(t1, SetUserPolicy(u, ADMINISTRATOR_ACCESS, false)).value;
    hide Spend, UsableGrants;
    forall w | Holder(v, w)
      ensures !Can(v, w, Active, IAM_MANAGE, ANY_RESOURCE)
    {
      assert w != u && Holder(t, w);
      assert forall p :: InForce(v, w, Active, p) <==> InForce(t, w, Active, p);
      forall s
        ensures HeldBy(v, w, Active, s) <==> HeldBy(t, w, Active, s)
      {
        if p :| InForce(t, w, Active, p) && s in t.policies[p].policy.statements {
          assert InForce(v, w, Active, p);
        }
        if p :| InForce(v, w, Active, p) && s in v.policies[p].policy.statements {
          assert InForce(t, w, Active, p);
        }
      }
    }
  }

  // ------------------------------------------------------------ the use cases

  class Directory {
    var committed: IamTables
    var tx: IamTables

    constructor (stored: IamTables)
      requires WellFormed(stored)
      ensures committed == stored
    {
      committed, tx := stored, stored;
    }

    /** Documents in force for an account, in some order. */
    method PrincipalAccess(u: nat, status: AccountStatus) returns (policies: seq<Policy>)
      ensures forall s :: Held(policies, s) <==> HeldBy(tx, u, status, s)
    {
      if status.Blocked? {
        return [];
      }
      policies := [Policy("Conta", [BASELINE])];
      var all := set p | p in tx.policies && InForce(tx, u, status, p);
      var left := all;
      HeldFirst(BASELINE);
      while left != {}
        invariant left <= all
        invariant forall s :: Held(policies, s) <==>
                              s == BASELINE || exists p :: p in all - left && s in tx.policies[p].policy.statements
        decreases left
      {
        var p :| p in left;
        HeldMore(policies, tx.policies[p].policy);
        assert all - (left - {p}) == all - left + {p};
        policies := policies + [tx.policies[p].policy];
        left := left - {p};
      }
      assert all - left == all;
      assert forall p :: p in all <==> InForce(tx, u, status, p);
    }

    /** Collects the active holders through both attachment tables and asks each. */
    method HasIamManager() returns (found: bool)
      ensures found == HasManager(tx)
    {
      var direct :=
        set r | r in tx.userPolicies && r.1 == ADMINISTRATOR_ACCESS
                && r.0 in tx.accounts && tx.accounts[r.0].Active? :: r.0;
      var grouped :=
        set r, gp | r in tx.userGroups && gp in tx.groupPolicies && gp.0 == r.1 && gp.1 == ADMINISTRATOR_ACCESS
                    && r.0 in tx.accounts && tx.accounts[r.0].Active? :: r.0;
      var holders := direct + grouped;
      HoldersAre(tx, holders);
      var left := holders;
      while left != {}
        invariant left <= holders
        invariant forall u :: u in holders - left ==> !Can(tx, u, Active, IAM_MANAGE, ANY_RESOURCE)
        decreases left
      {
        var u :| u in left;
        assert holders - (left - {u}) == holders - left + {u};
        var policies := PrincipalAccess(u, Active);
        var d := Evaluate(policies, IAM_MANAGE, ANY_RESOURCE);
        SameDecision(tx, u, policies);
        if d.allowed {
          return true;
        }
        left := left - {u};
      }
      assert holders - left == holders;
      found := false;
    }

    method Begin(now: int, session: nat, mayManage: bool) returns (r: Result<bool>)
      modifies this`tx
      ensures match (if mayManage then Spend(committed, now, session) else Err(Forbidden))
              case Ok(u) => tx == u && r == Ok(HasManager(u))
              case Err(e) => r == Err(e)
    {
      if !mayManage {
        return Err(Forbidden);
      }
      tx := committed;
      var usable := UsableGrants(tx.grants, now, session, ManageIam, 0);
      if usable == {} {
        return Err(ReauthRequired);
      }
      OldestExists(tx.grants, usable);
      var oldest :| oldest in usable && IsOldest(tx.grants, usable, oldest);
      OldestIsUnique(tx.grants, usable, oldest, Oldest(tx.grants, usable));
      tx := tx.(grants := tx.grants[oldest := tx.grants[oldest].(consumedAt := Some(now))]);
      var had := HasIamManager();
      r := Ok(had);
    }

    /** The guard and the commit; a refusal leaves the transaction uncommitted. */
    method Finish(hadManager: bool) returns (g: Guard)
      modifies this`committed
      ensures if hadManager && !HasManager(tx) then g == Fail(Conflict(Lockout)) && committed == old(committed)
              else g == Pass && committed == tx
    {
      if hadManager {
        var still := HasIamManager();
        if !still {
          return Fail(Conflict(Lockout));
        }
      }
      committed := tx;
      g := Pass;
    }

    /** A change commits what its specification says or leaves everything as it was. */
    ghost predicate Concludes(before: IamTables, result: Result<IamTables>, outcome: Guard)
      reads this
    {
      match result
      case Ok(u) => outcome == Pass && committed == u
      case Err(e) => outcome == Fail(e) && committed == before
    }

    method CreatePolicy(now: int, session: nat, mayManage: bool, policy: Policy) returns (outcome: Guard)
      modifies this
      ensures Concludes(old(committed),
                        ChangeTx(old(committed), now, session, mayManage, Change.CreatePolicy(policy)), outcome)
    {
      hide HasManager, Spend;
      var had := Begin(now, session, mayManage);
      if had.Err? {
        return Fail(had.error);
      }
      if PolicyNameTaken(tx, policy.name) {
        return Fail(Conflict(NameTaken));
      }
      tx := tx.(next := tx.next + 1, policies := tx.policies[tx.next := PolicyRow(policy, false, 1)]);
      outcome := Finish(had.value);
    }

    method UpdatePolicy(now: int, session: nat, mayManage: bool, p: nat, statements: seq<Statement>)
      returns (outcome: Guard)
      modifies this
      ensures Concludes(old(committed),
                        ChangeTx(old(committed), now, session, mayManage, Change.UpdatePolicy(p, statements)), outcome)
    {
      hide HasManager, Spend;
      var had := Begin(now, session, mayManage);
      if had.Err? {
        return Fail(had.error);
      }
      if p !in tx.policies {
        return Fail(NotFound);
      }
      var row := tx.policies[p];
      if row.managed {
        return Fail(Conflict(Managed));
      }
      tx := tx.(policies := tx.policies[p := PolicyRow(Policy(row.policy.name, statements), false, row.version + 1)]);
      outcome := Finish(had.value);
    }

    method DeletePolicy(now: int, session: nat, mayManage: bool, p: nat) returns (outcome: Guard)
      modifies this
      ensures Concludes(old(committed), ChangeTx(old(committed), now, session, mayManage, Change.DeletePolicy(p)),
                        outcome)
    {
      hide HasManager, Spend;
      var had := Begin(now, session, mayManage);
      if had.Err? {
        return Fail(had.error);
      }
      if p !in tx.policies {
        return Fail(NotFound);
      }
      if tx.policies[p].managed {
        return Fail(Conflict(Managed));
      }
      if HasAttachment(tx, p) {
        return Fail(Conflict(Clash.Attached));
      }
      tx := tx.(policies := tx.policies - {p});
      outcome := Finish(had.value);
    }

    method CreateGroup(now: int, session: nat, mayManage: bool, name: string) returns (outcome: Guard)
      modifies this
      ensures Concludes(old(committed), ChangeTx(old(committed), now, session, mayManage, Change.CreateGroup(name)),
                        outcome)
    {
      hide HasManager, Spend;
      var had := Begin(now, session, mayManage);
      if had.Err? {
        return Fail(had.error);
      }
      if GroupNameTaken(tx, name) {
        return Fail(Conflict(NameTaken));
      }
      tx := tx.(next := tx.next + 1, groups := tx.groups[tx.next := name]);
      outcome := Finish(had.value);
    }

    method DeleteGroup(now: int, session: nat, mayManage: bool, g: nat) returns (outcome: Guard)
      modifies this
      ensures Concludes(old(committed), ChangeTx(old(committed), now, session, mayManage, Change.DeleteGroup(g)),
                        outcome)
    {
      hide HasManager, Spend;
      var had := Begin(now, session, mayManage);
      if had.Err? {
        return Fail(had.error);
      }
      if g !in tx.groups {
        return Fail(NotFound);
      }
      tx := tx.(userGroups := (set r | r in tx.userGroups && r.1 != g));
      tx := tx.(groupPolicies := (set r | r in tx.groupPolicies && r.0 != g));
      tx := tx.(groups := tx.groups - {g});
      outcome := Finish(had.value);
    }

    method SetGroupPolicy(now: int, session: nat, mayManage: bool, g: nat, p: nat, attach: bool)
      returns (outcome: Guard)
      modifies this
      ensures Concludes(old(committed),
                        ChangeTx(old(committed), now, session, mayManage, Change.SetGroupPolicy(g, p, attach)), outcome)
    {
      hide HasManager, Spend;
      var had := Begin(now, session, mayManage);
      if had.Err? {
        return Fail(had.error);
      }
      if g !in tx.groups || p !in tx.policies {
        return Fail(NotFound);
      }
      var rows := Toggle(tx.groupPolicies, (g, p), attach);
      if rows.Err? {
        return Fail(rows.error);
      }
      tx := tx.(groupPolicies := rows.value);
      outcome := Finish(had.value);
    }

    method SetGroupMember(now: int, session: nat, mayManage: bool, g: nat, u: nat, member: bool)
      returns (outcome: Guard)
      modifies this
      ensures Concludes(old(committed),
                        ChangeTx(old(committed), now, session, mayManage, Change.SetGroupMember(g, u, member)), outcome)
    {
      hide HasManager, Spend;
      var had := Begin(now, session, mayManage);
      if had.Err? {
        return Fail(had.error);
      }
      if g !in tx.groups {
        return Fail(NotFound);
      }
      if u !in tx.accounts {
        return Fail(Validation);
      }
      var rows := Toggle(tx.userGroups, (u, g), member);
      if rows.Err? {
        return Fail(rows.error);
      }
      tx := tx.(userGroups := rows.value);
      outcome := Finish(had.value);
    }

    method SetUserPolicy(now: int, session: nat, mayManage: bool, u: nat, p: nat, attach: bool) returns (outcome: Guard)
      modifies this
      ensures Concludes(old(committed),
                        ChangeTx(old(committed), now, session, mayManage, Change.SetUserPolicy(u, p, attach)), outcome)
    {
      hide HasManager, Spend;
      var had := Begin(now, session, mayManage);
      if had.Err? {
        return Fail(had.error);
      }
      if u !in tx.accounts || p !in tx.policies {
        return Fail(NotFound);
      }
      var rows := Toggle(tx.userPolicies, (u, p), attach);
      if rows.Err? {
        return Fail(rows.error);
      }
      tx := tx.(userPolicies := rows.value);
      outcome := Finish(had.value);
    }
  }

  lemma HeldFirst(s: Statement)
    ensures forall x :: Held([Policy("Conta", [s])], x) <==> x == s
  {
    var policies := [Policy("Conta", [s])];
    assert policies[0].statements[0] == s;
  }

  lemma HeldMore(policies: seq<Policy>, p: Policy)
    ensures forall s :: Held(policies + [p], s) <==> Held(policies, s) || s in p.statements
  {
    var more := policies + [p];
    forall s
      ensures Held(more, s) <==> Held(policies, s) || s in p.statements
    {
      if Held(policies, s) {
        var i, j :| 0 <= i < |policies| && 0 <= j < |policies[i].statements| && policies[i].statements[j] == s;
        assert more[i].statements[j] == s;
      }
      if s in p.statements {
        var j :| 0 <= j < |p.statements| && p.statements[j] == s;
        assert more[|policies|].statements[j] == s;
      }
    }
  }

  lemma HoldersAre(t: IamTables, holders: set<nat>)
    requires holders ==
             (set r | r in t.userPolicies && r.1 == ADMINISTRATOR_ACCESS
                      && r.0 in t.accounts && t.accounts[r.0].Active? :: r.0)
             + (set r, gp | r in t.userGroups && gp in t.groupPolicies && gp.0 == r.1 && gp.1 == ADMINISTRATOR_ACCESS
                            && r.0 in t.accounts && t.accounts[r.0].Active? :: r.0)
    ensures forall u :: u in holders <==> Holder(t, u)
  {
    forall u | Holder(t, u)
      ensures u in holders
    {
      if (u, ADMINISTRATOR_ACCESS) !in t.userPolicies {
        var g :| g in t.userGroups && g.0 == u && (g.1, ADMINISTRATOR_ACCESS) in t.groupPolicies;
        var gp := (g.1, ADMINISTRATOR_ACCESS);
        assert gp in t.groupPolicies && gp.0 == g.1;
      }
    }
  }

  lemma SameDecision(t: IamTables, u: nat, policies: seq<Policy>)
    requires forall s :: Held(policies, s) <==> HeldBy(t, u, Active, s)
    ensures Allowed(policies, IAM_MANAGE, ANY_RESOURCE) <==> Can(t, u, Active, IAM_MANAGE, ANY_RESOURCE)
  {
    SomeIsHeld(policies, Allow, IAM_MANAGE, ANY_RESOURCE);
    SomeIsHeld(policies, Deny, IAM_MANAGE, ANY_RESOURCE);
    hide Held, HeldBy, Applies;
  }
}

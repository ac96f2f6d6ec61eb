/**
 Audited administration: role, team, status, policy and retention changes of one
 organisation, each run as a transaction under snapshot isolation.

 A transaction reads the snapshot taken when it begins.  A document write fails
 (the transaction is aborted and later begun again) when another transaction holds
 that document or committed a newer version of it since the snapshot.  Nothing else
 is checked, so two transactions that write different documents never conflict.
 */
module AdminTransactions {
  import opened Prelude

  type Id = nat

  datatype Role = EMPLOYEE | TEAM_LEAD | ORG_ADMIN
  datatype Status = INVITED | ACTIVE | DISABLED
  datatype Permission =
    | ChatSend | ChatViewOwn | TeamViewLogs | AdminViewLogs
    | AdminViewBilling | AdminManageUsers | AdminConfigurePolicy | AdminExportAudit

  function PermissionsOf(role: Role): seq<Permission> {
    match role
    case EMPLOYEE => [ChatSend, ChatViewOwn]
    case TEAM_LEAD => [ChatSend, ChatViewOwn, TeamViewLogs]
    case ORG_ADMIN => [ChatSend, ChatViewOwn, TeamViewLogs, AdminViewLogs,
                       AdminViewBilling, AdminManageUsers, AdminConfigurePolicy, AdminExportAudit]
  }

  const DEFAULT_MAX_OUTPUT_TOKENS: int := 4_096

  datatype User = User(role: Role, permissions: seq<Permission>, team: Option<Id>, status: Status)
  datatype Mode = METADATA_ONLY | ENCRYPTED_STORAGE
  datatype Policy = Policy(mask: int, block: int, maxOutput: int)
  datatype Organisation = Organisation(mask: int, block: int, maxOutput: Option<int>, budget: int, mode: Mode)
  {
    /** A stored organisation may lack the output limit; readers substitute the default. */
    function Effective(): Policy {
      Policy(mask, block, if maxOutput.Some? then maxOutput.value else DEFAULT_MAX_OUTPUT_TOKENS)
    }

    predicate Valid() {
      0 <= mask < block <= 100 && 1 <= Effective().maxOutput <= 4_096 && 0 <= budget
    }
  }

  datatype Data = Data(org: Organisation, users: map<Id, User>)

  datatype Audit =
    | RoleChanged(user: Id, oldRole: Role, newRole: Role)
    | TeamChanged(user: Id, oldTeam: Option<Id>, newTeam: Option<Id>)
    | StatusChanged(user: Id, oldStatus: Status, newStatus: Status)
    | PolicyChanged(oldPolicy: Policy, newPolicy: Policy)
    | BudgetChanged(oldBudget: int, newBudget: int)
    | RetentionChanged(oldMode: Mode, newMode: Mode)

  datatype Patch = Patch(mask: Option<int>, block: Option<int>, maxOutput: Option<int>, budget: Option<int>)

  datatype Mutation =
    | ChangeRole(user: Id, role: Role)
    | ChangeTeam(user: Id, team: Option<Id>)
    | ChangeStatus(user: Id, active: bool)
    | UpdatePolicy(patch: Patch)
    | UpdateRetention(mode: Mode)

  datatype Failure = NotFound | TeamAssignmentRequired | LastActiveAdmin | InvalidPolicy
  datatype Outcome = Rejects(error: Failure) | Commits(data: Data, audit: seq<Audit>)

  predicate IsUserMutation(m: Mutation) { m.ChangeRole? || m.ChangeTeam? || m.ChangeStatus? }

  // ---------------------------------------------------------------------
  // What one mutation does to the data it reads
  // ---------------------------------------------------------------------

  predicate ActiveAdmin(u: User) { u.role == ORG_ADMIN && u.status == ACTIVE }

  function OtherActiveAdmins(users: map<Id, User>, id: Id): set<Id> {
    set other | other in users && other != id && ActiveAdmin(users[other])
  }

  function Or<T>(patch: Option<T>, stored: T): T { if patch.Some? then patch.value else stored }

  function PolicyOutcome(p: Patch, d: Data): Outcome {
    var was := d.org.Effective();
    var org := d.org.(mask := Or(p.mask, was.mask), block := Or(p.block, was.block),
                      maxOutput := Some(Or(p.maxOutput, was.maxOutput)), budget := Or(p.budget, d.org.budget));
    if !org.Valid() then Rejects(InvalidPolicy)
    else Commits(d.(org := org),
                 (if org.Effective() != was then [PolicyChanged(was, org.Effective())] else [])
                 + (if org.budget != d.org.budget then [BudgetChanged(d.org.budget, org.budget)] else []))
  }

  function Apply(m: Mutation, d: Data, teams: set<Id>): Outcome {
    match m
    case UpdatePolicy(patch) => PolicyOutcome(patch, d)
    case UpdateRetention(mode) =>
      Commits(d.(org := d.org.(mode := mode)), [RetentionChanged(d.org.mode, mode)])
    case _ =>
      if m.user !in d.users then Rejects(NotFound)
      else
        var u := d.users[m.user];
        match m
        case ChangeRole(id, role) =>
          if role == TEAM_LEAD && u.status == ACTIVE && u.team.None? then Rejects(TeamAssignmentRequired)
          else if ActiveAdmin(u) && role != ORG_ADMIN && |OtherActiveAdmins(d.users, id)| == 0
            then Rejects(LastActiveAdmin)
          else Commits(d.(users := d.users[id := u.(role := role, permissions := PermissionsOf(role))]),
                       [RoleChanged(id, u.role, role)])
        case ChangeTeam(id, team) =>
          if team.Some? && team.value !in teams then Rejects(NotFound)
          else if team.None? && u.role == TEAM_LEAD && u.status == ACTIVE then Rejects(TeamAssignmentRequired)
          else Commits(d.(users := d.users[id := u.(team := team)]), [TeamChanged(id, u.team, team)])
        case ChangeStatus(id, active) =>
          if ActiveAdmin(u) && !active && |OtherActiveAdmins(d.users, id)| == 0 then Rejects(LastActiveAdmin)
          else if active && u.role == TEAM_LEAD && u.team.None? then Rejects(TeamAssignmentRequired)
          else
            var status := if active then ACTIVE else DISABLED;
            Commits(d.(users := d.users[id := u.(status := status)]), [StatusChanged(id, u.status, status)])
  }

  // ---------------------------------------------------------------------
  // What each request asks for
  // ---------------------------------------------------------------------

  /** The user as the request wants it: what it names has the requested value, and nothing else is different. */
  predicate WantsUser(m: Mutation, before: User, after: User)
    requires IsUserMutation(m)
  {
    && after.role == (if m.ChangeRole? then m.role else before.role)
    && after.permissions == (if m.ChangeRole? then PermissionsOf(m.role) else before.permissions)
    && after.team == (if m.ChangeTeam? then m.team else before.team)
    && after.status == (if !m.ChangeStatus? then before.status else if m.active then ACTIVE else DISABLED)
  }

  /** The organisation as the request wants it. */
  predicate WantsOrganisation(m: Mutation, before: Organisation, after: Organisation)
    requires !IsUserMutation(m)
  {
    match m
    case UpdateRetention(mode) =>
      && after.mode == mode && after.mask == before.mask && after.block == before.block
      && after.maxOutput == before.maxOutput && after.budget == before.budget
    case UpdatePolicy(p) =>
      && after.mode == before.mode
      && after.mask == (if p.mask.Some? then p.mask.value else before.mask)
      && after.block == (if p.block.Some? then p.block.value else before.block)
      && after.budget == (if p.budget.Some? then p.budget.value else before.budget)
      && after.maxOutput == (if p.maxOutput.Some? then p.maxOutput
                             else if before.maxOutput.Some? then before.maxOutput else Some(4_096))
  }

  predicate LeadWithoutTeam(u: User) { u.role == TEAM_LEAD && u.status == ACTIVE && u.team.None? }

  predicate OnlyActiveAdmin(users: map<Id, User>, id: Id) {
    forall other :: other in users ==>
      (users[other].role == ORG_ADMIN && users[other].status == ACTIVE <==> other == id)
  }

  /** How a request about a known user is answered: refused when it would leave an active lead without a team, or take
      the last active administrator away, and otherwise carried out on that user alone. */
  ghost predicate UserAnswered(m: Mutation, d: Data, error: Option<Failure>, after: Data, rows: seq<Audit>)
    requires IsUserMutation(m) && m.user in d.users
  {
    exists v :: WantsUser(m, d.users[m.user], v)
      && var lastAdmin := OnlyActiveAdmin(d.users, m.user) && !(v.role == ORG_ADMIN && v.status == ACTIVE);
         && (error == Some(TeamAssignmentRequired) <==> LeadWithoutTeam(v))
         && (error == Some(LastActiveAdmin) <==> !LeadWithoutTeam(v) && lastAdmin)
         && (error.None? <==> !LeadWithoutTeam(v) && !lastAdmin)
         && (error.None? ==> after == Data(d.org, d.users[m.user := v]) && rows == [UserRow(m, d.users[m.user], v)])
  }

  function UserRow(m: Mutation, before: User, after: User): Audit
    requires IsUserMutation(m)
  {
    match m
    case ChangeRole(id, _) => RoleChanged(id, before.role, after.role)
    case ChangeTeam(id, _) => TeamChanged(id, before.team, after.team)
    case ChangeStatus(id, _) => StatusChanged(id, before.status, after.status)
  }

  /** How a request about the organisation is answered: thresholds, limit and budget have to fit together. */
  ghost predicate OrganisationAnswered(m: Mutation, d: Data, error: Option<Failure>, after: Data, rows: seq<Audit>)
    requires !IsUserMutation(m)
  {
    exists o :: WantsOrganisation(m, d.org, o)
      && (error.None?
          <==> m.UpdateRetention? || (0 <= o.mask < o.block <= 100 && 1 <= o.maxOutput.value <= 4_096 && 0 <= o.budget))
      && (error.Some? ==> error == Some(InvalidPolicy))
      && (error.None? ==> after == Data(o, d.users) && OrganisationRows(m, d.org, o, rows))
  }

  /** One row for each kind of setting that changed; a retention request always leaves one. */
  predicate OrganisationRows(m: Mutation, was: Organisation, o: Organisation, rows: seq<Audit>) {
    if m.UpdateRetention? then rows == [RetentionChanged(was.mode, o.mode)]
    else
      var before := Policy(was.mask, was.block, if was.maxOutput.Some? then was.maxOutput.value else 4_096);
      && o.maxOutput.Some?
      && var now := Policy(o.mask, o.block, o.maxOutput.value);
         && (PolicyChanged(before, now) in rows <==> before != now)
         && (BudgetChanged(was.budget, o.budget) in rows <==> was.budget != o.budget)
         && |rows| == (if before != now then 1 else 0) + (if was.budget != o.budget then 1 else 0)
         && (|rows| == 2 ==> rows[0].PolicyChanged?)
  }

  /** The answer to a request, from the request and the data it finds. */
  ghost predicate Answers(m: Mutation, d: Data, teams: set<Id>, error: Option<Failure>, after: Data, rows: seq<Audit>) {
    && (error.Some? ==> after == d && rows == [])
    && if !IsUserMutation(m) then OrganisationAnswered(m, d, error, after, rows)
       else if m.user !in d.users || (m.ChangeTeam? && m.team.Some? && m.team.value !in teams)
       then error == Some(NotFound)
       else UserAnswered(m, d, error, after, rows)
  }

  function ErrorOf(o: Outcome): Option<Failure> { if o.Rejects? then Some(o.error) else None }

  /** Transactions answer their requests. */
  lemma ApplyAnswers(m: Mutation, d: Data, teams: set<Id>)
    ensures var o := Apply(m, d, teams);
            Answers(m, d, teams, ErrorOf(o), if o.Commits? then o.data else d, if o.Commits? then o.audit else [])
  {
    if !IsUserMutation(m) { OrganisationApplies(m, d, teams); }
    else if m.user in d.users && !(m.ChangeTeam? && m.team.Some? && m.team.value !in teams) {
      UserApplies(m, d, teams);
    }
  }

  lemma UserApplies(m: Mutation, d: Data, teams: set<Id>)
    requires IsUserMutation(m) && m.user in d.users
    requires m.ChangeTeam? && m.team.Some? ==> m.team.value in teams
    ensures var o := Apply(m, d, teams);
            UserAnswered(m, d, ErrorOf(o), if o.Commits? then o.data else d, if o.Commits? then o.audit else [])
  {
    var u := d.users[m.user];
    var v := match m
      case ChangeRole(_, role) => User(role, PermissionsOf(role), u.team, u.status)
      case ChangeTeam(_, team) => User(u.role, u.permissions, team, u.status)
      case ChangeStatus(_, active) => User(u.role, u.permissions, u.team, if active then ACTIVE else DISABLED);
    assert WantsUser(m, u, v);
    NoOtherAdmins(d.users, m.user);
  }

  lemma NoOtherAdmins(users: map<Id, User>, id: Id)
    requires id in users
    ensures OnlyActiveAdmin(users, id) <==> ActiveAdmin(users[id]) && |OtherActiveAdmins(users, id)| == 0
  {
    var others := OtherActiveAdmins(users, id);
    if |others| == 0 {
      assert others == {};
      forall other | other in users ensures ActiveAdmin(users[other]) ==> other == id { assert other !in others; }
    } else {
      var other :| other in others;
    }
  }

  lemma OrganisationApplies(m: Mutation, d: Data, teams: set<Id>)
    requires !IsUserMutation(m)
    ensures var o := Apply(m, d, teams);
            OrganisationAnswered(m, d, ErrorOf(o), if o.Commits? then o.data else d, if o.Commits? then o.audit else [])
  {
    if m.UpdateRetention? {
      assert WantsOrganisation(m, d.org, d.org.(mode := m.mode));
    } else {
      var o := Patched(m.patch, d.org);
      assert WantsOrganisation(m, d.org, o);
      PatchApplies(m.patch, d);
      if PolicyOutcome(m.patch, d).Commits? { PatchRows(m.patch, d); }
    }
  }

  function Patched(p: Patch, was: Organisation): Organisation {
    Organisation(
      if p.mask.Some? then p.mask.value else was.mask,
      if p.block.Some? then p.block.value else was.block,
      if p.maxOutput.Some? then p.maxOutput else if was.maxOutput.Some? then was.maxOutput else Some(4_096),
      if p.budget.Some? then p.budget.value else was.budget, was.mode)
  }

  lemma PatchApplies(p: Patch, d: Data)
    ensures var o := Patched(p, d.org);
            if 0 <= o.mask < o.block <= 100 && 1 <= o.maxOutput.value <= 4_096 && 0 <= o.budget
            then PolicyOutcome(p, d).Commits? && PolicyOutcome(p, d).data == Data(o, d.users)
            else PolicyOutcome(p, d) == Rejects(InvalidPolicy)
  {
  }

  lemma PatchRows(p: Patch, d: Data)
    requires PolicyOutcome(p, d).Commits?
    ensures OrganisationRows(UpdatePolicy(p), d.org, Patched(p, d.org), PolicyOutcome(p, d).audit)
  {
    PatchApplies(p, d);
  }

  /** Who may do what. */
  lemma PermissionTable(role: Role)
    ensures ChatSend in PermissionsOf(role) && ChatViewOwn in PermissionsOf(role)
    ensures TeamViewLogs in PermissionsOf(role) <==> role != EMPLOYEE
    ensures forall p ::
              p in [AdminViewLogs, AdminViewBilling, AdminManageUsers, AdminConfigurePolicy, AdminExportAudit] ==>
              (p in PermissionsOf(role) <==> role == ORG_ADMIN)
  {
  }

  /** The documents and audit rows one transaction session sees, changed in place by the mutation's own steps. */
  class Session {
    var org: Organisation
    var users: map<Id, User>
    var audit: seq<Audit>
    const teams: set<Id>

    constructor(d: Data, teams: set<Id>)
      ensures Now() == d && audit == [] && this.teams == teams
    {
      org, users, audit := d.org, d.users, [];
      this.teams := teams;
    }

    ghost function Now(): Data
      reads this
    {
      Data(org, users)
    }

    /** What a mutation leaves behind: all of the committed outcome, or the error and nothing. */
    ghost predicate Ended(before: Data, m: Mutation, error: Option<Failure>)
      reads this
    {
      match Apply(m, before, teams)
      case Rejects(e) => error == Some(e) && Now() == before && audit == []
      case Commits(d, rows) => error == None && Now() == d && audit == rows
    }

    method ChangeUserRole(id: Id, role: Role) returns (error: Option<Failure>)
      requires audit == []
      modifies this
      ensures Ended(old(Now()), ChangeRole(id, role), error)
      ensures Answers(ChangeRole(id, role), old(Now()), teams, error, Now(), audit)
    {
      ApplyAnswers(ChangeRole(id, role), Now(), teams);
      if id !in users { return Some(NotFound); }
      var user := users[id];
      if role == TEAM_LEAD && user.status == ACTIVE && user.team.None? { return Some(TeamAssignmentRequired); }
      if user.role == ORG_ADMIN && user.status == ACTIVE && role != ORG_ADMIN {
        if |OtherActiveAdmins(users, id)| == 0 { return Some(LastActiveAdmin); }
      }
      var oldRole := user.role;
      user := user.(role := role);
      user := user.(permissions := PermissionsOf(role));
      users := users[id := user];
      audit := audit + [RoleChanged(id, oldRole, role)];
      error := None;
    }

    method ChangeUserTeam(id: Id, team: Option<Id>) returns (error: Option<Failure>)
      requires audit == []
      modifies this
      ensures Ended(old(Now()), ChangeTeam(id, team), error)
      ensures Answers(ChangeTeam(id, team), old(Now()), teams, error, Now(), audit)
    {
      ApplyAnswers(ChangeTeam(id, team), Now(), teams);
      if id !in users { return Some(NotFound); }
      var user := users[id];
      if team.Some? && team.value !in teams { return Some(NotFound); }
      if team.None? && user.role == TEAM_LEAD && user.status == ACTIVE { return Some(TeamAssignmentRequired); }
      var oldTeam := user.team;
      users := users[id := user.(team := team)];
      audit := audit + [TeamChanged(id, oldTeam, team)];
      error := None;
    }

    method ChangeUserStatus(id: Id, active: bool) returns (error: Option<Failure>)
      requires audit == []
      modifies this
      ensures Ended(old(Now()), ChangeStatus(id, active), error)
      ensures Answers(ChangeStatus(id, active), old(Now()), teams, error, Now(), audit)
    {
      ApplyAnswers(ChangeStatus(id, active), Now(), teams);
      if id !in users { return Some(NotFound); }
      var user := users[id];
      if user.role == ORG_ADMIN && user.status == ACTIVE && !active {
        if |OtherActiveAdmins(users, id)| == 0 { return Some(LastActiveAdmin); }
      }
      if active && user.role == TEAM_LEAD && user.team.None? { return Some(TeamAssignmentRequired); }
      var oldStatus := user.status;
      var status := if active then ACTIVE else DISABLED;
      users := users[id := user.(status := status)];
      audit := audit + [StatusChanged(id, oldStatus, status)];
      error := None;
    }

    method UpdateOrganisationPolicy(patch: Patch) returns (error: Option<Failure>)
      requires audit == []
      modifies this
      ensures Ended(old(Now()), UpdatePolicy(patch), error)
      ensures Answers(UpdatePolicy(patch), old(Now()), teams, error, Now(), audit)
    {
      ApplyAnswers(UpdatePolicy(patch), Now(), teams);
      var before := org;
      var was := org.Effective();
      org := org.(mask := Or(patch.mask, was.mask));
      org := org.(block := Or(patch.block, was.block));
      org := org.(maxOutput := Some(Or(patch.maxOutput, was.maxOutput)));
      org := org.(budget := Or(patch.budget, before.budget));
      if !org.Valid() {
        org := before;
        return Some(InvalidPolicy);
      }
      if was.mask != org.mask || was.block != org.block || was.maxOutput != org.maxOutput.value {
        audit := audit + [PolicyChanged(was, org.Effective())];
      }
      if before.budget != org.budget {
        audit := audit + [BudgetChanged(before.budget, org.budget)];
      }
      error := None;
    }

    method UpdateOrganisationRetention(mode: Mode) returns (error: Option<Failure>)
      requires audit == []
      modifies this
      ensures Ended(old(Now()), UpdateRetention(mode), error)
      ensures Answers(UpdateRetention(mode), old(Now()), teams, error, Now(), audit)
    {
      ApplyAnswers(UpdateRetention(mode), Now(), teams);
      var oldMode := org.mode;
      org := org.(mode := mode);
      audit := audit + [RetentionChanged(oldMode, mode)];
      error := None;
    }
  }

  // ---------------------------------------------------------------------
  // Concurrent transactions
  // ---------------------------------------------------------------------

  datatype Db = Db(data: Data, orgVersion: nat, userVersions: map<Id, nat>, teams: set<Id>, audit: seq<Audit>)

  datatype Stage = Open | Locked | Written
  datatype Txn = Txn(m: Mutation, snap: Db, stage: Stage, holdsOrg: bool, holdsUser: bool)

  datatype State = State(db: Db, txns: map<Id, Txn>)

  /** `lockOrganisation`: user mutations first write the organisation document.
      `emptySaveWrites`: saving an organisation whose fields did not change still writes it. */
  datatype Config = Config(lockOrganisation: bool, emptySaveWrites: bool)

  datatype Event =
    | Begin(t: Id, m: Mutation)
    | LockOrganisation(t: Id)
    | Save(t: Id)
    | Commit(t: Id)
    | Abort(t: Id)
    | TouchUser(user: Id)

  predicate OrgFree(s: State, t: Id)
    requires t in s.txns
  {
    && s.txns[t].snap.orgVersion == s.db.orgVersion
    && forall q :: q in s.txns && q != t ==> !s.txns[q].holdsOrg
  }

  function Version(db: Db, user: Id): nat { if user in db.userVersions then db.userVersions[user] else 0 }

  predicate HoldsUser(txn: Txn, user: Id) {
    txn.holdsUser && IsUserMutation(txn.m) && txn.m.user == user
  }

  predicate UserFree(s: State, t: Id, user: Id)
    requires t in s.txns
  {
    && Version(s.txns[t].snap, user) == Version(s.db, user)
    && forall q :: q in s.txns && q != t ==> !HoldsUser(s.txns[q], user)
  }

  function Drop(s: State, t: Id): State { s.(txns := s.txns - {t}) }
  function Put(s: State, t: Id, txn: Txn): State { s.(txns := s.txns[t := txn]) }

  function ExecLock(c: Config, s: State, t: Id): State
    requires t in s.txns
  {
    var txn := s.txns[t];
    if !txn.stage.Open? || !IsUserMutation(txn.m) then s
    else if !c.lockOrganisation then Put(s, t, txn.(stage := Locked))
    else if OrgFree(s, t) then Put(s, t, txn.(stage := Locked, holdsOrg := true))
    else Drop(s, t)
  }

  function ExecSave(c: Config, s: State, t: Id): State
    requires t in s.txns
  {
    var txn := s.txns[t];
    var outcome := Apply(txn.m, txn.snap.data, txn.snap.teams);
    if IsUserMutation(txn.m) then
      if !txn.stage.Locked? then s
      else if outcome.Rejects? || !UserFree(s, t, txn.m.user) then Drop(s, t)
      else Put(s, t, txn.(stage := Written, holdsUser := true))
    else
      if !txn.stage.Open? then s
      else if outcome.Rejects? then Drop(s, t)
      else if outcome.data == txn.snap.data && !c.emptySaveWrites then Put(s, t, txn.(stage := Written))
      else if OrgFree(s, t) then Put(s, t, txn.(stage := Written, holdsOrg := true))
      else Drop(s, t)
  }

  /** Only the documents the transaction wrote reach the store. */
  function Committed(db: Db, txn: Txn): Db {
    match Apply(txn.m, txn.snap.data, txn.snap.teams)
    case Rejects(_) => db
    case Commits(d, rows) =>
      var db1 := if txn.holdsOrg then db.(orgVersion := db.orgVersion + 1) else db;
      if IsUserMutation(txn.m) then
        if txn.m.user !in d.users then db
        else db1.(data := db.data.(users := db.data.users[txn.m.user := d.users[txn.m.user]]),
                  userVersions := db.userVersions[txn.m.user := Version(db, txn.m.user) + 1],
                  audit := db.audit + rows)
      else db1.(data := if txn.holdsOrg then db.data.(org := d.org) else db.data, audit := db.audit + rows)
  }

  function Exec(c: Config, s: State, e: Event): State {
    match e
    case Begin(t, m) => if t in s.txns then s else Put(s, t, Txn(m, s.db, Open, false, false))
    case LockOrganisation(t) => if t in s.txns then ExecLock(c, s, t) else s
    case Save(t) => if t in s.txns then ExecSave(c, s, t) else s
    case Commit(t) =>
      if t in s.txns && s.txns[t].stage.Written? then Drop(s.(db := Committed(s.db, s.txns[t])), t) else s
    case Abort(t) => Drop(s, t)
    case TouchUser(user) =>
      if exists t :: t in s.txns && HoldsUser(s.txns[t], user) then s
      else s.(db := s.db.(userVersions := s.db.userVersions[user := Version(s.db, user) + 1]))
  }

  function Run(c: Config, s: State, es: seq<Event>): State
    decreases |es|
  {
    if es == [] then s else Run(c, Exec(c, s, es[0]), es[1..])
  }

  function Start(d: Data, teams: set<Id>): State { State(Db(d, 0, map[], teams, []), map[]) }

  // ---------------------------------------------------------------------
  // Rules of the organisation
  // ---------------------------------------------------------------------

  datatype Rule = KeepsActiveAdmin | ActiveLeadsHaveTeams | PermissionsFollowRole

  predicate Holds(rule: Rule, d: Data) {
    match rule
    case KeepsActiveAdmin => exists id :: id in d.users && ActiveAdmin(d.users[id])
    case ActiveLeadsHaveTeams =>
      forall id :: id in d.users && d.users[id].role == TEAM_LEAD && d.users[id].status == ACTIVE ==>
        d.users[id].team.Some?
    case PermissionsFollowRole => forall id :: id in d.users ==>
        d.users[id].permissions == PermissionsOf(d.users[id].role)
  }

  /** On its own, every mutation keeps every rule. */
  lemma ApplyKeepsRule(rule: Rule, m: Mutation, d: Data, teams: set<Id>)
    requires Holds(rule, d) && Apply(m, d, teams).Commits?
    ensures Holds(rule, Apply(m, d, teams).data)
  {
    var d' := Apply(m, d, teams).data;
    if rule.KeepsActiveAdmin? {
      var id :| id in d.users && ActiveAdmin(d.users[id]);
      if !(id in d'.users && ActiveAdmin(d'.users[id])) {
        var others := OtherActiveAdmins(d.users, id);
        assert m.user == id && others != {};
        var other :| other in others;
        assert ActiveAdmin(d'.users[other]);
      }
    }
  }

  // ---------------------------------------------------------------------
  // Invariant: whoever holds the organisation document still sees the current data
  // ---------------------------------------------------------------------

  predicate TxnOk(s: State, t: Id) {
    && t in s.txns
    && var txn := s.txns[t];
    && txn.snap.orgVersion <= s.db.orgVersion
    && (txn.snap.orgVersion == s.db.orgVersion ==> txn.snap.data == s.db.data)
    && (txn.holdsOrg ==> txn.snap.orgVersion == s.db.orgVersion && !txn.stage.Open?)
    && (IsUserMutation(txn.m) && !txn.stage.Open? ==> txn.holdsOrg)
    && (!IsUserMutation(txn.m) && txn.stage.Written? && !txn.holdsOrg ==>
          Apply(txn.m, txn.snap.data, txn.snap.teams).Commits?
          && Apply(txn.m, txn.snap.data, txn.snap.teams).data == txn.snap.data)
    && (txn.stage.Written? ==> Apply(txn.m, txn.snap.data, txn.snap.teams).Commits?)
  }

  predicate Inv(s: State) {
    && (forall t :: t in s.txns ==> TxnOk(s, t))
    && (forall t, q :: t in s.txns && q in s.txns && t != q ==> !(s.txns[t].holdsOrg && s.txns[q].holdsOrg))
  }

  lemma CommittedIsApply(c: Config, s: State, t: Id)
    requires Inv(s) && t in s.txns && s.txns[t].stage.Written?
    ensures var txn := s.txns[t];
            var out := Apply(txn.m, txn.snap.data, txn.snap.teams);
            && out.Commits?
            && Committed(s.db, txn).audit == s.db.audit + out.audit
            && (if txn.holdsOrg
                then txn.snap.data == s.db.data && Committed(s.db, txn).data == out.data
                     && Committed(s.db, txn).orgVersion == s.db.orgVersion + 1
                else Committed(s.db, txn).data == s.db.data && Committed(s.db, txn).orgVersion == s.db.orgVersion
                     && out.data == txn.snap.data && !IsUserMutation(txn.m))
  {
    assert TxnOk(s, t);
  }

  /** A commit that wrote the organisation document answers its request from the data stored at that very moment;
      one that did not changes no data. */
  lemma CommitAnswersStoredData(c: Config, s: State, t: Id) returns (rows: seq<Audit>)
    requires Inv(s) && t in s.txns && s.txns[t].stage.Written?
    ensures var s' := Exec(c, s, Commit(t));
            && s'.db.audit == s.db.audit + rows
            && if s.txns[t].holdsOrg then Answers(s.txns[t].m, s.db.data, s.txns[t].snap.teams, None, s'.db.data, rows)
               else s'.db.data == s.db.data && !IsUserMutation(s.txns[t].m)
  {
    var txn := s.txns[t];
    CommittedIsApply(c, s, t);
    ApplyAnswers(txn.m, txn.snap.data, txn.snap.teams);
    rows := Apply(txn.m, txn.snap.data, txn.snap.teams).audit;
  }

  lemma CommitKeepsInv(c: Config, s: State, t: Id)
    requires Inv(s) && t in s.txns && s.txns[t].stage.Written?
    ensures Inv(Exec(c, s, Commit(t)))
  {
    CommittedIsApply(c, s, t);
    var s' := Exec(c, s, Commit(t));
    forall q | q in s'.txns ensures TxnOk(s', q) { assert TxnOk(s, q) && TxnOk(s, t); }
  }

  lemma LockKeepsInv(c: Config, s: State, t: Id)
    requires Inv(s) && c.lockOrganisation && t in s.txns
    ensures Inv(ExecLock(c, s, t))
  {
    var s' := ExecLock(c, s, t);
    forall q | q in s'.txns ensures TxnOk(s', q) { assert TxnOk(s, q); }
  }

  lemma SaveKeepsInv(c: Config, s: State, t: Id)
    requires Inv(s) && t in s.txns
    ensures Inv(ExecSave(c, s, t))
  {
    var s' := ExecSave(c, s, t);
    forall q | q in s'.txns ensures TxnOk(s', q) { assert TxnOk(s, q); }
  }

  lemma StepKeepsInv(c: Config, s: State, e: Event)
    requires Inv(s) && c.lockOrganisation
    ensures Inv(Exec(c, s, e))
  {
    match e
    case LockOrganisation(t) => if t in s.txns { LockKeepsInv(c, s, t); }
    case Save(t) => if t in s.txns { SaveKeepsInv(c, s, t); }
    case Commit(t) => if t in s.txns && s.txns[t].stage.Written? { CommitKeepsInv(c, s, t); }
    case _ =>
      var s' := Exec(c, s, e);
      forall q | q in s'.txns ensures TxnOk(s', q) { assert q in s.txns ==> TxnOk(s, q); }
  }

  lemma StepKeepsRule(c: Config, s: State, e: Event, rule: Rule)
    requires Inv(s) && Holds(rule, s.db.data)
    ensures Holds(rule, Exec(c, s, e).db.data)
  {
    if e.Commit? && e.t in s.txns && s.txns[e.t].stage.Written? {
      CommittedIsApply(c, s, e.t);
      if s.txns[e.t].holdsOrg {
        ApplyKeepsRule(rule, s.txns[e.t].m, s.db.data, s.txns[e.t].snap.teams);
      }
    } else {
      assert Exec(c, s, e).db.data == s.db.data;
    }
  }

  lemma {:induction false} RunKeeps(c: Config, s: State, es: seq<Event>, rule: Rule)
    requires c.lockOrganisation && Inv(s) && Holds(rule, s.db.data)
    ensures Inv(Run(c, s, es)) && Holds(rule, Run(c, s, es).db.data)
    decreases |es|
  {
    if es != [] {
      StepKeepsInv(c, s, es[0]);
      StepKeepsRule(c, s, es[0], rule);
      RunKeeps(c, Exec(c, s, es[0]), es[1..], rule);
    }
  }

  /** Over every interleaving of any number of transactions, each rule that held at the start still holds. */
  lemma {:induction false} RulesHoldInEveryRun(c: Config, d: Data, teams: set<Id>, es: seq<Event>, rule: Rule)
    requires c.lockOrganisation && Holds(rule, d)
    ensures Holds(rule, Run(c, Start(d, teams), es).db.data)
  {
    RunKeeps(c, Start(d, teams), es, rule);
  }

  // ---------------------------------------------------------------------
  // Without the organisation write: write skew
  // ---------------------------------------------------------------------

  const Admin := User(ORG_ADMIN, PermissionsOf(ORG_ADMIN), None, ACTIVE)
  const TwoAdmins := Data(Organisation(10, 20, None, 0, METADATA_ONLY), map[1 := Admin, 2 := Admin])

  /** Two administrators each demote themselves after checking that the other one remains. */
  const Skew: seq<Event> := [
    Begin(1, ChangeRole(1, EMPLOYEE)), Begin(2, ChangeRole(2, EMPLOYEE)), LockOrganisation(1), LockOrganisation(2),
    Save(1), Save(2), Commit(1), Commit(2)]

  lemma {:induction false} RunTwo(c: Config, s: State, a: Event, b: Event, rest: seq<Event>)
    ensures Run(c, s, [a, b] + rest) == Run(c, Exec(c, Exec(c, s, a), b), rest)
  {
    assert ([a, b] + rest)[1..] == [b] + rest;
    assert ([b] + rest)[1..] == rest;
  }

  function SkewTxn(id: Id, stage: Stage): Txn {
    Txn(ChangeRole(id, EMPLOYEE), Start(TwoAdmins, {}).db, stage, false, stage == Written)
  }

  function SkewState(stage: Stage): State {
    State(Start(TwoAdmins, {}).db, map[1 := SkewTxn(1, stage), 2 := SkewTxn(2, stage)])
  }

  lemma SkewBegins(c: Config)
    requires !c.lockOrganisation
    ensures Exec(c, Exec(c, Start(TwoAdmins, {}), Skew[0]), Skew[1]) == SkewState(Open)
    ensures Exec(c, Exec(c, SkewState(Open), Skew[2]), Skew[3]) == SkewState(Locked)
  {
  }

  lemma SkewSaves(c: Config)
    ensures Exec(c, Exec(c, SkewState(Locked), Skew[4]), Skew[5]) == SkewState(Written)
  {
    assert 2 in OtherActiveAdmins(TwoAdmins.users, 1) && 1 in OtherActiveAdmins(TwoAdmins.users, 2);
    var s := Exec(c, SkewState(Locked), Skew[4]);
    assert s == State(Start(TwoAdmins, {}).db, map[1 := SkewTxn(1, Written), 2 := SkewTxn(2, Locked)]);
  }

  lemma SkewCommits(c: Config)
    ensures !Holds(KeepsActiveAdmin, Exec(c, Exec(c, SkewState(Written), Skew[6]), Skew[7]).db.data)
  {
    assert 2 in OtherActiveAdmins(TwoAdmins.users, 1) && 1 in OtherActiveAdmins(TwoAdmins.users, 2);
    var s := Exec(c, SkewState(Written), Skew[6]);
    assert s.txns == map[2 := SkewTxn(2, Written)] && s.db.data.users.Keys == {1, 2};
    assert s.db.data.users[1].role == EMPLOYEE;
  }

  lemma {:induction false} SkewLosesAdmins(c: Config)
    requires !c.lockOrganisation
    ensures !Holds(KeepsActiveAdmin, Run(c, Start(TwoAdmins, {}), Skew).db.data)
  {
    SkewBegins(c);
    SkewSaves(c);
    SkewCommits(c);
    assert Skew == [Skew[0], Skew[1]] + Skew[2..];
    RunTwo(c, Start(TwoAdmins, {}), Skew[0], Skew[1], Skew[2..]);
    assert Skew[2..] == [Skew[2], Skew[3]] + Skew[4..];
    RunTwo(c, SkewState(Open), Skew[2], Skew[3], Skew[4..]);
    assert Skew[4..] == [Skew[4], Skew[5]] + Skew[6..];
    RunTwo(c, SkewState(Locked), Skew[4], Skew[5], Skew[6..]);
    assert Skew[6..] == [Skew[6], Skew[7]] + [];
    RunTwo(c, SkewState(Written), Skew[6], Skew[7], []);
  }

  /** The last-admin check is safe under concurrency exactly because every user mutation writes the organisation. */
  lemma {:induction false} LastAdminSafeIff(c: Config)
    ensures c.lockOrganisation
       <==> (forall d: Data, teams: set<Id>, es: seq<Event> :: Holds(KeepsActiveAdmin, d)
               ==> Holds(KeepsActiveAdmin, Run(c, Start(d, teams), es).db.data))
  {
    if c.lockOrganisation {
      forall d: Data, teams: set<Id>, es: seq<Event> | Holds(KeepsActiveAdmin, d)
        ensures Holds(KeepsActiveAdmin, Run(c, Start(d, teams), es).db.data)
      {
        RulesHoldInEveryRun(c, d, teams, es, KeepsActiveAdmin);
      }
    } else {
      SkewLosesAdmins(c);
      assert ActiveAdmin(TwoAdmins.users[1]);
    }
  }

  // ---------------------------------------------------------------------
  // The audit log replays to the stored data
  // ---------------------------------------------------------------------

  /** What the log can tell: a missing output limit and the default read the same. */
  function View(d: Data): Data { d.(org := d.org.(maxOutput := Some(d.org.Effective().maxOutput))) }

  /** Applies one row to the data, or fails when its old value is not the current one.
      A lenient replay passes over retention rows that record no change. */
  function ReplayOne(strict: bool, d: Data, a: Audit): Option<Data> {
    match a
    case RoleChanged(u, o, n) =>
      if u in d.users && d.users[u].role == o
      then Some(d.(users := d.users[u := d.users[u].(role := n, permissions := PermissionsOf(n))])) else None
    case TeamChanged(u, o, n) =>
      if u in d.users && d.users[u].team == o then Some(d.(users := d.users[u := d.users[u].(team := n)])) else None
    case StatusChanged(u, o, n) =>
      if u in d.users && d.users[u].status == o then Some(d.(users := d.users[u := d.users[u].(status := n)])) else None
    case PolicyChanged(o, n) =>
      if d.org.Effective() == o
      then Some(d.(org := d.org.(mask := n.mask, block := n.block, maxOutput := Some(n.maxOutput)))) else None
    case BudgetChanged(o, n) => if d.org.budget == o then Some(d.(org := d.org.(budget := n))) else None
    case RetentionChanged(o, n) =>
      if !strict && o == n then Some(d)
      else if d.org.mode == o then Some(d.(org := d.org.(mode := n))) else None
  }

  function Replay(strict: bool, d: Data, log: seq<Audit>): Option<Data> {
    if log == [] then Some(d)
    else
      var r := Replay(strict, d, log[..|log| - 1]);
      if r.None? then None else ReplayOne(strict, r.value, log[|log| - 1])
  }

  lemma {:induction false} ReplayAppend(strict: bool, d: Data, log: seq<Audit>, rows: seq<Audit>)
    ensures Replay(strict, d, log + rows)
         == (var r := Replay(strict, d, log); if r.None? then None else Replay(strict, r.value, rows))
  {
    if rows == [] {
      assert log + rows == log;
    } else {
      assert (log + rows)[..|log + rows| - 1] == log + rows[..|rows| - 1];
      ReplayAppend(strict, d, log, rows[..|rows| - 1]);
    }
  }

  lemma {:induction false} ReplaySingle(strict: bool, d: Data, a: Audit)
    ensures Replay(strict, d, [a]) == ReplayOne(strict, d, a)
  {
    assert [a][..0] == [];
  }

  lemma {:induction false} PolicyReplays(strict: bool, patch: Patch, d: Data)
    requires PolicyOutcome(patch, d).Commits?
    ensures Replay(strict, View(d), PolicyOutcome(patch, d).audit) == Some(View(PolicyOutcome(patch, d).data))
  {
    var was, org := d.org.Effective(), PolicyOutcome(patch, d).data.org;
    var rows1 := if org.Effective() != was then [PolicyChanged(was, org.Effective())] else [];
    var rows2 := if org.budget != d.org.budget then [BudgetChanged(d.org.budget, org.budget)] else [];
    ReplayAppend(strict, View(d), rows1, rows2);
    ReplaySingle(strict, View(d), PolicyChanged(was, org.Effective()));
    var d1 := View(d).(org := View(d).org.(mask := org.mask, block := org.block, maxOutput := org.maxOutput));
    assert Replay(strict, View(d), rows1) == Some(d1);
    ReplaySingle(strict, d1, BudgetChanged(d.org.budget, org.budget));
  }

  /** Each mutation writes exactly the rows that carry its data from before to after. */
  lemma {:induction false} ApplyReplays(strict: bool, m: Mutation, d: Data, teams: set<Id>)
    requires Apply(m, d, teams).Commits?
    ensures Replay(strict, View(d), Apply(m, d, teams).audit) == Some(View(Apply(m, d, teams).data))
  {
    if m.UpdatePolicy? {
      PolicyReplays(strict, m.patch, d);
    } else {
      ReplaySingle(strict, View(d), Apply(m, d, teams).audit[0]);
    }
  }

  predicate Replays(strict: bool, d: Data, s: State) {
    Replay(strict, View(d), s.db.audit) == Some(View(s.db.data))
  }

  /** A retention change to the mode its transaction already reads. */
  predicate EmptyRetention(s: State, t: Id) {
    t in s.txns && s.txns[t].m.UpdateRetention? && s.txns[t].m.mode == s.txns[t].snap.data.org.mode
  }

  lemma CommitReplays(c: Config, s: State, t: Id, d: Data, strict: bool)
    requires Inv(s) && t in s.txns && s.txns[t].stage.Written? && Replays(strict, d, s)
    requires strict && EmptyRetention(s, t) ==> s.txns[t].holdsOrg
    ensures Replays(strict, d, Exec(c, s, Commit(t)))
  {
    var txn := s.txns[t];
    var out := Apply(txn.m, txn.snap.data, txn.snap.teams);
    CommittedIsApply(c, s, t);
    ReplayAppend(strict, View(d), s.db.audit, out.audit);
    if txn.holdsOrg {
      ApplyReplays(strict, txn.m, s.db.data, txn.snap.teams);
    } else {
      IdleRowsReplay(strict, txn.m, txn.snap.data, txn.snap.teams, s.db.data);
    }
  }

  /** The rows of a change that changes nothing carry any data to itself, unless the old retention mode matters. */
  lemma {:induction false} IdleRowsReplay(strict: bool, m: Mutation, d: Data, teams: set<Id>, now: Data)
    requires !IsUserMutation(m) && Apply(m, d, teams).Commits? && Apply(m, d, teams).data == d
    requires strict ==> !m.UpdateRetention?
    ensures Replay(strict, View(now), Apply(m, d, teams).audit) == Some(View(now))
  {
    var rows := Apply(m, d, teams).audit;
    if m.UpdateRetention? { assert rows[..0] == []; } else { assert rows == []; }
  }

  lemma {:induction false} RunReplays(c: Config, s: State, es: seq<Event>, d: Data)
    requires c.lockOrganisation && Inv(s) && Replays(false, d, s)
    ensures Replays(false, d, Run(c, s, es))
    decreases |es|
  {
    if es != [] {
      var e := es[0];
      StepKeepsInv(c, s, e);
      if e.Commit? && e.t in s.txns && s.txns[e.t].stage.Written? {
        CommitReplays(c, s, e.t, d, false);
      }
      RunReplays(c, Exec(c, s, e), es[1..], d);
    }
  }

  /** A transaction that meets no other one commits the answer to its request, or leaves everything as it is. */
  lemma {:induction false} AloneAnswers(c: Config, db: Db, t: Id, m: Mutation)
    ensures var s := Run(c, State(db, map[]), [Begin(t, m), LockOrganisation(t), Save(t), Commit(t)]);
            s.txns == map[] && exists error, rows ::
              && Answers(m, db.data, db.teams, error, s.db.data, rows) && s.db.audit == db.audit + rows
  {
    var e0, e1, e2, e3 := Begin(t, m), LockOrganisation(t), Save(t), Commit(t);
    var s0 := State(db, map[]);
    RunTwo(c, s0, e0, e1, [e2, e3]);
    assert [e0, e1] + [e2, e3] == [e0, e1, e2, e3] && [e2, e3] + [] == [e2, e3];
    var s2 := Exec(c, Exec(c, s0, e0), e1);
    RunTwo(c, s2, e2, e3, []);
    AloneLocks(c, db, t, m);
    AloneCommits(c, db, t, m, s2.txns[t]);
    ApplyAnswers(m, db.data, db.teams);
    var o := Apply(m, db.data, db.teams);
    assert db.audit + [] == db.audit;
    assert Answers(m, db.data, db.teams, ErrorOf(o), Run(c, s0, [e0, e1, e2, e3]).db.data,
                   if o.Commits? then o.audit else []);
  }

  lemma AloneLocks(c: Config, db: Db, t: Id, m: Mutation)
    ensures var s := Exec(c, Exec(c, State(db, map[]), Begin(t, m)), LockOrganisation(t));
            t in s.txns && s == State(db, map[t := s.txns[t]]) && s.txns[t].m == m && s.txns[t].snap == db
            && s.txns[t].stage == (if IsUserMutation(m) then Locked else Open)
            && (s.txns[t].holdsOrg ==> IsUserMutation(m))
  {
  }

  lemma AloneCommits(c: Config, db: Db, t: Id, m: Mutation, txn: Txn)
    requires txn.m == m && txn.snap == db && txn.stage == (if IsUserMutation(m) then Locked else Open)
    requires txn.holdsOrg ==> IsUserMutation(m)
    ensures var s := Exec(c, Exec(c, State(db, map[t := txn]), Save(t)), Commit(t));
            var o := Apply(m, db.data, db.teams);
            && s.txns == map[]
            && s.db.data == (if o.Commits? then o.data else db.data)
            && s.db.audit == (if o.Commits? then db.audit + o.audit else db.audit)
  {
    var s := Exec(c, State(db, map[t := txn]), Save(t));
    if t in s.txns {
      assert s == State(db, map[t := s.txns[t]]) && s.txns[t].stage.Written?;
      assert s.txns - {t} == map[];
    } else {
      assert s.txns == map[];
    }
  }

  /** In every run, retries included, the committed rows carry the initial data to the stored data:
      every row that records a change starts from the value the previous ones left. */
  lemma {:induction false} AuditLogReplays(c: Config, d: Data, teams: set<Id>, es: seq<Event>)
    requires c.lockOrganisation
    ensures Replays(false, d, Run(c, Start(d, teams), es))
  {
    RunReplays(c, Start(d, teams), es, d);
  }

  // ---------------------------------------------------------------------
  // User documents written by others
  // ---------------------------------------------------------------------

  /** The user's document was written since the transaction's snapshot, and the transaction has not written it. */
  predicate UserStale(s: State, t: Id) {
    && t in s.txns && IsUserMutation(s.txns[t].m) && !s.txns[t].stage.Written?
    && Version(s.txns[t].snap, s.txns[t].m.user) < Version(s.db, s.txns[t].m.user)
  }

  predicate SnapshotsAreOld(s: State) {
    forall t, user :: t in s.txns && user in s.txns[t].snap.userVersions ==>
      Version(s.txns[t].snap, user) <= Version(s.db, user)
  }

  lemma VersionsGrow(c: Config, s: State, e: Event, user: Id)
    ensures Version(s.db, user) <= Version(Exec(c, s, e).db, user)
  {
  }

  lemma StepKeepsSnapshotsOld(c: Config, s: State, e: Event)
    requires SnapshotsAreOld(s)
    ensures SnapshotsAreOld(Exec(c, s, e))
  {
    var s' := Exec(c, s, e);
    forall t, user | t in s'.txns && user in s'.txns[t].snap.userVersions
      ensures Version(s'.txns[t].snap, user) <= Version(s'.db, user)
    {
      VersionsGrow(c, s, e, user);
      SnapshotsStay(c, s, e, t);
    }
  }

  lemma {:induction false} RunKeepsSnapshotsOld(c: Config, s: State, es: seq<Event>)
    requires SnapshotsAreOld(s)
    ensures SnapshotsAreOld(Run(c, s, es))
    decreases |es|
  {
    if es != [] {
      StepKeepsSnapshotsOld(c, s, es[0]);
      RunKeepsSnapshotsOld(c, Exec(c, s, es[0]), es[1..]);
    }
  }

  lemma SnapshotsStay(c: Config, s: State, e: Event, t: Id)
    requires t in Exec(c, s, e).txns
    ensures if t in s.txns then Exec(c, s, e).txns[t].snap == s.txns[t].snap && Exec(c, s, e).txns[t].m == s.txns[t].m
            else Exec(c, s, e).txns[t].snap == s.db && Exec(c, s, e).db == s.db
  {
  }

  /** The step writes the user's document: a commit of a change to it, or another write that no transaction hinders. */
  predicate WritesUser(s: State, e: Event, user: Id) {
    || (e.Commit? && e.t in s.txns && s.txns[e.t].stage.Written? && IsUserMutation(s.txns[e.t].m)
         && s.txns[e.t].m.user == user)
    || (e == TouchUser(user) && forall q :: q in s.txns ==> !HoldsUser(s.txns[q], user))
  }

  /** Whoever wrote the document, every other transaction on the user that has not written it yet is stale then. */
  lemma WritesMakeStale(c: Config, s: State, e: Event, t: Id)
    requires Inv(s) && SnapshotsAreOld(s) && t in s.txns && IsUserMutation(s.txns[t].m) && !s.txns[t].stage.Written?
    requires WritesUser(s, e, s.txns[t].m.user)
    ensures UserStale(Exec(c, s, e), t)
  {
    var user := s.txns[t].m.user;
    assert Version(s.txns[t].snap, user) <= Version(s.db, user);
    if e.Commit? {
      CommittedIsApply(c, s, e.t);
      CommitAnswersUser(c, s, e.t);
    }
  }

  lemma CommitAnswersUser(c: Config, s: State, t: Id)
    requires Inv(s) && t in s.txns && s.txns[t].stage.Written? && IsUserMutation(s.txns[t].m)
    ensures Version(Exec(c, s, Commit(t)).db, s.txns[t].m.user) == Version(s.db, s.txns[t].m.user) + 1
  {
    CommittedIsApply(c, s, t);
    assert TxnOk(s, t);
  }

  /** The transaction is there at every step of the run; an aborted one is begun anew. */
  predicate IsThere(c: Config, s: State, es: seq<Event>, t: Id)
    decreases |es|
  {
    t in s.txns && (es == [] || IsThere(c, Exec(c, s, es[0]), es[1..], t))
  }

  lemma StepKeepsStale(c: Config, s: State, e: Event, t: Id)
    requires UserStale(s, t) && t in Exec(c, s, e).txns
    ensures UserStale(Exec(c, s, e), t)
  {
    VersionsGrow(c, s, e, s.txns[t].m.user);
    SnapshotsStay(c, s, e, t);
  }

  /** A stale transaction never writes: whatever happens it stays stale, until it is aborted. */
  lemma {:induction false} StaleNeverWrites(c: Config, s: State, es: seq<Event>, t: Id)
    requires UserStale(s, t) && IsThere(c, s, es, t)
    ensures UserStale(Run(c, s, es), t)
    decreases |es|
  {
    if es != [] {
      StepKeepsStale(c, s, es[0], t);
      StaleNeverWrites(c, Exec(c, s, es[0]), es[1..], t);
    }
  }

  // ---------------------------------------------------------------------
  // Retention rows that record no change
  // ---------------------------------------------------------------------

  /** No transaction is begun that asks for the retention mode already stored. */
  predicate NoEmptyRetention(c: Config, s: State, es: seq<Event>)
    decreases |es|
  {
    es == [] || (
      && !(es[0].Begin? && es[0].m.UpdateRetention? && es[0].m.mode == s.db.data.org.mode)
      && NoEmptyRetention(c, Exec(c, s, es[0]), es[1..]))
  }

  predicate NoneEmpty(s: State) { forall t :: t in s.txns ==> !EmptyRetention(s, t) }

  lemma StrictStepReplays(c: Config, s: State, e: Event, d: Data)
    requires Inv(s) && Replays(true, d, s)
    requires forall t :: t in s.txns && s.txns[t].stage.Written? && EmptyRetention(s, t) ==> s.txns[t].holdsOrg
    ensures Replays(true, d, Exec(c, s, e))
  {
    if e.Commit? && e.t in s.txns && s.txns[e.t].stage.Written? { CommitReplays(c, s, e.t, d, true); }
  }

  lemma StepKeepsNoneEmpty(c: Config, s: State, e: Event)
    requires NoneEmpty(s) && !(e.Begin? && e.m.UpdateRetention? && e.m.mode == s.db.data.org.mode)
    ensures NoneEmpty(Exec(c, s, e))
  {
    forall t | t in Exec(c, s, e).txns ensures !EmptyRetention(Exec(c, s, e), t) {
      assert t in s.txns ==> !EmptyRetention(s, t);
    }
  }

  lemma {:induction false} StrictRunReplays(c: Config, s: State, es: seq<Event>, d: Data)
    requires c.lockOrganisation && Inv(s) && Replays(true, d, s)
    requires NoneEmpty(s) && NoEmptyRetention(c, s, es)
    ensures Replays(true, d, Run(c, s, es))
    decreases |es|
  {
    if es != [] {
      StepKeepsInv(c, s, es[0]);
      StrictStepReplays(c, s, es[0], d);
      StepKeepsNoneEmpty(c, s, es[0]);
      StrictRunReplays(c, Exec(c, s, es[0]), es[1..], d);
    }
  }

  predicate WritesHold(s: State) {
    forall t :: t in s.txns && s.txns[t].stage.Written? ==> s.txns[t].holdsOrg
  }

  lemma {:induction false} TouchingRunReplays(c: Config, s: State, es: seq<Event>, d: Data)
    requires c.lockOrganisation && c.emptySaveWrites && Inv(s) && WritesHold(s) && Replays(true, d, s)
    ensures Replays(true, d, Run(c, s, es))
    decreases |es|
  {
    if es != [] {
      StepKeepsInv(c, s, es[0]);
      StrictStepReplays(c, s, es[0], d);
      StepKeepsHolding(c, s, es[0]);
      TouchingRunReplays(c, Exec(c, s, es[0]), es[1..], d);
    }
  }

  lemma StepKeepsHolding(c: Config, s: State, e: Event)
    requires c.lockOrganisation && c.emptySaveWrites && Inv(s) && WritesHold(s)
    ensures WritesHold(Exec(c, s, e))
  {
    forall t | t in Exec(c, s, e).txns && Exec(c, s, e).txns[t].stage.Written?
      ensures Exec(c, s, e).txns[t].holdsOrg
    {
      assert t in s.txns ==> TxnOk(s, t);
    }
  }

  /** Some continuation without another empty retention request leaves a row whose old value is wrong. */
  ghost predicate Breakable(c: Config, s: State, d: Data) {
    exists es :: NoEmptyRetention(c, s, es) && !Replays(true, d, Run(c, s, es))
  }

  lemma BreakableBefore(c: Config, s: State, e: Event, d: Data)
    requires Breakable(c, Exec(c, s, e), d)
    requires !(e.Begin? && e.m.UpdateRetention? && e.m.mode == s.db.data.org.mode)
    ensures Breakable(c, s, d)
  {
    var es :| NoEmptyRetention(c, Exec(c, s, e), es) && !Replays(true, d, Run(c, Exec(c, s, e), es));
    assert ([e] + es)[1..] == es;
    assert NoEmptyRetention(c, s, [e] + es) && Run(c, s, [e] + es) == Run(c, Exec(c, s, e), es);
  }

  lemma BrokenNow(c: Config, s: State, d: Data)
    requires !Replays(true, d, s)
    ensures Breakable(c, s, d)
  {
    assert NoEmptyRetention(c, s, []) && Run(c, s, []) == s;
  }

  /** Once the stored mode has moved on, finishing the empty change breaks the chain. */
  lemma StaleBreaks(c: Config, s: State, t: Id, d: Data)
    requires !c.emptySaveWrites && Inv(s) && EmptyRetention(s, t) && !s.txns[t].holdsOrg && !s.txns[t].stage.Locked?
    requires s.db.data.org.mode != s.txns[t].m.mode
    ensures Breakable(c, s, d)
    decreases s.txns[t].stage.Open?
  {
    if !Replays(true, d, s) {
      BrokenNow(c, s, d);
    } else if s.txns[t].stage.Written? {
      CommittedIsApply(c, s, t);
      var row := RetentionChanged(s.txns[t].m.mode, s.txns[t].m.mode);
      var s' := Exec(c, s, Commit(t));
      assert s'.db.audit == s.db.audit + [row];
      assert (s.db.audit + [row])[..|s.db.audit|] == s.db.audit;
      BrokenNow(c, s', d);
      BreakableBefore(c, s, Commit(t), d);
    } else {
      assert Apply(s.txns[t].m, s.txns[t].snap.data, s.txns[t].snap.teams).data == s.txns[t].snap.data;
      SaveKeepsInv(c, s, t);
      StaleBreaks(c, Exec(c, s, Save(t)), t, d);
      BreakableBefore(c, s, Save(t), d);
    }
  }

  /** With nobody holding the organisation, another request can change the mode first. */
  lemma FlipBreaks(c: Config, s: State, t: Id, d: Data)
    requires c.lockOrganisation && !c.emptySaveWrites && Inv(s)
    requires EmptyRetention(s, t) && !s.txns[t].holdsOrg && !s.txns[t].stage.Locked?
    requires s.db.data.org.mode == s.txns[t].m.mode && forall q :: q in s.txns ==> !s.txns[q].holdsOrg
    ensures Breakable(c, s, d)
  {
    var q := FreshId(s.txns.Keys);
    var flip := UpdateRetention(if s.txns[t].m.mode == METADATA_ONLY then ENCRYPTED_STORAGE else METADATA_ONLY);
    var s1 := Exec(c, s, Begin(q, flip));
    var s2 := Exec(c, s1, Save(q));
    var s3 := Exec(c, s2, Commit(q));
    StepKeepsInv(c, s, Begin(q, flip));
    StepKeepsInv(c, s1, Save(q));
    StepKeepsInv(c, s2, Commit(q));
    assert OrgFree(s1, q);
    assert Apply(flip, s.db.data, s.db.teams).data != s.db.data;
    assert s2.txns[q] == Txn(flip, s.db, Written, true, false);
    assert s3.db.data.org.mode == flip.mode && s3.txns[t] == s.txns[t];
    StaleBreaks(c, s3, t, d);
    BreakableBefore(c, s2, Commit(q), d);
    BreakableBefore(c, s1, Save(q), d);
    BreakableBefore(c, s, Begin(q, flip), d);
  }

  /** Empty retention changes stay off the organisation document. */
  predicate EmptyHoldsNothing(s: State) {
    forall t :: t in s.txns && EmptyRetention(s, t) ==> !s.txns[t].holdsOrg && !s.txns[t].stage.Locked?
  }

  lemma {:induction false} RunKeepsEmptyFree(c: Config, s: State, es: seq<Event>)
    requires !c.emptySaveWrites && EmptyHoldsNothing(s)
    ensures EmptyHoldsNothing(Run(c, s, es))
    decreases |es|
  {
    if es != [] {
      RunKeepsEmptyFree(c, Exec(c, s, es[0]), es[1..]);
    }
  }

  /** When an unchanged organisation is not written, the full chain can break from here exactly when
      a retention change to the mode it read is in flight. */
  lemma FullChainBreaksIff(c: Config, s: State, d: Data)
    requires c.lockOrganisation && !c.emptySaveWrites && Inv(s) && EmptyHoldsNothing(s) && Replays(true, d, s)
    ensures Breakable(c, s, d) <==> !NoneEmpty(s)
  {
    if NoneEmpty(s) {
      forall es | NoEmptyRetention(c, s, es) ensures Replays(true, d, Run(c, s, es)) { StrictRunReplays(c, s, es, d); }
    } else {
      var t :| t in s.txns && EmptyRetention(s, t);
      if s.db.data.org.mode != s.txns[t].m.mode {
        StaleBreaks(c, s, t, d);
      } else if h :| h in s.txns && s.txns[h].holdsOrg {
        StepKeepsInv(c, s, Abort(h));
        FlipBreaks(c, Exec(c, s, Abort(h)), t, d);
        BreakableBefore(c, s, Abort(h), d);
      } else {
        FlipBreaks(c, s, t, d);
      }
    }
  }

  /** The full chain over a whole run: guaranteed when saving always writes, or when nobody asks for the stored mode. */
  lemma {:induction false} FullChainReplays(c: Config, d: Data, teams: set<Id>, es: seq<Event>)
    requires c.lockOrganisation
    requires c.emptySaveWrites || NoEmptyRetention(c, Start(d, teams), es)
    ensures Replays(true, d, Run(c, Start(d, teams), es))
  {
    if c.emptySaveWrites {
      TouchingRunReplays(c, Start(d, teams), es, d);
    } else {
      StrictRunReplays(c, Start(d, teams), es, d);
    }
  }
}

/** Signing up by invite (services/invite.py): a single-use token, redeemed under a row lock around
  * a call to an external user store, with a compensating delete when the commit fails. Any number
  * of accepts and revokes interleave; replies, commits and deletes may go wrong. */
module Invites {
  import opened Domain

  type InviteId = nat
  type UserId = nat
  type Tx = nat

  /** The schema's check: an invite makes an agent or an admin, never an AI agent. */
  type InviteRole = r: Role | !r.AiAgent? witness MemberRole

  datatype Invite = Invite(
    agency: nat, role: InviteRole, email: Option<string>, expiresAt: Time,
    redeemedAt: Option<Time>, redeemedAgent: Option<AgentId>, revokedAt: Option<Time>)

  datatype InviteStatus = Pending | Expired | Redeemed | Revoked

  function StatusOf(invite: Invite, now: Time): InviteStatus {
    if invite.redeemedAt.Some? then Redeemed
    else if invite.revokedAt.Some? then Revoked
    else if invite.expiresAt <= now then Expired
    else Pending
  }

  /** An agent row with the person's email; `user` is the external login, `invite` what it came by. */
  datatype Member = Member(agency: nat, role: Role, email: string, user: Option<UserId>, invite: Option<InviteId>)

  /** agent.joined, as the outbox holds it. */
  datatype AgentJoined = AgentJoined(agent: AgentId, agency: nat, role: Role, invite: InviteId)

  /** Our tables, and the external store's users. A token is the number of the invite it hashes to. */
  datatype Tables = Tables(
    invites: seq<Invite>, members: seq<Member>, joined: seq<AgentJoined>, users: map<UserId, string>)

  datatype Denial = NotFound | Gone(status: InviteStatus) | WrongEmail | EmailTaken | Unavailable | CommitFailed | Died
  datatype Outcome = Joined(agent: AgentId) | Denied(why: Denial)

  /** The external store's answer. No answer is read as "no user was made", rightly or wrongly. */
  datatype Reply = Made(user: UserId) | Taken | NoAnswer(made: Option<UserId>)

  /** An unclear commit was applied but reported as failed. */
  datatype CommitReply = Applied | Failed | Unclear

  function Lower(s: string): string {
    seq(|s|, i requires 0 <= i < |s| => if 'A' <= s[i] <= 'Z' then s[i] - 'A' + 'a' else s[i])
  }

  predicate EmailInUse(users: map<UserId, string>, email: string) {
    exists u :: u in users && users[u] == email
  }

  // ------------------------------------------------------------ one accept on its own

  /** What keeps a token from being redeemed, as read under the lock. */
  function Refused(t: Tables, token: InviteId, email: string, now: Time): Option<Denial> {
    if token >= |t.invites| then Some(NotFound)
    else
      var invite := t.invites[token];
      if !StatusOf(invite, now).Pending? then Some(Gone(StatusOf(invite, now)))
      else if invite.email.Some? && invite.email.value != email then Some(WrongEmail)
      else None
  }

  function Join(t: Tables, token: InviteId, email: string, user: Option<UserId>, now: Time): Tables
    requires token < |t.invites|
  {
    var invite := t.invites[token];
    t.(members := t.members + [Member(invite.agency, invite.role, email, user, Some(token))],
       joined := t.joined + [AgentJoined(|t.members|, invite.agency, invite.role, token)],
       invites := t.invites[token := invite.(redeemedAt := Some(now), redeemedAgent := Some(|t.members|))])
  }

  /** The external store never gives one email or one id to two users. */
  predicate Honest(t: Tables, email: string, reply: Reply) {
    match reply
    case Made(u) => u !in t.users && !EmailInUse(t.users, email)
    case Taken => EmailInUse(t.users, email)
    case NoAnswer(made) => made.Some? ==> made.value !in t.users && !EmailInUse(t.users, email)
  }

  function Registered(t: Tables, email: string, reply: Reply): Tables {
    match reply
    case Made(u) => t.(users := t.users[u := email])
    case NoAnswer(made) => if made.Some? then t.(users := t.users[made.value := email]) else t
    case Taken => t
  }

  /** accept_invite with nobody in between: the tables and the answer, whatever the store, the
    * commit and the delete do. */
  function Accept(
      t: Tables, bypass: bool, token: InviteId, rawEmail: string, readAt: Time, writtenAt: Time,
      reply: Reply, commit: CommitReply, deleteWorks: bool): (r: (Tables, Outcome))
  {
    var email := Lower(rawEmail);
    var refused := Refused(t, token, email, readAt);
    if refused.Some? then (t, Denied(refused.value))
    else Granted(t, bypass, token, email, writtenAt, reply, commit, deleteWorks)
  }

  /** Once the token is held: the external user first. */
  function Granted(
      t: Tables, bypass: bool, token: InviteId, email: string, writtenAt: Time,
      reply: Reply, commit: CommitReply, deleteWorks: bool): (Tables, Outcome)
    requires token < |t.invites|
  {
    if bypass then Settled(t, token, email, None, writtenAt, commit, deleteWorks)
    else
      match reply
      case Taken => (t, Denied(EmailTaken))
      case NoAnswer(_) => (Registered(t, email, reply), Denied(Unavailable))
      case Made(user) => Settled(Registered(t, email, reply), token, email, Some(user), writtenAt, commit, deleteWorks)
  }

  /** The commit, and the clean-up when it is reported failed. */
  function Settled(
      t: Tables, token: InviteId, email: string, user: Option<UserId>, writtenAt: Time,
      commit: CommitReply, deleteWorks: bool): (Tables, Outcome)
    requires token < |t.invites|
  {
    var written := if commit.Failed? then t else Join(t, token, email, user, writtenAt);
    if commit.Applied? then (written, Joined(|t.members|))
    else
      (if user.Some? && deleteWorks then written.(users := written.users - {user.value}) else written,
       Denied(CommitFailed))
  }

  /** Nothing went wrong unnoticed: no user behind a lost reply, no commit behind an error, no
    * failed clean-up. */
  predicate Clean(reply: Reply, commit: CommitReply, deleteWorks: bool) {
    !(reply.NoAnswer? && reply.made.Some?) && !commit.Unclear? && (commit.Failed? ==> deleteWorks)
  }

  /** A failed accept leaves no trace, in our tables or in the external store, so a retry of the
    * same email meets the same answers; a successful one adds one member with the invite's agency
    * and role and binds it to the one new user. */
  lemma AcceptIsAllOrNothing(
      t: Tables, bypass: bool, token: InviteId, rawEmail: string, readAt: Time, writtenAt: Time,
      reply: Reply, commit: CommitReply, deleteWorks: bool)
    requires Honest(t, Lower(rawEmail), reply) && Clean(reply, commit, deleteWorks)
    ensures var (r, outcome) := Accept(t, bypass, token, rawEmail, readAt, writtenAt, reply, commit, deleteWorks);
      && (outcome.Denied? ==> r == t)
      && (outcome.Joined? ==>
            && token < |t.invites| && StatusOf(t.invites[token], readAt).Pending?
            && |r.members| == |t.members| + 1 && r.members[..|t.members|] == t.members && outcome.agent == |t.members|
            && r.members[outcome.agent].agency == t.invites[token].agency
            && r.members[outcome.agent].role == t.invites[token].role
            && (t.invites[token].email.Some? ==> r.members[outcome.agent].email == t.invites[token].email.value)
            && StatusOf(r.invites[token], writtenAt).Redeemed?
            && (forall i :: 0 <= i < |t.invites| && i != token ==> r.invites[i] == t.invites[i])
            && r.users.Keys - t.users.Keys == (if bypass then {} else {r.members[outcome.agent].user.value}))
  {
    var made := Registered(t, Lower(rawEmail), reply);
    if reply.Made? {
      assert made.users - {reply.user} == t.users;
    }
  }

  /** A denied accept that held a usable token leaves no trace exactly when nothing was made, or the
    * commit failed outright and there was no user to delete or the delete worked. */
  lemma UncleanLeavesTraces(
      t: Tables, bypass: bool, token: InviteId, rawEmail: string, readAt: Time, writtenAt: Time,
      reply: Reply, commit: CommitReply, deleteWorks: bool)
    requires Honest(t, Lower(rawEmail), reply) && Refused(t, token, Lower(rawEmail), readAt).None?
    ensures var (r, outcome) := Accept(t, bypass, token, rawEmail, readAt, writtenAt, reply, commit, deleteWorks);
      var unmade := !bypass && (reply.Taken? || (reply.NoAnswer? && reply.made.None?));
      var undone := (bypass || (reply.Made? && deleteWorks)) && commit.Failed?;
      outcome.Denied? ==> (r == t <==> unmade || undone)
  {
    var email := Lower(rawEmail);
    var made := Registered(t, email, reply);
    if reply.Made? {
      assert made.users - {reply.user} == t.users;
      assert reply.user in made.users;
    }
  }

  // ------------------------------------------------------------ interleaved

  datatype Pc = Waiting | Holding | Signed(user: Option<UserId>) | Undoing(orphan: UserId) | Done(outcome: Outcome)

  datatype Signup = Signup(token: InviteId, email: string, pc: Pc)

  /** `foreign` are users made by others; `made` every id ever given out; `leaked` users left behind
    * by a lost reply, a crash or a failed delete; `severed` users deleted under an applied commit;
    * `unclear` the signups whose commit was applied but reported failed. */
  datatype Sys = Sys(
    t: Tables, clock: Time, signups: map<Tx, Signup>, made: set<UserId>, foreign: set<UserId>,
    leaked: set<UserId>, severed: set<UserId>, unclear: set<Tx>)

  datatype Act =
    | Begin(tx: Tx, token: InviteId, rawEmail: string)
    | Lock(tx: Tx)
    | Register(tx: Tx, reply: Reply)
    | Commit(tx: Tx, result: CommitReply)
    | Undo(tx: Tx, works: bool)
    | Crash(tx: Tx)
    | Revoke(agency: nat, invite: InviteId)
    | Issue(agency: nat, role: InviteRole, email: Option<string>, expiresAt: Time)
    | ForeignUser(user: UserId, theirEmail: string)

  datatype Action = Action(now: Time, act: Act)

  predicate At(s: Sys, tx: Tx) {
    tx in s.signups && !s.signups[tx].pc.Done?
  }

  /** Between the locking read and the end of the transaction. */
  predicate Locks(signups: map<Tx, Signup>, tx: Tx, token: InviteId) {
    tx in signups && signups[tx].token == token && (signups[tx].pc.Holding? || signups[tx].pc.Signed?)
  }

  predicate LockedByAny(signups: map<Tx, Signup>, token: InviteId) {
    exists tx :: tx in signups && Locks(signups, tx, token)
  }

  predicate NewUser(s: Sys, email: string, reply: Reply) {
    && Honest(s.t, email, reply)
    && (reply.Made? ==> reply.user !in s.made)
    && (reply.NoAnswer? && reply.made.Some? ==> reply.made.value !in s.made)
  }

  predicate Enabled(s: Sys, a: Action) {
    && s.clock <= a.now
    && match a.act
       case Begin(tx, _, _) => tx !in s.signups
       case Lock(tx) => At(s, tx) && s.signups[tx].pc.Waiting? && !LockedByAny(s.signups, s.signups[tx].token)
       case Register(tx, reply) => At(s, tx) && s.signups[tx].pc.Holding? && NewUser(s, s.signups[tx].email, reply)
       case Commit(tx, _) => At(s, tx) && s.signups[tx].pc.Signed?
       case Undo(tx, _) => At(s, tx) && s.signups[tx].pc.Undoing?
       case Crash(tx) => At(s, tx)
       case Revoke(_, invite) => !LockedByAny(s.signups, invite)
       case Issue(_, _, _, expiresAt) => a.now < expiresAt
       case ForeignUser(user, email) => NewUser(s, email, Made(user))
  }

  predicate Bound(t: Tables, u: UserId) {
    exists m :: 0 <= m < |t.members| && t.members[m].user == Some(u)
  }

  /** The user a signup has made and not yet bound or deleted. */
  function Pledge(b: Signup): Option<UserId> {
    match b.pc
    case Signed(user) => user
    case Undoing(orphan) => Some(orphan)
    case _ => None
  }

  predicate Owned(s: Sys, u: UserId) {
    exists tx :: tx in s.signups && Pledge(s.signups[tx]) == Some(u)
  }

  function Move(s: Sys, tx: Tx, pc: Pc): Sys
    requires tx in s.signups
  {
    s.(signups := s.signups[tx := s.signups[tx].(pc := pc)])
  }

  function AfterRegister(s: Sys, bypass: bool, tx: Tx, reply: Reply): Sys
    requires tx in s.signups
  {
    if bypass then Move(s, tx, Signed(None))
    else
      var t := Registered(s.t, s.signups[tx].email, reply);
      match reply
      case Made(u) => Move(s, tx, Signed(Some(u))).(t := t, made := s.made + {u})
      case Taken => Move(s, tx, Done(Denied(EmailTaken)))
      case NoAnswer(made) =>
        var extra := if made.Some? then {made.value} else {};
        Move(s, tx, Done(Denied(Unavailable))).(t := t, made := s.made + extra, leaked := s.leaked + extra)
  }

  /** A failed commit without an external user has nothing to undo. */
  function AfterFailure(user: Option<UserId>): Pc {
    if user.Some? then Undoing(user.value) else Done(Denied(CommitFailed))
  }

  function AfterCommit(s: Sys, tx: Tx, reply: CommitReply, now: Time): Sys
    requires tx in s.signups && s.signups[tx].pc.Signed? && s.signups[tx].token < |s.t.invites|
  {
    var b := s.signups[tx];
    var joined := Join(s.t, b.token, b.email, b.pc.user, now);
    match reply
    case Applied => Move(s, tx, Done(Joined(|s.t.members|))).(t := joined)
    case Failed => Move(s, tx, AfterFailure(b.pc.user))
    case Unclear => Move(s, tx, AfterFailure(b.pc.user)).(t := joined, unclear := s.unclear + {tx})
  }

  function AfterUndo(s: Sys, tx: Tx, works: bool): Sys
    requires tx in s.signups && s.signups[tx].pc.Undoing?
  {
    var user := s.signups[tx].pc.orphan;
    var ended := Move(s, tx, Done(Denied(CommitFailed)));
    if works then
      ended.(t := s.t.(users := s.t.users - {user}),
             severed := if Bound(s.t, user) then s.severed + {user} else s.severed)
    else
      ended.(leaked := if Bound(s.t, user) then s.leaked else s.leaked + {user})
  }

  function AfterCrash(s: Sys, tx: Tx): Sys
    requires tx in s.signups
  {
    var pledge := Pledge(s.signups[tx]);
    Move(s, tx, Done(Denied(Died))).(
      leaked := if pledge.Some? && !Bound(s.t, pledge.value) then s.leaked + {pledge.value} else s.leaked)
  }

  datatype RevokeRefusal = InviteNotFound | AlreadyRedeemed

  /** revoke_invite: idempotent, within the agency, never after redemption. */
  function RevokeInvite(t: Tables, agency: nat, invite: InviteId, now: Time): (r: (Tables, Option<RevokeRefusal>)) {
    if invite >= |t.invites| || t.invites[invite].agency != agency then (t, Some(InviteNotFound))
    else
      var row := t.invites[invite];
      if row.redeemedAt.Some? then (t, Some(AlreadyRedeemed))
      else if row.revokedAt.Some? then (t, None)
      else (t.(invites := t.invites[invite := row.(revokedAt := Some(now))]), None)
  }

  function Issued(t: Tables, agency: nat, role: InviteRole, email: Option<string>, expiresAt: Time): Tables {
    var lock := if email.Some? then Some(Lower(email.value)) else None;
    t.(invites := t.invites + [Invite(agency, role, lock, expiresAt, None, None, None)])
  }

  /** One step; a step that is not enabled does not happen. */
  function Next(s0: Sys, bypass: bool, a: Action): Sys {
    if !Enabled(s0, a) then s0
    else
      var s := s0.(clock := a.now);
      match a.act
      case Begin(tx, token, rawEmail) => s.(signups := s.signups[tx := Signup(token, Lower(rawEmail), Waiting)])
      case Lock(tx) =>
        var refused := Refused(s.t, s.signups[tx].token, s.signups[tx].email, a.now);
        Move(s, tx, if refused.Some? then Done(Denied(refused.value)) else Holding)
      case Register(tx, reply) => AfterRegister(s, bypass, tx, reply)
      case Commit(tx, reply) => if s.signups[tx].token < |s.t.invites| then AfterCommit(s, tx, reply, a.now) else s
      case Undo(tx, works) => AfterUndo(s, tx, works)
      case Crash(tx) => AfterCrash(s, tx)
      case Revoke(agency, invite) => s.(t := RevokeInvite(s.t, agency, invite, a.now).0)
      case Issue(agency, role, email, expiresAt) => s.(t := Issued(s.t, agency, role, email, expiresAt))
      case ForeignUser(user, email) =>
        s.(t := s.t.(users := s.t.users[user := email]), made := s.made + {user}, foreign := s.foreign + {user})
  }

  // ------------------------------------------------------------ what every step keeps

  /** The checks on core.agent_invite. */
  predicate InviteSound(t: Tables, i: InviteId)
    requires i < |t.invites|
  {
    var row := t.invites[i];
    && (row.redeemedAt.Some? <==> row.redeemedAgent.Some?)
    && !(row.redeemedAt.Some? && row.revokedAt.Some?)
    && (row.redeemedAgent.Some? ==>
          row.redeemedAgent.value < |t.members| && t.members[row.redeemedAgent.value].invite == Some(i))
  }

  /** A member that came by an invite has its agency, its role and its email, and is the agent the
    * invite names. */
  predicate MemberSound(t: Tables, m: AgentId)
    requires m < |t.members|
  {
    var row := t.members[m];
    row.invite.Some? ==>
      && row.invite.value < |t.invites|
      && t.invites[row.invite.value].redeemedAgent == Some(m)
      && row.agency == t.invites[row.invite.value].agency && row.role == t.invites[row.invite.value].role
      && (t.invites[row.invite.value].email.Some? ==> t.invites[row.invite.value].email.value == row.email)
  }

  /** One event for each member that came by an invite, in the order they came. */
  function JoinedBy(members: seq<Member>): seq<AgentJoined> {
    if members == [] then []
    else
      var m, row := |members| - 1, members[|members| - 1];
      JoinedBy(members[..m])
        + if row.invite.Some? then [AgentJoined(m, row.agency, row.role, row.invite.value)] else []
  }

  ghost predicate TablesSound(t: Tables) {
    && t.joined == JoinedBy(t.members)
    && (forall i :: 0 <= i < |t.invites| ==> InviteSound(t, i))
    && (forall m :: 0 <= m < |t.members| ==> MemberSound(t, m))
  }

  /** A held token is unused, unrevoked and held for an email it allows; nobody else holds it. */
  ghost predicate LocksSound(s: Sys) {
    && (forall tx: Tx, token: InviteId :: Locks(s.signups, tx, token) ==>
          && token < |s.t.invites|
          && s.t.invites[token].redeemedAt.None? && s.t.invites[token].revokedAt.None?
          && (s.t.invites[token].email.Some? ==> s.t.invites[token].email.value == s.signups[tx].email))
    && (forall a: Tx, b: Tx, token: InviteId :: Locks(s.signups, a, token) && Locks(s.signups, b, token) ==> a == b)
  }

  /** Where a user of the external store can come from. */
  ghost predicate Placed(s: Sys, u: UserId) {
    && (u in s.t.users ==> u in s.made && (u in s.foreign || u in s.leaked || Bound(s.t, u) || Owned(s, u)))
    && (u in s.foreign || u in s.leaked ==> u in s.t.users && !Bound(s.t, u) && !Owned(s, u))
    && !(u in s.foreign && u in s.leaked)
    && (Owned(s, u) ==> u in s.t.users)
    && (Bound(s.t, u) ==> u in s.made && (u in s.t.users <==> u !in s.severed))
    && (u in s.severed ==> u in s.made && Bound(s.t, u))
  }

  ghost predicate UsersSound(s: Sys) {
    && (forall u: UserId :: Placed(s, u))
    && (forall a, b :: a in s.signups && b in s.signups && a != b && Pledge(s.signups[a]).Some? ==>
          Pledge(s.signups[a]) != Pledge(s.signups[b]))
    && (forall tx :: tx in s.signups && s.signups[tx].pc.Signed? && s.signups[tx].pc.user.Some? ==>
          !Bound(s.t, s.signups[tx].pc.user.value))
    && (forall m, n :: 0 <= m < n < |s.t.members| && s.t.members[m].user.Some? ==>
          s.t.members[m].user != s.t.members[n].user)
  }

  /** Every member that came by an invite is some signup's success, or behind an unclear commit. */
  ghost predicate Backed(s: Sys, m: AgentId)
    requires m < |s.t.members|
  {
    s.t.members[m].invite.Some? ==>
      exists tx :: tx in s.signups && s.signups[tx].token == s.t.members[m].invite.value
        && (s.signups[tx].pc == Done(Joined(m)) || tx in s.unclear)
  }

  /** A signup that was told it joined did. */
  ghost predicate JoinedSound(s: Sys) {
    forall tx :: tx in s.signups && s.signups[tx].pc.Done? && s.signups[tx].pc.outcome.Joined? ==>
      var m := s.signups[tx].pc.outcome.agent;
      && m < |s.t.members| && s.t.members[m].invite == Some(s.signups[tx].token)
      && s.t.members[m].email == s.signups[tx].email
  }

  ghost predicate SignupInv(s: Sys) {
    && TablesSound(s.t) && LocksSound(s) && UsersSound(s) && JoinedSound(s)
    && forall m :: 0 <= m < |s.t.members| ==> Backed(s, m)
  }

  // ------------------------------------------------------------ one step

  /** A step of one signup that writes no table and keeps its pledge. */
  lemma MoveKeeps(s: Sys, tx: Tx, pc: Pc)
    requires SignupInv(s) && At(s, tx)
    requires Pledge(s.signups[tx].(pc := pc)) == Pledge(s.signups[tx])
    requires pc.Signed? ==> s.signups[tx].pc.Holding? && pc.user.None?
    requires pc.Done? ==> pc.outcome.Denied?
    requires pc.Holding? ==> (
      s.signups[tx].pc.Waiting? && !LockedByAny(s.signups, s.signups[tx].token)
      && Refused(s.t, s.signups[tx].token, s.signups[tx].email, s.clock).None?)
    ensures SignupInv(Move(s, tx, pc))
  {
    var r := Move(s, tx, pc);
    MoveKeepsLocks(s, tx, pc);
    SamePledges(s, r);
    BackingStays(s, r);
  }

  lemma MoveKeepsLocks(s: Sys, tx: Tx, pc: Pc)
    requires LocksSound(s) && At(s, tx) && (pc.Signed? ==> s.signups[tx].pc.Holding?)
    requires pc.Holding? ==> (
      s.signups[tx].pc.Waiting? && !LockedByAny(s.signups, s.signups[tx].token)
      && Refused(s.t, s.signups[tx].token, s.signups[tx].email, s.clock).None?)
    ensures LocksSound(Move(s, tx, pc))
  {
    var r := Move(s, tx, pc);
    assert forall o: Tx, token: InviteId :: Locks(r.signups, o, token) ==>
      Locks(s.signups, o, token) || (o == tx && pc.Holding? && token == s.signups[tx].token);
  }

  /** Users are placed by the tables and the pledges alone. */
  lemma SamePledges(s: Sys, r: Sys)
    requires UsersSound(s) && r.t == s.t && s.signups.Keys == r.signups.Keys
    requires forall tx :: tx in s.signups ==> Pledge(r.signups[tx]) == Pledge(s.signups[tx])
    requires forall tx :: tx in s.signups && r.signups[tx].pc.Signed? && r.signups[tx].pc.user.Some? ==>
      s.signups[tx].pc.Signed?
    requires r.made == s.made && r.foreign == s.foreign && r.leaked == s.leaked && r.severed == s.severed
    ensures UsersSound(r)
  {
    forall u: UserId ensures Placed(r, u) {
      assert Placed(s, u);
      assert Owned(s, u) <==> Owned(r, u);
    }
  }

  lemma BackingStays(s: Sys, r: Sys)
    requires forall m :: 0 <= m < |s.t.members| ==> Backed(s, m)
    requires s.t.members <= r.t.members && s.unclear <= r.unclear
    requires forall tx :: tx in s.signups ==>
      tx in r.signups && r.signups[tx].token == s.signups[tx].token
      && (s.signups[tx].pc.Done? ==> r.signups[tx].pc == s.signups[tx].pc)
    ensures forall m :: 0 <= m < |s.t.members| ==> Backed(r, m)
  {
    forall m | 0 <= m < |s.t.members| ensures Backed(r, m) {
      assert Backed(s, m);
    }
  }

  lemma BeginKeeps(s: Sys, tx: Tx, token: InviteId, email: string)
    requires SignupInv(s) && tx !in s.signups
    ensures SignupInv(s.(signups := s.signups[tx := Signup(token, email, Waiting)]))
  {
    var r := s.(signups := s.signups[tx := Signup(token, email, Waiting)]);
    assert forall o: Tx, k: InviteId :: Locks(r.signups, o, k) ==> Locks(s.signups, o, k);
    forall u: UserId ensures Placed(r, u) {
      assert Placed(s, u);
      assert Owned(r, u) <==> Owned(s, u) by {
        if o :| o in s.signups && Pledge(s.signups[o]) == Some(u) {
          assert o in r.signups;
        }
      }
    }
    BackingStays(s, r);
  }

  /** The external store made a user and answered. */
  lemma MadeKeeps(s: Sys, tx: Tx, u: UserId)
    requires SignupInv(s) && At(s, tx) && s.signups[tx].pc.Holding? && NewUser(s, s.signups[tx].email, Made(u))
    ensures SignupInv(AfterRegister(s, false, tx, Made(u)))
  {
    var r := AfterRegister(s, false, tx, Made(u));
    assert forall o: Tx, k: InviteId :: Locks(r.signups, o, k) ==> Locks(s.signups, o, k);
    assert Placed(s, u);
    assert forall o :: o in s.signups ==> Pledge(s.signups[o]) != Some(u) by {
      assert !Owned(s, u);
    }
    assert Pledge(s.signups[tx]).None? && Pledge(r.signups[tx]) == Some(u);
    forall v: UserId ensures Placed(r, v) {
      assert Placed(s, v);
      assert Bound(r.t, v) <==> Bound(s.t, v);
      OwnedNow(s, r, tx, u, v);
    }
    SameRowsStaySound(s.t, r.t);
    BackingStays(s, r);
  }

  lemma OwnedNow(s: Sys, r: Sys, tx: Tx, u: UserId, v: UserId)
    requires tx in s.signups && r.signups == s.signups[tx := s.signups[tx].(pc := Signed(Some(u)))]
    requires Pledge(s.signups[tx]).None?
    ensures Owned(r, v) <==> Owned(s, v) || v == u
  {
    assert Pledge(r.signups[tx]) == Some(u);
    if o :| o in s.signups && Pledge(s.signups[o]) == Some(v) {
      assert Pledge(r.signups[o]) == Some(v);
    }
    if o :| o in r.signups && o != tx && Pledge(r.signups[o]) == Some(v) {
      assert Pledge(s.signups[o]) == Some(v);
    }
  }

  /** A user nobody here will bind: made behind a lost reply, or by someone else. */
  lemma StrayKeeps(s: Sys, r: Sys, u: UserId, email: string)
    requires SignupInv(s) && NewUser(s, email, Made(u))
    requires r == s.(t := s.t.(users := s.t.users[u := email]), made := s.made + {u}, foreign := s.foreign + {u})
          || r == s.(t := s.t.(users := s.t.users[u := email]), made := s.made + {u}, leaked := s.leaked + {u})
    ensures SignupInv(r)
  {
    assert forall o: Tx, k: InviteId :: Locks(r.signups, o, k) ==> Locks(s.signups, o, k);
    forall v: UserId ensures Placed(r, v) {
      assert Placed(s, v);
      assert Bound(r.t, v) <==> Bound(s.t, v);
      assert Owned(r, v) <==> Owned(s, v);
    }
    forall i | 0 <= i < |r.t.invites| ensures InviteSound(r.t, i) {
      assert InviteSound(s.t, i);
    }
    forall m | 0 <= m < |r.t.members| ensures MemberSound(r.t, m) {
      assert MemberSound(s.t, m);
    }
    BackingStays(s, r);
  }

  lemma RegisterKeeps(s: Sys, bypass: bool, tx: Tx, reply: Reply)
    requires SignupInv(s) && At(s, tx) && s.signups[tx].pc.Holding? && NewUser(s, s.signups[tx].email, reply)
    ensures SignupInv(AfterRegister(s, bypass, tx, reply))
  {
    if bypass {
      MoveKeeps(s, tx, Signed(None));
    } else {
      match reply
      case Made(u) => MadeKeeps(s, tx, u);
      case Taken => MoveKeeps(s, tx, Done(Denied(EmailTaken)));
      case NoAnswer(made) =>
        var moved := Move(s, tx, Done(Denied(Unavailable)));
        MoveKeeps(s, tx, Done(Denied(Unavailable)));
        if made.Some? {
          StrayKeeps(moved, AfterRegister(s, false, tx, reply), made.value, s.signups[tx].email);
        } else {
          assert AfterRegister(s, false, tx, reply) == moved;
        }
    }
  }

  // ------------------------------------------------------------ the commit

  lemma JoinKeepsTables(t: Tables, token: InviteId, email: string, user: Option<UserId>, now: Time)
    requires TablesSound(t) && token < |t.invites|
    requires t.invites[token].redeemedAt.None? && t.invites[token].revokedAt.None?
    requires t.invites[token].email.Some? ==> t.invites[token].email.value == email
    ensures TablesSound(Join(t, token, email, user, now))
  {
    var r := Join(t, token, email, user, now);
    forall i | 0 <= i < |r.invites| ensures InviteSound(r, i) {
      assert InviteSound(t, i);
    }
    forall m | 0 <= m < |r.members| ensures MemberSound(r, m) {
      if m < |t.members| {
        assert MemberSound(t, m);
        assert InviteSound(t, token);
      }
    }
  }

  lemma JoinBinds(t: Tables, token: InviteId, email: string, user: Option<UserId>, now: Time, u: UserId)
    requires token < |t.invites|
    ensures Bound(Join(t, token, email, user, now), u) <==> Bound(t, u) || user == Some(u)
  {
    var r := Join(t, token, email, user, now);
    assert r.members[|t.members|].user == user;
    if m :| 0 <= m < |t.members| && t.members[m].user == Some(u) {
      assert r.members[m].user == Some(u);
    }
  }

  lemma CommitKeepsLocks(s: Sys, tx: Tx, reply: CommitReply, now: Time)
    requires SignupInv(s) && At(s, tx) && s.signups[tx].pc.Signed?
    requires s.signups[tx].token < |s.t.invites|
    ensures LocksSound(AfterCommit(s, tx, reply, now))
  {
    var r := AfterCommit(s, tx, reply, now);
    assert Locks(s.signups, tx, s.signups[tx].token);
    forall o: Tx, k: InviteId | Locks(r.signups, o, k)
      ensures o != tx && Locks(s.signups, o, k) && k != s.signups[tx].token
    {
      assert Locks(s.signups, o, k);
    }
  }

  lemma CommitKeepsUsers(s: Sys, tx: Tx, reply: CommitReply, now: Time)
    requires SignupInv(s) && At(s, tx) && s.signups[tx].pc.Signed? && s.signups[tx].token < |s.t.invites|
    requires !reply.Failed?
    ensures UsersSound(AfterCommit(s, tx, reply, now))
  {
    var r := AfterCommit(s, tx, reply, now);
    var b := s.signups[tx];
    forall u: UserId ensures Placed(r, u) {
      CommitPlaces(s, tx, reply, now, u);
    }
    forall o | o in r.signups && r.signups[o].pc.Signed? && r.signups[o].pc.user.Some?
      ensures !Bound(r.t, r.signups[o].pc.user.value)
    {
      JoinBinds(s.t, b.token, b.email, b.pc.user, now, r.signups[o].pc.user.value);
      assert Pledge(s.signups[o]).Some?;
    }
    forall m | 0 <= m < |s.t.members| && b.pc.user.Some? ensures s.t.members[m].user != b.pc.user {
      assert !Bound(s.t, b.pc.user.value);
    }
  }

  lemma CommitPlaces(s: Sys, tx: Tx, reply: CommitReply, now: Time, u: UserId)
    requires SignupInv(s) && At(s, tx) && s.signups[tx].pc.Signed? && s.signups[tx].token < |s.t.invites|
    requires !reply.Failed?
    ensures Placed(AfterCommit(s, tx, reply, now), u)
  {
    var b := s.signups[tx];
    assert Placed(s, u);
    JoinBinds(s.t, b.token, b.email, b.pc.user, now, u);
    if Some(u) == b.pc.user {
      assert Pledge(b) == Some(u);
    }
    PledgesElsewhere(s, AfterCommit(s, tx, reply, now), tx, u);
  }

  /** Only one signup's pledge changed, so another's users are owned as before. */
  lemma PledgesElsewhere(s: Sys, r: Sys, tx: Tx, u: UserId)
    requires UsersSound(s) && tx in s.signups && r.signups.Keys == s.signups.Keys
    requires forall o :: o in s.signups && o != tx ==> r.signups[o] == s.signups[o]
    requires Pledge(r.signups[tx]).None? || Pledge(r.signups[tx]) == Pledge(s.signups[tx])
    ensures Owned(r, u) <==> Owned(s, u) && (Pledge(s.signups[tx]) == Some(u) ==> Pledge(r.signups[tx]) == Some(u))
  {
    if o :| o in s.signups && Pledge(s.signups[o]) == Some(u) {
      assert o in r.signups;
    }
    if o :| o in r.signups && Pledge(r.signups[o]) == Some(u) {
      assert Pledge(s.signups[o]) == Some(u);
    }
  }

  /** A commit that is applied backs its own new member. */
  lemma CommitKeepsMembers(s: Sys, tx: Tx, reply: CommitReply, now: Time)
    requires SignupInv(s) && At(s, tx) && s.signups[tx].pc.Signed? && s.signups[tx].token < |s.t.invites|
    requires !reply.Failed?
    ensures var r := AfterCommit(s, tx, reply, now);
      JoinedSound(r) && forall m :: 0 <= m < |r.t.members| ==> Backed(r, m)
  {
    var r := AfterCommit(s, tx, reply, now);
    BackingStays(s, r);
    assert Backed(r, |s.t.members|) by {
      assert r.signups[tx].token == s.signups[tx].token;
    }
  }

  lemma AppliedKeeps(s: Sys, tx: Tx, reply: CommitReply, now: Time)
    requires SignupInv(s) && At(s, tx) && s.signups[tx].pc.Signed? && s.signups[tx].token < |s.t.invites|
    requires !reply.Failed?
    ensures SignupInv(AfterCommit(s, tx, reply, now))
  {
    var b := s.signups[tx];
    assert Locks(s.signups, tx, b.token);
    JoinKeepsTables(s.t, b.token, b.email, b.pc.user, now);
    CommitKeepsLocks(s, tx, reply, now);
    CommitKeepsUsers(s, tx, reply, now);
    CommitKeepsMembers(s, tx, reply, now);
    assert AfterCommit(s, tx, reply, now).t == Join(s.t, b.token, b.email, b.pc.user, now);
  }

  lemma CommitKeeps(s: Sys, tx: Tx, reply: CommitReply, now: Time)
    requires SignupInv(s) && At(s, tx) && s.signups[tx].pc.Signed?
    ensures s.signups[tx].token < |s.t.invites| && SignupInv(AfterCommit(s, tx, reply, now))
  {
    assert Locks(s.signups, tx, s.signups[tx].token);
    if reply.Failed? {
      MoveKeeps(s, tx, AfterFailure(s.signups[tx].pc.user));
      assert AfterCommit(s, tx, reply, now) == Move(s, tx, AfterFailure(s.signups[tx].pc.user));
    } else {
      AppliedKeeps(s, tx, reply, now);
    }
  }

  // ------------------------------------------------------------ clean-up

  lemma UndoKeepsUsers(s: Sys, tx: Tx, works: bool)
    requires SignupInv(s) && At(s, tx) && s.signups[tx].pc.Undoing?
    ensures UsersSound(AfterUndo(s, tx, works))
  {
    var r := AfterUndo(s, tx, works);
    assert Pledge(s.signups[tx]) == Some(s.signups[tx].pc.orphan);
    forall u: UserId ensures Placed(r, u) {
      assert Placed(s, u);
      assert Bound(r.t, u) <==> Bound(s.t, u);
      PledgesElsewhere(s, r, tx, u);
    }
  }

  lemma UndoKeeps(s: Sys, tx: Tx, works: bool)
    requires SignupInv(s) && At(s, tx) && s.signups[tx].pc.Undoing?
    ensures SignupInv(AfterUndo(s, tx, works))
  {
    var r := AfterUndo(s, tx, works);
    assert forall o: Tx, k: InviteId :: Locks(r.signups, o, k) ==> Locks(s.signups, o, k);
    UndoKeepsUsers(s, tx, works);
    SameRowsStaySound(s.t, r.t);
    BackingStays(s, r);
  }

  lemma CrashKeeps(s: Sys, tx: Tx)
    requires SignupInv(s) && At(s, tx)
    ensures SignupInv(AfterCrash(s, tx))
  {
    var r := AfterCrash(s, tx);
    assert forall o: Tx, k: InviteId :: Locks(r.signups, o, k) ==> Locks(s.signups, o, k);
    forall u: UserId ensures Placed(r, u) {
      assert Placed(s, u);
      PledgesElsewhere(s, r, tx, u);
    }
    BackingStays(s, r);
  }

  lemma SameRowsStaySound(t: Tables, r: Tables)
    requires TablesSound(t) && r.invites == t.invites && r.members == t.members && r.joined == t.joined
    ensures TablesSound(r)
  {
    forall i | 0 <= i < |r.invites| ensures InviteSound(r, i) {
      assert InviteSound(t, i);
    }
    forall m | 0 <= m < |r.members| ensures MemberSound(r, m) {
      assert MemberSound(t, m);
    }
  }

  // ------------------------------------------------------------ the admin

  lemma RevokeKeeps(s: Sys, agency: nat, invite: InviteId, now: Time)
    requires SignupInv(s) && !LockedByAny(s.signups, invite)
    ensures SignupInv(s.(t := RevokeInvite(s.t, agency, invite, now).0))
  {
    var r := s.(t := RevokeInvite(s.t, agency, invite, now).0);
    assert forall o: Tx, k: InviteId :: Locks(r.signups, o, k) ==> Locks(s.signups, o, k) && k != invite;
    forall i | 0 <= i < |r.t.invites| ensures InviteSound(r.t, i) {
      assert InviteSound(s.t, i);
    }
    forall m | 0 <= m < |r.t.members| ensures MemberSound(r.t, m) {
      assert MemberSound(s.t, m);
    }
    SameUsers(s, r);
    BackingStays(s, r);
  }

  lemma IssueKeeps(s: Sys, agency: nat, role: InviteRole, email: Option<string>, expiresAt: Time)
    requires SignupInv(s)
    ensures SignupInv(s.(t := Issued(s.t, agency, role, email, expiresAt)))
  {
    var r := s.(t := Issued(s.t, agency, role, email, expiresAt));
    assert forall o: Tx, k: InviteId :: Locks(r.signups, o, k) ==> Locks(s.signups, o, k);
    forall i | 0 <= i < |r.t.invites| ensures InviteSound(r.t, i) {
      assert i < |s.t.invites| ==> InviteSound(s.t, i);
    }
    forall m | 0 <= m < |r.t.members| ensures MemberSound(r.t, m) {
      assert MemberSound(s.t, m);
    }
    SameUsers(s, r);
    BackingStays(s, r);
  }

  lemma SameUsers(s: Sys, r: Sys)
    requires UsersSound(s) && r.t.users == s.t.users && r.t.members == s.t.members && r == s.(t := r.t)
    ensures UsersSound(r)
  {
    forall u: UserId ensures Placed(r, u) {
      assert Placed(s, u);
      assert Bound(r.t, u) <==> Bound(s.t, u);
      assert Owned(r, u) <==> Owned(s, u);
    }
  }

  lemma StepKeeps(s0: Sys, bypass: bool, a: Action)
    requires SignupInv(s0)
    ensures SignupInv(Next(s0, bypass, a))
  {
    if Enabled(s0, a) {
      var s := s0.(clock := a.now);
      ClockKeeps(s0, a.now);
      match a.act
      case Begin(tx, token, rawEmail) => BeginKeeps(s, tx, token, Lower(rawEmail));
      case Lock(tx) =>
        var refused := Refused(s.t, s.signups[tx].token, s.signups[tx].email, a.now);
        MoveKeeps(s, tx, if refused.Some? then Done(Denied(refused.value)) else Holding);
      case Register(tx, reply) => RegisterKeeps(s, bypass, tx, reply);
      case Commit(tx, reply) => CommitKeeps(s, tx, reply, a.now);
      case Undo(tx, works) => UndoKeeps(s, tx, works);
      case Crash(tx) => CrashKeeps(s, tx);
      case Revoke(agency, invite) =>
        RevokeKeeps(s, agency, invite, a.now);
      case Issue(agency, role, email, expiresAt) => IssueKeeps(s, agency, role, email, expiresAt);
      case ForeignUser(user, email) => StrayKeeps(s, Next(s0, bypass, a), user, email);
    }
  }

  lemma ClockKeeps(s: Sys, now: Time)
    requires SignupInv(s)
    ensures SignupInv(s.(clock := now))
  {
    var r := s.(clock := now);
    assert forall o: Tx, k: InviteId :: Locks(r.signups, o, k) ==> Locks(s.signups, o, k);
    SamePledges(s, r);
    BackingStays(s, r);
  }

  // ------------------------------------------------------------ every run

  function Exec(s: Sys, bypass: bool, actions: seq<Action>): Sys
    decreases |actions|
  {
    if actions == [] then s else Exec(Next(s, bypass, actions[0]), bypass, actions[1..])
  }

  lemma {:induction false} RunKeeps(s: Sys, bypass: bool, actions: seq<Action>)
    requires SignupInv(s)
    ensures SignupInv(Exec(s, bypass, actions))
    decreases |actions|
  {
    if actions != [] {
      StepKeeps(s, bypass, actions[0]);
      RunKeeps(Next(s, bypass, actions[0]), bypass, actions[1..]);
    }
  }

  /** The admins who came by no invite, and the users others made. */
  ghost predicate Opening(s: Sys) {
    && s.signups == map[] && s.leaked == {} && s.severed == {} && s.unclear == {}
    && s.t.invites == [] && s.t.joined == []
    && s.made == s.foreign == s.t.users.Keys
    && forall m :: 0 <= m < |s.t.members| ==> s.t.members[m].invite.None? && s.t.members[m].user.None?
  }

  lemma {:induction false} NobodyJoined(members: seq<Member>)
    requires forall m :: 0 <= m < |members| ==> members[m].invite.None?
    ensures JoinedBy(members) == []
  {
    if members != [] {
      NobodyJoined(members[..|members| - 1]);
    }
  }

  lemma OpeningIsSound(s: Sys)
    requires Opening(s)
    ensures SignupInv(s)
  {
    NobodyJoined(s.t.members);
    assert forall u: UserId :: !Bound(s.t, u) && !Owned(s, u);
  }

  /** One token, at most one agent, in every interleaving: two members never share an invite, each
    * has its invite's agency, role and email, and one agent.joined event; no invite is both redeemed
    * and revoked. */
  lemma OneTokenOneAgent(s: Sys, bypass: bool, actions: seq<Action>)
    requires Opening(s)
    ensures var t := Exec(s, bypass, actions).t;
      && (forall i :: 0 <= i < |t.invites| ==>
            && !(t.invites[i].redeemedAt.Some? && t.invites[i].revokedAt.Some?)
            && (t.invites[i].redeemedAt.Some? <==> exists m :: 0 <= m < |t.members| && t.members[m].invite == Some(i)))
      && (forall m, n :: 0 <= m < n < |t.members| && t.members[m].invite.Some? ==>
            t.members[m].invite != t.members[n].invite)
      && (forall m :: 0 <= m < |t.members| ==> MemberSound(t, m))
      && t.joined == JoinedBy(t.members)
  {
    OpeningIsSound(s);
    RunKeeps(s, bypass, actions);
    var t := Exec(s, bypass, actions).t;
    forall i | 0 <= i < |t.invites|
      ensures !(t.invites[i].redeemedAt.Some? && t.invites[i].revokedAt.Some?)
      ensures t.invites[i].redeemedAt.Some? <==> exists m :: 0 <= m < |t.members| && t.members[m].invite == Some(i)
    {
      assert InviteSound(t, i);
      if m :| 0 <= m < |t.members| && t.members[m].invite == Some(i) {
        assert MemberSound(t, m);
      }
    }
    forall m, n | 0 <= m < n < |t.members| && t.members[m].invite.Some?
      ensures t.members[m].invite != t.members[n].invite
    {
      assert MemberSound(t, m) && MemberSound(t, n);
    }
  }

  /** The books balance to the user: one that belongs to nobody is exactly one that leaked. */
  lemma LostUsersAreLeaks(s: Sys, bypass: bool, actions: seq<Action>, u: UserId)
    requires Opening(s)
    ensures var r := Exec(s, bypass, actions);
      && (u in r.t.users && u !in r.foreign && !Bound(r.t, u) && !Owned(r, u) <==> u in r.leaked)
      && (Bound(r.t, u) && u !in r.t.users <==> u in r.severed)
  {
    OpeningIsSound(s);
    RunKeeps(s, bypass, actions);
    assert Placed(Exec(s, bypass, actions), u);
  }

  /** What the code hopes for: no answer means no user, the delete works, nothing dies halfway, and
    * an error from the commit means it was not applied. */
  predicate GoesWell(a: Action) {
    match a.act
    case Register(_, reply) => !(reply.NoAnswer? && reply.made.Some?)
    case Commit(_, result) => !result.Unclear?
    case Undo(_, works) => works
    case Crash(_) => false
    case _ => true
  }

  ghost predicate NothingLost(s: Sys) {
    s.leaked == {} && s.severed == {} && s.unclear == {}
  }

  lemma WellStepLosesNothing(s: Sys, bypass: bool, a: Action)
    requires SignupInv(s) && NothingLost(s) && GoesWell(a) && UnclearOrUnbound(s)
    ensures NothingLost(Next(s, bypass, a)) && UnclearOrUnbound(Next(s, bypass, a))
  {
    if Enabled(s, a) && a.act.Commit? {
      assert Locks(s.signups, a.act.tx, s.signups[a.act.tx].token);
      CommitKeepsOrphans(s, a.act.tx, a.act.result, a.now);
    }
    if Enabled(s, a) && a.act.Register? && NewUser(s, s.signups[a.act.tx].email, a.act.reply) && a.act.reply.Made? {
      assert Placed(s, a.act.reply.user);
    }
  }

  /** While every commit is clear, a user waiting to be deleted is bound to no one. */
  ghost predicate UnclearOrUnbound(s: Sys) {
    forall tx :: tx in s.signups && s.signups[tx].pc.Undoing? ==> !Bound(s.t, s.signups[tx].pc.orphan)
  }

  lemma CommitKeepsOrphans(s: Sys, tx: Tx, reply: CommitReply, now: Time)
    requires SignupInv(s) && UnclearOrUnbound(s) && At(s, tx) && s.signups[tx].pc.Signed?
    requires s.signups[tx].token < |s.t.invites| && !reply.Unclear?
    ensures UnclearOrUnbound(AfterCommit(s, tx, reply, now))
  {
    var r := AfterCommit(s, tx, reply, now);
    var b := s.signups[tx];
    forall o | o in r.signups && r.signups[o].pc.Undoing? ensures !Bound(r.t, r.signups[o].pc.orphan) {
      JoinBinds(s.t, b.token, b.email, b.pc.user, now, r.signups[o].pc.orphan);
      if o != tx {
        assert Pledge(s.signups[o]) == Some(r.signups[o].pc.orphan);
      }
    }
  }

  lemma {:induction false} WellRunLosesNothing(s: Sys, bypass: bool, actions: seq<Action>)
    requires SignupInv(s) && NothingLost(s) && UnclearOrUnbound(s)
    requires forall i :: 0 <= i < |actions| ==> GoesWell(actions[i])
    ensures NothingLost(Exec(s, bypass, actions)) && SignupInv(Exec(s, bypass, actions))
    decreases |actions|
  {
    if actions != [] {
      WellStepLosesNothing(s, bypass, actions[0]);
      StepKeeps(s, bypass, actions[0]);
      WellRunLosesNothing(Next(s, bypass, actions[0]), bypass, actions[1..]);
    }
  }

  /** When all goes well, a denied signup leaves nothing behind in any interleaving: every user of
    * the store is someone else's, a member's, or one a signup still in progress has just made; and
    * every member that came by an invite is one whose signup was told so. */
  lemma DeniedSignupsLeaveNothing(s: Sys, bypass: bool, actions: seq<Action>)
    requires Opening(s) && forall i :: 0 <= i < |actions| ==> GoesWell(actions[i])
    ensures var r := Exec(s, bypass, actions);
      && (forall u: UserId :: u in r.t.users ==> u in r.foreign || Bound(r.t, u) || Owned(r, u))
      && (forall u: UserId :: Bound(r.t, u) ==> u in r.t.users)
      && (forall m :: 0 <= m < |r.t.members| && r.t.members[m].invite.Some? ==> ToldJoined(r, m))
  {
    OpeningIsSound(s);
    WellRunLosesNothing(s, bypass, actions);
    var r := Exec(s, bypass, actions);
    forall u: UserId
      ensures u in r.t.users ==> u in r.foreign || Bound(r.t, u) || Owned(r, u)
      ensures Bound(r.t, u) ==> u in r.t.users
    {
      assert Placed(r, u);
    }
    forall m | 0 <= m < |r.t.members| && r.t.members[m].invite.Some? ensures ToldJoined(r, m) {
      assert Backed(r, m);
    }
  }

  predicate ToldJoined(s: Sys, m: AgentId) {
    exists tx :: tx in s.signups && s.signups[tx].pc == Done(Joined(m))
  }

  // ------------------------------------------------------------ a used or revoked invite stays so

  /** REDEEMED and REVOKED are for good. */
  lemma UsedStays(s: Sys, bypass: bool, a: Action, i: InviteId, later: Time)
    requires SignupInv(s) && i < |s.t.invites|
    ensures var (before, r) := (StatusOf(s.t.invites[i], s.clock), Next(s, bypass, a));
      && i < |r.t.invites|
      && (before.Redeemed? || before.Revoked? ==> StatusOf(r.t.invites[i], later) == before)
  {
    if Enabled(s, a) && a.act.Commit? {
      assert Locks(s.signups, a.act.tx, s.signups[a.act.tx].token);
    }
  }

  /** So is EXPIRED for an invite nobody holds, except that an admin may still revoke it. */
  lemma ExpiredStays(s: Sys, bypass: bool, a: Action, i: InviteId, later: Time)
    requires SignupInv(s) && i < |s.t.invites| && s.clock <= later
    requires StatusOf(s.t.invites[i], s.clock).Expired? && !LockedByAny(s.signups, i)
    ensures var r := Next(s, bypass, a);
      && i < |r.t.invites| && !LockedByAny(r.signups, i)
      && (StatusOf(r.t.invites[i], later).Expired? || StatusOf(r.t.invites[i], later).Revoked?)
  {
    if Enabled(s, a) {
      if a.act.Commit? {
        assert Locks(s.signups, a.act.tx, s.signups[a.act.tx].token);
      }
      forall tx | tx in Next(s, bypass, a).signups && Locks(Next(s, bypass, a).signups, tx, i)
        ensures Locks(s.signups, tx, i) || StatusOf(s.t.invites[i], a.now).Pending?
      {
      }
    }
  }

  lemma {:induction false} StatusStaysForGood(s: Sys, bypass: bool, actions: seq<Action>, i: InviteId)
    requires SignupInv(s) && i < |s.t.invites|
    ensures var (before, r) := (StatusOf(s.t.invites[i], s.clock), Exec(s, bypass, actions));
      && i < |r.t.invites|
      && (before.Redeemed? || before.Revoked? ==> StatusOf(r.t.invites[i], r.clock) == before)
      && (before.Expired? && !LockedByAny(s.signups, i) ==> !StatusOf(r.t.invites[i], r.clock).Redeemed?)
    decreases |actions|
  {
    if actions != [] {
      var next := Next(s, bypass, actions[0]);
      UsedStays(s, bypass, actions[0], i, next.clock);
      if StatusOf(s.t.invites[i], s.clock).Expired? && !LockedByAny(s.signups, i) {
        ExpiredStays(s, bypass, actions[0], i, next.clock);
      }
      StepKeeps(s, bypass, actions[0]);
      StatusStaysForGood(next, bypass, actions[1..], i);
    }
  }

  /** An invite becomes REDEEMED in one step exactly when the signup that holds it commits and the
    * commit is applied, however long ago the invite expired. */
  lemma RedeemedByItsHolder(s: Sys, bypass: bool, a: Action, i: InviteId)
    requires SignupInv(s) && i < |s.t.invites| && s.t.invites[i].redeemedAt.None?
    ensures var r := Next(s, bypass, a);
      && i < |r.t.invites|
      && (StatusOf(r.t.invites[i], r.clock).Redeemed?
          <==> Enabled(s, a) && a.act.Commit? && Locks(s.signups, a.act.tx, i) && !a.act.result.Failed?)
  {
    if Enabled(s, a) && a.act.Commit? {
      assert Locks(s.signups, a.act.tx, s.signups[a.act.tx].token);
    }
  }

  lemma SignedUndoesNothing(s: Sys, bypass: bool, a: Action)
    requires a.act.Undo? && a.act.tx in s.signups && s.signups[a.act.tx].pc.Signed?
    ensures Next(s, bypass, a) == s
  {
  }

  lemma HeldInTime(s: Sys, bypass: bool, a: Action)
    requires 0 in s.signups && s.signups[0].pc.Holding? && s.signups[0].token == 0
    requires s.t.users == map[] && s.made == {} && s.clock == a.now && a.act == Register(0, Made(0))
    ensures var r := Next(s, bypass, a);
      && r.clock == s.clock && 0 in r.signups && r.signups[0].pc.Signed? && r.signups[0].token == 0
      && r.t.invites == s.t.invites
  {
    assert NewUser(s, s.signups[0].email, Made(0));
  }

  /** So EXPIRED alone is not for good: from the opening, an invite is issued, held in time, expires
    * for everyone else, and is then redeemed. */
  lemma ExpiredCanBeRedeemed(bypass: bool, expiresAt: Time) returns (held: Sys, commit: Action)
    ensures exists first, actions :: Opening(first) && held == Exec(first, bypass, actions)
    ensures Enabled(held, commit) && |held.t.invites| == 1
    ensures StatusOf(held.t.invites[0], commit.now).Expired?
    ensures StatusOf(Next(held, bypass, commit).t.invites[0], commit.now).Redeemed?
  {
    var at := expiresAt - 1;
    var first := Sys(Tables([], [], [], map[]), at, map[], {}, {}, {}, {}, {});
    var issue := Action(at, Issue(1, MemberRole, None, expiresAt));
    var begin, lock := Action(at, Begin(0, 0, "ana")), Action(at, Lock(0));
    var register, idle := Action(at, Register(0, Made(0))), Action(expiresAt, Undo(0, true));
    var s1 := Next(first, bypass, issue);
    var s2 := Reading(s1, bypass, 0, 0, "ana", at);
    held := Next(s2, bypass, register);
    HeldInTime(s2, bypass, register);
    SignedUndoesNothing(held, bypass, idle);
    FiveSteps(first, bypass, issue, begin, lock, register, idle);
    assert Opening(first) && held == Exec(first, bypass, [issue, begin, lock, register, idle]);
    commit := Action(expiresAt, Commit(0, Applied));
  }

  // ------------------------------------------------------------ the steps are the request

  /** One accept's steps with nobody in between. */
  function Steps(
      tx: Tx, token: InviteId, rawEmail: string, readAt: Time, writtenAt: Time,
      reply: Reply, commit: CommitReply, deleteWorks: bool): seq<Action>
  {
    [Action(readAt, Begin(tx, token, rawEmail)), Action(readAt, Lock(tx)), Action(readAt, Register(tx, reply)),
     Action(writtenAt, Commit(tx, commit)), Action(writtenAt, Undo(tx, deleteWorks))]
  }

  lemma FiveSteps(s: Sys, bypass: bool, a: Action, b: Action, c: Action, d: Action, e: Action)
    ensures Exec(s, bypass, [a, b, c, d, e])
      == Next(Next(Next(Next(Next(s, bypass, a), bypass, b), bypass, c), bypass, d), bypass, e)
  {
    assert [a, b, c, d, e][1..] == [b, c, d, e];
    assert [b, c, d, e][1..] == [c, d, e];
    assert [c, d, e][1..] == [d, e];
    assert [d, e][1..] == [e];
    var two := Next(Next(s, bypass, a), bypass, b);
    assert Exec(s, bypass, [a, b, c, d, e]) == Exec(two, bypass, [c, d, e]);
    assert Exec(Next(two, bypass, c), bypass, [d, e]) == Exec(Next(Next(two, bypass, c), bypass, d), bypass, [e]);
    assert Exec(Next(Next(two, bypass, c), bypass, d), bypass, [e])
        == Exec(Next(Next(Next(two, bypass, c), bypass, d), bypass, e), bypass, []);
  }

  /** Undisturbed, the interleaved steps do what the request as a whole does: the same tables and
    * the same answer. */
  lemma UninterruptedIsAccept(
      s: Sys, bypass: bool, tx: Tx, token: InviteId, rawEmail: string, readAt: Time, writtenAt: Time,
      reply: Reply, commit: CommitReply, deleteWorks: bool)
    requires s.clock <= readAt <= writtenAt && tx !in s.signups && !LockedByAny(s.signups, token)
    requires NewUser(s, Lower(rawEmail), reply)
    ensures var r := Exec(s, bypass, Steps(tx, token, rawEmail, readAt, writtenAt, reply, commit, deleteWorks));
      var (t, outcome) := Accept(s.t, bypass, token, rawEmail, readAt, writtenAt, reply, commit, deleteWorks);
      r.t == t && tx in r.signups && r.signups[tx].pc == Done(outcome)
  {
    FiveSteps(s, bypass, Action(readAt, Begin(tx, token, rawEmail)), Action(readAt, Lock(tx)),
              Action(readAt, Register(tx, reply)),
              Action(writtenAt, Commit(tx, commit)), Action(writtenAt, Undo(tx, deleteWorks)));
    var email := Lower(rawEmail);
    var held := Reading(s, bypass, tx, token, rawEmail, readAt);
    var refused := Refused(s.t, token, email, readAt);
    if refused.Some? {
      EndedStays(held, bypass, tx, readAt, writtenAt, reply, commit, deleteWorks);
    } else {
      HeldAccepts(held, bypass, tx, readAt, writtenAt, reply, commit, deleteWorks);
    }
  }

  /** The state after the locking read. */
  lemma Reading(s: Sys, bypass: bool, tx: Tx, token: InviteId, rawEmail: string, readAt: Time) returns (r: Sys)
    requires s.clock <= readAt && tx !in s.signups && !LockedByAny(s.signups, token)
    ensures r == Next(Next(s, bypass, Action(readAt, Begin(tx, token, rawEmail))), bypass, Action(readAt, Lock(tx)))
    ensures var refused := Refused(s.t, token, Lower(rawEmail), readAt);
      r == s.(clock := readAt, signups := s.signups[tx := Signup(token, Lower(rawEmail),
        if refused.Some? then Done(Denied(refused.value)) else Holding)])
  {
    var one := Next(s, bypass, Action(readAt, Begin(tx, token, rawEmail)));
    assert !LockedByAny(one.signups, token);
    r := Next(one, bypass, Action(readAt, Lock(tx)));
    var refused := Refused(s.t, token, Lower(rawEmail), readAt);
    assert r.signups == s.signups[tx := Signup(token, Lower(rawEmail),
      if refused.Some? then Done(Denied(refused.value)) else Holding)];
  }

  /** An ended signup takes no more steps. */
  lemma EndedStays(
      s: Sys, bypass: bool, tx: Tx, readAt: Time, writtenAt: Time, reply: Reply, commit: CommitReply, deleteWorks: bool)
    requires tx in s.signups && s.signups[tx].pc.Done?
    ensures Next(s, bypass, Action(readAt, Register(tx, reply))) == s
    ensures Next(s, bypass, Action(writtenAt, Commit(tx, commit))) == s
    ensures Next(s, bypass, Action(writtenAt, Undo(tx, deleteWorks))) == s
  {
  }

  lemma HeldAccepts(
      s: Sys, bypass: bool, tx: Tx, readAt: Time, writtenAt: Time, reply: Reply, commit: CommitReply, deleteWorks: bool)
    requires s.clock == readAt <= writtenAt && tx in s.signups && s.signups[tx].pc.Holding?
    requires s.signups[tx].token < |s.t.invites| && NewUser(s, s.signups[tx].email, reply)
    ensures var b := s.signups[tx];
      var r := Next(Next(Next(s, bypass, Action(readAt, Register(tx, reply))),
                         bypass, Action(writtenAt, Commit(tx, commit))),
                    bypass, Action(writtenAt, Undo(tx, deleteWorks)));
      var (t, outcome) := Granted(s.t, bypass, b.token, b.email, writtenAt, reply, commit, deleteWorks);
      r.t == t && tx in r.signups && r.signups[tx].pc == Done(outcome)
  {
    var b := s.signups[tx];
    var signed := Next(s, bypass, Action(readAt, Register(tx, reply)));
    assert signed == AfterRegister(s.(clock := readAt), bypass, tx, reply);
    if signed.signups[tx].pc.Done? {
      EndedStays(signed, bypass, tx, readAt, writtenAt, reply, commit, deleteWorks);
    } else {
      SignedAccepts(signed, bypass, tx, writtenAt, commit, deleteWorks);
    }
  }

  lemma SignedAccepts(s: Sys, bypass: bool, tx: Tx, writtenAt: Time, commit: CommitReply, deleteWorks: bool)
    requires s.clock <= writtenAt && tx in s.signups && s.signups[tx].pc.Signed? && s.signups[tx].token < |s.t.invites|
    ensures var b := s.signups[tx];
      var r := Next(Next(s, bypass, Action(writtenAt, Commit(tx, commit))),
                    bypass, Action(writtenAt, Undo(tx, deleteWorks)));
      var (t, outcome) := Settled(s.t, b.token, b.email, b.pc.user, writtenAt, commit, deleteWorks);
      r.t == t && tx in r.signups && r.signups[tx].pc == Done(outcome)
  {
  }
}

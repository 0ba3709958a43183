/** What issuing, revoking and accepting an invite answer and write, in full. */
module InviteOutcomes {
  import opened Domain
  import opened Invites

  /** Used; else withdrawn; else out of time from expires_at on; else good. */
  lemma StatusMeans(invite: Invite, now: Time)
    ensures StatusOf(invite, now) == Redeemed <==> invite.redeemedAt.Some?
    ensures StatusOf(invite, now) == Revoked <==> invite.redeemedAt.None? && invite.revokedAt.Some?
    ensures StatusOf(invite, now) == Expired
      <==> invite.redeemedAt.None? && invite.revokedAt.None? && invite.expiresAt <= now
    ensures StatusOf(invite, now) == Pending
      <==> invite.redeemedAt.None? && invite.revokedAt.None? && now < invite.expiresAt
  {
  }

  predicate SameLetter(raw: char, lower: char) {
    if 'A' <= raw <= 'Z' then lower as int == raw as int + 32 else lower == raw
  }

  /** Emails are compared without regard to case. */
  lemma LowerMeans(s: string)
    ensures |Lower(s)| == |s| && forall i :: 0 <= i < |s| ==> SameLetter(s[i], Lower(s)[i])
    ensures Lower(Lower(s)) == Lower(s)
  {
  }

  /** A new invite is good until it expires, for its agency, role and, if it is locked, email. */
  lemma IssueWrites(t: Tables, agency: nat, role: InviteRole, email: Option<string>, expiresAt: Time, now: Time)
    requires now < expiresAt
    ensures var lock := if email.Some? then Some(Lower(email.value)) else None;
      var r := Issued(t, agency, role, email, expiresAt);
      && r == t.(invites := t.invites + [Invite(agency, role, lock, expiresAt, None, None, None)])
      && StatusOf(r.invites[|t.invites|], now) == Pending
  {
  }

  // ------------------------------------------------------------ revoking

  /** Unknown to the agency: 404. Redeemed: 409. Otherwise the invite is revoked, from the first time it
    * is asked for, and nothing else changes. */
  lemma RevokeWrites(t: Tables, agency: nat, invite: InviteId, now: Time)
    ensures var (r, refusal) := RevokeInvite(t, agency, invite, now);
      if invite >= |t.invites| || t.invites[invite].agency != agency then r == t && refusal == Some(InviteNotFound)
      else if t.invites[invite].redeemedAt.Some? then r == t && refusal == Some(AlreadyRedeemed)
      else
        && refusal == None
        && var row := t.invites[invite];
           r == t.(invites := t.invites[invite := row.(
             revokedAt := if row.revokedAt.Some? then row.revokedAt else Some(now))])
  {
    if invite < |t.invites| {
      var row := t.invites[invite];
      assert t.invites[invite := row] == t.invites;
    }
  }

  /** From then on it reads REVOKED. */
  lemma RevokedReadsRevoked(t: Tables, agency: nat, invite: InviteId, now: Time, later: Time)
    requires RevokeInvite(t, agency, invite, now).1 == None
    ensures var r := RevokeInvite(t, agency, invite, now).0;
      invite < |r.invites| && StatusOf(r.invites[invite], later) == Revoked
  {
    RevokeWrites(t, agency, invite, now);
  }

  /** And in every interleaving nobody joins by it any more: whatever signups were under way and
    * whatever happens next, it stays REVOKED, no member came by it, and no signup with its token was or
    * is ever told that it joined. */
  lemma RevokedTokenNeverJoins(
      s: Sys, bypass: bool, agency: nat, invite: InviteId, now: Time, actions: seq<Action>)
    requires SignupInv(s) && Enabled(s, Action(now, Revoke(agency, invite)))
    requires RevokeInvite(s.t, agency, invite, now).1 == None
    ensures var r := Exec(Next(s, bypass, Action(now, Revoke(agency, invite))), bypass, actions);
      && invite < |r.t.invites| && StatusOf(r.t.invites[invite], r.clock) == Revoked
      && (forall m :: 0 <= m < |r.t.members| ==> r.t.members[m].invite != Some(invite))
      && (forall tx :: tx in r.signups && r.signups[tx].token == invite && r.signups[tx].pc.Done? ==>
            !r.signups[tx].pc.outcome.Joined?)
  {
    var a := Action(now, Revoke(agency, invite));
    var s1 := Next(s, bypass, a);
    var r := Exec(s1, bypass, actions);
    RevokedReadsRevoked(s.t, agency, invite, now, now);
    StepKeeps(s, bypass, a);
    StatusStaysForGood(s1, bypass, actions, invite);
    RunKeeps(s1, bypass, actions);
    NobodyCameBy(r, invite);
  }

  lemma NobodyCameBy(s: Sys, invite: InviteId)
    requires SignupInv(s) && invite < |s.t.invites| && s.t.invites[invite].redeemedAt.None?
    ensures forall m :: 0 <= m < |s.t.members| ==> s.t.members[m].invite != Some(invite)
    ensures forall tx :: tx in s.signups && s.signups[tx].token == invite && s.signups[tx].pc.Done? ==>
      !s.signups[tx].pc.outcome.Joined?
  {
    assert InviteSound(s.t, invite);
    forall m | 0 <= m < |s.t.members| ensures s.t.members[m].invite != Some(invite) {
      assert MemberSound(s.t, m);
    }
  }

  // ------------------------------------------------------------ accepting

  /** What an accept answers: the token first, then its state, then the email it is locked to, then the
    * user store unless it is bypassed, then the commit. */
  lemma AcceptAnswers(
      t: Tables, bypass: bool, token: InviteId, rawEmail: string, readAt: Time, writtenAt: Time,
      reply: Reply, commit: CommitReply, deleteWorks: bool)
    ensures var answer := Accept(t, bypass, token, rawEmail, readAt, writtenAt, reply, commit, deleteWorks).1;
      answer ==
        if token >= |t.invites| then Denied(NotFound)
        else if t.invites[token].redeemedAt.Some? then Denied(Gone(Redeemed))
        else if t.invites[token].revokedAt.Some? then Denied(Gone(Revoked))
        else if t.invites[token].expiresAt <= readAt then Denied(Gone(Expired))
        else if t.invites[token].email.Some? && t.invites[token].email.value != Lower(rawEmail) then Denied(WrongEmail)
        else if !bypass && reply.Taken? then Denied(EmailTaken)
        else if !bypass && reply.NoAnswer? then Denied(Unavailable)
        else if commit != Applied then Denied(CommitFailed)
        else Joined(|t.members|)
  {
  }

  /** All a signup that joins writes: one member of the invite's agency and role, with the email given and
    * the user made for it, if any; the invite used; one agent.joined. */
  lemma JoinWrites(
      t: Tables, bypass: bool, token: InviteId, rawEmail: string, readAt: Time, writtenAt: Time,
      reply: Reply, commit: CommitReply, deleteWorks: bool)
    ensures var (r, answer) := Accept(t, bypass, token, rawEmail, readAt, writtenAt, reply, commit, deleteWorks);
      answer.Joined? ==>
        && token < |t.invites| && (!bypass ==> reply.Made?)
        && var (row, m, email) := (t.invites[token], |t.members|, Lower(rawEmail));
           var user := if bypass then None else Some(reply.user);
           r == Tables(
             t.invites[token := row.(redeemedAt := Some(writtenAt), redeemedAgent := Some(m))],
             t.members + [Member(row.agency, row.role, email, user, Some(token))],
             t.joined + [AgentJoined(m, row.agency, row.role, token)],
             if bypass then t.users else t.users[reply.user := email])
  {
  }

  /** And all a denied one leaves: nothing, if it was denied before anything was made; a user behind a reply
    * that never came; after a commit reported failed, whatever the commit did, and the user unless there is
    * none or it was deleted. */
  lemma DenialWrites(
      t: Tables, bypass: bool, token: InviteId, rawEmail: string, readAt: Time, writtenAt: Time,
      reply: Reply, commit: CommitReply, deleteWorks: bool)
    ensures var (r, answer) := Accept(t, bypass, token, rawEmail, readAt, writtenAt, reply, commit, deleteWorks);
      answer.Denied? ==>
        match answer.why
        case Unavailable =>
          !bypass && reply.NoAnswer?
          && r == if reply.made.Some? then t.(users := t.users[reply.made.value := Lower(rawEmail)]) else t
        case CommitFailed =>
          && token < |t.invites| && commit != Applied && (!bypass ==> reply.Made?)
          && var (row, m, email) := (t.invites[token], |t.members|, Lower(rawEmail));
             var user := if bypass then None else Some(reply.user);
             var users := if bypass then t.users
                          else if deleteWorks then t.users[reply.user := email] - {reply.user}
                          else t.users[reply.user := email];
             r == if commit == Failed then t.(users := users)
                  else Tables(
                    t.invites[token := row.(redeemedAt := Some(writtenAt), redeemedAgent := Some(m))],
                    t.members + [Member(row.agency, row.role, email, user, Some(token))],
                    t.joined + [AgentJoined(m, row.agency, row.role, token)], users)
        case _ => r == t
  {
  }
}

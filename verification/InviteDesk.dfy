/** The invite service as it changes its rows in place (services/invite.py). Pending writes sit in
  * locals until the commit; the external store answers at once and is not rolled back. */
module InviteDesk {
  import opened Domain
  import opened Invites

  class Desk {
    var invites: seq<Invite>
    var members: seq<Member>
    var joined: seq<AgentJoined>
    var users: map<UserId, string>

    ghost function Tables(): Tables
      reads this
    {
      Invites.Tables(invites, members, joined, users)
    }

    constructor (admins: seq<Member>, others: map<UserId, string>)
      ensures Tables() == Invites.Tables([], admins, [], others)
    {
      invites, members, joined, users := [], admins, [], others;
    }

    /** create_invite; the token it returns is the new invite's number. */
    method CreateInvite(agency: nat, role: InviteRole, email: Option<string>, expiresAt: Time) returns (token: InviteId)
      modifies this
      ensures Tables() == Issued(old(Tables()), agency, role, email, expiresAt)
      ensures token == |old(invites)|
    {
      token := |invites|;
      var locked := if email.Some? then Some(Lower(email.value)) else None;
      invites := invites + [Invite(agency, role, locked, expiresAt, None, None, None)];
    }

    method RevokeInvite(agency: nat, invite: InviteId, now: Time) returns (refusal: Option<RevokeRefusal>)
      modifies this
      ensures (Tables(), refusal) == Invites.RevokeInvite(old(Tables()), agency, invite, now)
    {
      if invite >= |invites| || invites[invite].agency != agency {
        return Some(InviteNotFound);
      }
      if invites[invite].redeemedAt.Some? {
        return Some(AlreadyRedeemed);
      }
      if invites[invite].revokedAt.None? {
        invites := invites[invite := invites[invite].(revokedAt := Some(now))];
      }
      refusal := None;
    }

    /** _usable_invite and the email lock. */
    method UsableInvite(token: InviteId, email: string, now: Time) returns (denial: Option<Denial>)
      ensures denial == Refused(Tables(), token, email, now)
    {
      if token >= |invites| {
        return Some(NotFound);
      }
      var state := StatusOf(invites[token], now);
      if state != Pending {
        return Some(Gone(state));
      }
      if invites[token].email.Some? && invites[token].email.value != email {
        return Some(WrongEmail);
      }
      denial := None;
    }

    /** create_user: the store's side of the call, as its reply says. */
    method CreateUser(email: string, reply: Reply)
      modifies this`users
      ensures Tables() == Registered(old(Tables()), email, reply)
    {
      if reply.Made? {
        users := users[reply.user := email];
      } else if reply.NoAnswer? && reply.made.Some? {
        users := users[reply.made.value := email];
      }
    }

    method AcceptInvite(
        bypass: bool, token: InviteId, rawEmail: string, readAt: Time, writtenAt: Time,
        reply: Reply, commit: CommitReply, deleteWorks: bool)
      returns (outcome: Outcome)
      modifies this
      ensures (Tables(), outcome)
        == Accept(old(Tables()), bypass, token, rawEmail, readAt, writtenAt, reply, commit, deleteWorks)
    {
      var email := Lower(rawEmail);
      var denial := UsableInvite(token, email, readAt);
      if denial.Some? {
        return Denied(denial.value);
      }
      var agent := |members|;
      var person := Member(invites[token].agency, invites[token].role, email, None, Some(token));

      if !bypass {
        CreateUser(email, reply);
        match reply {
          case Taken => return Denied(EmailTaken);
          case NoAnswer(_) => return Denied(Unavailable);
          case Made(user) => person := person.(user := Some(user));
        }
      }

      if !commit.Failed? {
        members := members + [person];
        joined := joined + [AgentJoined(agent, person.agency, person.role, token)];
        invites := invites[token := invites[token].(redeemedAt := Some(writtenAt), redeemedAgent := Some(agent))];
      }
      if commit.Applied? {
        return Joined(agent);
      }
      if person.user.Some? && deleteWorks {
        users := users - {person.user.value};
      }
      outcome := Denied(CommitFailed);
    }
  }
}

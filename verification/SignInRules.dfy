/** When a callback signs in, why else it is refused, and everything that either leaves behind. */
module SignInRules {
  import opened Core
  import opened Kv
  import opened Sessions
  import opened Accounts
  import opened SignIn

  // ---- Why a callback is refused ----

  /** The callback has a code and a state and no error, and finds its flow. */
  predicate FindsFlow(d: Door, c: Callback) {
    && c.configured && c.error == "" && c.code != "" && c.state != ""
    && c.state in d.flows && (d.flows[c.state].expires.Some? ==> c.at.found < d.flows[c.state].expires.value)
  }

  /** The token verifies, for the nonce of the flow. */
  ghost predicate Verifies(d: Door, config: IdTokens.IssuerConfig, c: Callback)
    requires FindsFlow(d, c)
  {
    && c.token.Some? && c.token.value.Jwt?
    && IdTokens.Verified(c.token.value, config, None, Some(d.flows[c.state].value.nonce), c.at.verified, c.keys).Accepted?
  }

  /** The token has an id, and it is remembered. */
  predicate UsedBefore(d: Door, claims: IdTokens.Claims, now: int) {
    && claims.jti.Some? && claims.jti.value != "" && claims.jti.value in d.jtis
    && (d.jtis[claims.jti.value].expires.Some? ==> now < d.jtis[claims.jti.value].expires.value)
  }

  /** A member who is known maps to an account that is there and active; a new one is welcome. */
  predicate Welcome(db: Db, m: Member) {
    m in db.identities ==> db.identities[m] in db.users && db.users[db.identities[m]].status == "active"
  }

  /** A callback signs in if and only if it finds its flow, its token verifies for it and has not been
      used, and the member, if known, has an active account. */
  lemma SignsInIff(d: Door, config: IdTokens.IssuerConfig, c: Callback)
    ensures CalledBack(d, config, c).1.SignedIn? <==>
              && FindsFlow(d, c) && Verifies(d, config, c)
              && !UsedBefore(d, c.token.value.claims, c.at.looked)
              && Welcome(d.db, Member(c.token.value.claims.iss, c.token.value.claims.sub))
  {
    hide IdTokens.Verified;
    if Proven(d, config, c) {
      AcceptedClaims(d, config, c);
    }
  }

  /** Otherwise the reply says what was wrong first. */
  lemma RefusalsSayWhy(d: Door, config: IdTokens.IssuerConfig, c: Callback)
    ensures var reply := CalledBack(d, config, c).1;
            && (reply == NotConfigured <==> !c.configured)
            && (reply == Declined <==> c.configured && c.error != "")
            && (reply == MissingParameters <==> c.configured && c.error == "" && (c.code == "" || c.state == ""))
            && (reply == NoFlow <==>
                  c.configured && c.error == "" && c.code != "" && c.state != "" && !FindsFlow(d, c))
            && (reply == NoToken <==> FindsFlow(d, c) && c.token.None?)
            && (reply == BadToken <==> FindsFlow(d, c) && c.token.Some? && !Verifies(d, config, c))
            && (reply == Replayed <==>
                  FindsFlow(d, c) && Verifies(d, config, c) && UsedBefore(d, c.token.value.claims, c.at.looked))
  {
    hide IdTokens.Verified, Mapped;
    if Proven(d, config, c) {
      AcceptedClaims(d, config, c);
    }
    if c.token == Some(IdTokens.Unreadable) && Opens(d, c) {
      UnreadableIsRefused(d, config, c);
    }
  }

  lemma UnreadableIsRefused(d: Door, config: IdTokens.IssuerConfig, c: Callback)
    requires c.token == Some(IdTokens.Unreadable) && Opens(d, c)
    ensures TokenVerdict(d, config, c).Refused?
  {
  }

  // ---- What a callback leaves ----

  /** How long a token's id is remembered: a minute beyond the token's expiry, and a minute at least. */
  function RememberedUntil(exp: int, stored: int): int {
    if exp > stored then exp + 60 else stored + 60
  }

  function JtisWith(d: Door, claims: IdTokens.Claims, stored: int): Table<string, bool>
    requires claims.exp.Some?
  {
    if claims.jti.Some? && claims.jti.value != ""
    then d.jtis[claims.jti.value := Timed(true, Some(RememberedUntil(claims.exp.value, stored)))]
    else d.jtis
  }

  /** The user the member is, or becomes. */
  function UserFor(db: Db, m: Member, newUser: UserId): UserId {
    if m in db.identities then db.identities[m] else newUser
  }

  function RoleFor(db: Db, m: Member): string {
    if m in db.identities && db.identities[m] in db.users then db.users[db.identities[m]].role else "user"
  }

  lemma MappingIs(db: Db, claims: IdTokens.Claims, newUser: UserId)
    requires Mapped(db, claims, newUser).1.Known?
    ensures var m := Member(claims.iss, claims.sub); var user, role := UserFor(db, m, newUser), RoleFor(db, m);
            && Mapped(db, claims, newUser).1 == Known(user, role)
            && Mapped(db, claims, newUser).0
               == db.(users := db.users[user := Account(if claims.email.Some? then claims.email.value else "", role, "active")],
                      identities := db.identities[m := user],
                      audit := db.audit
                        + if m in db.identities then []
                          else [AuditRow(Some(user), None, "user.provisioned", map["provider" := "budgetapp"], None)])
  {
    assert db.audit + [] == db.audit;
  }

  /** A sign-in uses up the flow and remembers the token's id; creates one session, of the user the
      member is or becomes, with the token's authentication methods and time, for a day; and sends the
      browser where the flow wanted to go, or else to the user's home. */
  lemma SignInOpens(d: Door, config: IdTokens.IssuerConfig, c: Callback)
    requires CalledBack(d, config, c).1.SignedIn?
    ensures FindsFlow(d, c) && c.token.Some? && c.token.value.Jwt?
    ensures var claims, flow, (d', reply) := c.token.value.claims, d.flows[c.state].value, CalledBack(d, config, c);
            var m := Member(claims.iss, claims.sub);
            var user, role := UserFor(d.db, m, c.newUser), RoleFor(d.db, m);
            && claims.exp.Some? && claims.iat.Some?
            && reply == SignedIn(user, role, if flow.next.Some? then flow.next.value
                                             else if role == "admin" then "/admin" else "/dashboard")
            && d'.flows == d.flows - {c.state} && d'.jtis == JtisWith(d, claims, c.at.stored)
            && d'.kv.sessions == d.kv.sessions[c.newToken :=
                 Timed(Stored(user, role, Some(claims.amr),
                              Some(if claims.authTime.Some? then claims.authTime.value else claims.iat.value)),
                       Some(c.at.created + 86400))]
            && var listed := if Live(d.kv.index, user, c.at.created) then d.kv.index[user].value else [];
               d'.kv.index == d.kv.index[user := Timed(listed + [c.newToken], Some(c.at.created + 90000))]
  {
    hide IdTokens.Verified, Mapped, UserFor, RoleFor;
    AcceptedClaims(d, config, c);
    MappingIs(d.db, c.token.value.claims, c.newUser);
  }

  /** In the database a sign-in gives the account the token's email and nothing else new, makes a plain
      active account of a new member, and puts a login on the trail, after a provisioning if there was
      one. */
  lemma SignInRecords(d: Door, config: IdTokens.IssuerConfig, c: Callback)
    requires CalledBack(d, config, c).1.SignedIn?
    ensures c.token.Some? && c.token.value.Jwt?
    ensures var claims := c.token.value.claims;
            var m := Member(claims.iss, claims.sub);
            var user, role := UserFor(d.db, m, c.newUser), RoleFor(d.db, m);
            var email := if claims.email.Some? then claims.email.value else "";
            CalledBack(d, config, c).0.db
            == d.db.(users := d.db.users[user := Account(email, role, "active")], identities := d.db.identities[m := user],
                     audit := d.db.audit
                       + (if m in d.db.identities then []
                          else [AuditRow(Some(user), None, "user.provisioned", map["provider" := "budgetapp"], None)])
                       + [AuditRow(Some(user), None, "user.login", map["provider" := "budgetapp"], c.ip)])
  {
    hide IdTokens.Verified, Mapped, UserFor, RoleFor;
    AcceptedClaims(d, config, c);
    MappingIs(d.db, c.token.value.claims, c.newUser);
  }

  /** A refusal creates no session and writes nothing to the trail. It uses up the flow it found; if it
      comes before the account is looked at, that is all, and else the token's id is remembered and
      an inactive account gets the token's email. */
  lemma RefusalLeaves(d: Door, config: IdTokens.IssuerConfig, c: Callback)
    requires !CalledBack(d, config, c).1.SignedIn?
    ensures var (d', reply) := CalledBack(d, config, c);
            && d'.kv == d.kv && d'.flows == (if FindsFlow(d, c) then d.flows - {c.state} else d.flows)
            && if !reply.NoAccount? && !reply.NotActive? then d'.jtis == d.jtis && d'.db == d.db
               else
                 && c.token.Some? && c.token.value.Jwt? && c.token.value.claims.exp.Some?
                 && var claims := c.token.value.claims;
                    var m := Member(claims.iss, claims.sub);
                    && m in d.db.identities && d'.jtis == JtisWith(d, claims, c.at.stored)
                    && (reply.NoAccount? <==> d.db.identities[m] !in d.db.users)
                    && d'.db == if reply.NoAccount? then d.db else
                         d.db.(users := d.db.users[d.db.identities[m] := d.db.users[d.db.identities[m]].(
                                 email := if claims.email.Some? then claims.email.value else "")])
  {
    hide IdTokens.Verified;
    if Proven(d, config, c) {
      AcceptedClaims(d, config, c);
    }
  }

  // ---- How long a flow is open ----

  /** The callback comes for the flow while it is open, and uses it up whatever becomes of it. */
  predicate Consumes(e: DoorEvent, state: string, started: int) {
    && e.Finish? && e.c.state == state && e.c.configured && e.c.error == "" && e.c.code != "" && state != ""
    && e.c.at.found < started + 600
  }

  lemma NextFlow(d: Door, config: IdTokens.IssuerConfig, e: DoorEvent, state: string, started: int)
    requires !(e.StartFlow? && e.state == state)
    requires state in d.flows ==> d.flows[state].expires == Some(started + 600)
    ensures var flows' := Next(d, config, e).flows;
            && (state in flows' <==> state in d.flows && !Consumes(e, state, started))
            && (state in flows' ==> flows'[state] == d.flows[state])
  {
    hide CalledBack;
    if e.Finish? {
      FlowsShrink(d, config, e.c);
    }
  }

  /** A started flow is open for ten minutes, to the first callback that comes for it and to no other;
      it carries the nonce it was started with, and the `next` if that starts with a slash. */
  lemma {:induction false} FlowIsOpenIff(d: Door, config: IdTokens.IssuerConfig, es: seq<DoorEvent>, i: nat, now: int)
    requires i < |es| && es[i].StartFlow?
    requires forall j :: i < j < |es| && es[j].StartFlow? ==> es[j].state != es[i].state
    ensures var flows, s := DoorAfter(d, config, es).flows, es[i];
            && (Live(flows, s.state, now) <==>
                  now < s.now + 600 && forall j :: i < j < |es| ==> !Consumes(es[j], s.state, s.now))
            && (s.state in flows ==>
                  && flows[s.state].expires == Some(s.now + 600)
                  && flows[s.state].value.nonce == s.nonce
                  && flows[s.state].value.next
                     == if s.next.Some? && |s.next.value| > 0 && s.next.value[0] == '/' then s.next else None)
            && (s.state in flows <==> forall j :: i < j < |es| ==> !Consumes(es[j], s.state, s.now))
  {
    hide Next, Consumes;
    var n := |es| - 1;
    if i == n {
      StartedFlow(DoorAfter(d, config, es[..n]), config, es[n]);
    } else {
      FlowIsOpenIff(d, config, es[..n], i, now);
      assert es[..n][i] == es[i];
      NextFlow(DoorAfter(d, config, es[..n]), config, es[n], es[i].state, es[i].now);
      assert forall j :: i < j < n ==> es[..n][j] == es[j];
    }
  }

  lemma StartedFlow(d: Door, config: IdTokens.IssuerConfig, e: DoorEvent)
    requires e.StartFlow?
    ensures var flows := Next(d, config, e).flows;
            && e.state in flows && flows[e.state].expires == Some(e.now + 600) && flows[e.state].value.nonce == e.nonce
            && flows[e.state].value.next
               == if e.next.Some? && |e.next.value| > 0 && e.next.value[0] == '/' then e.next else None
  {
  }

  /** And no flow is open that was not started. */
  lemma {:induction false} NotStartedIsNotOpen(config: IdTokens.IssuerConfig, es: seq<DoorEvent>, state: string)
    requires forall j :: 0 <= j < |es| && es[j].StartFlow? ==> es[j].state != state
    ensures state !in DoorAfter(CLOSED, config, es).flows
  {
    hide CalledBack;
    if es != [] {
      var n := |es| - 1;
      NotStartedIsNotOpen(config, es[..n], state);
      if es[n].Finish? {
        FlowsShrink(DoorAfter(CLOSED, config, es[..n]), config, es[n].c);
      }
    }
  }
}

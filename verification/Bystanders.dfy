/** What may go on while a deletion is delivered and delivered again: each operation here, by or on
    someone else, is of the kind that IdentityEvents allows for in between. */
module Bystanders {
  import opened Core
  import opened Sessions
  import opened Accounts
  import opened IdentityEvents
  import opened SignIn

  /** The user is no other member's. */
  predicate Whose(db: Db, m: Member, user: UserId) {
    forall m' :: m' in db.identities && db.identities[m'] == user ==> m' == m
  }

  lemma SameAudit(rows: seq<AuditRow>, more: seq<AuditRow>)
    ensures AuditKept(rows, rows + more)
  {
  }

  /** Sessions: somebody else's creation, with a fresh token; any sign-out; any revocation. */
  lemma SessionsMeanwhile(w: Site, op: SessionOp, m: Member, user: UserId, now: int)
    requires Healthy(w, now) && (op.Create? ==> op.session.userId != user && Unused(w.kv, op.token))
    ensures Meanwhile(w, w.(kv := Performed(w.kv, At(now, op))), m, user, now)
  {
    hide Revocable, Covered, Own;
    match op {
      case Create(session, token) => CreateKeeps(w.kv, session, token, now);
      case Destroy(token) => DestroyKeeps(w.kv, token, now);
      case DestroyAll(other) => DestroyAllKeeps(w.kv, other, now);
    }
    SameAudit(w.db.audit, []);
    assert w.db.audit + [] == w.db.audit;
  }

  /** An audit row about users that are there, the member's own acts included. */
  lemma LoggingMeanwhile(w: Site, row: AuditRow, m: Member, user: UserId, now: int)
    requires Healthy(w, now)
    requires (row.actor.Some? ==> row.actor.value in w.db.users) && (row.target.Some? ==> row.target.value in w.db.users)
    ensures Meanwhile(w, w.(db := Logged(w.db, row)), m, user, now)
  {
    hide Revocable;
  }

  /** A member's broker token or signal action, stored for a user that is there. */
  lemma RowsMeanwhile(w: Site, token: nat, action: nat, owner: UserId, m: Member, user: UserId, now: int)
    requires Healthy(w, now) && owner in w.db.users
    ensures Meanwhile(w, w.(db := w.db.(brokerTokens := w.db.brokerTokens[token := owner])), m, user, now)
    ensures Meanwhile(w, w.(db := w.db.(actions := w.db.actions[action := owner])), m, user, now)
  {
    hide Revocable;
    SameAudit(w.db.audit, []);
    assert w.db.audit + [] == w.db.audit;
  }

  lemma ErasureOfOther(db: Db, other: UserId, m: Member, user: UserId)
    requires Integrity(db) && other != user && (m in db.identities ==> db.identities[m] != other)
    ensures var db' := ErasedFrom(db, other);
            && Integrity(db') && AuditKept(db.audit, db'.audit)
            && (m in db'.identities <==> m in db.identities) && (m in db.identities ==> db'.identities[m] == db.identities[m])
            && (user in db'.users ==> user in db.users)
            && forall i :: 0 <= i < |db.audit| && Refers(db.audit[i], user) ==> Refers(db'.audit[i], user)
  {
  }

  lemma LoggedAlso(db: Db, db': Db, row: AuditRow, user: UserId)
    requires AuditKept(db.audit, db'.audit) && Integrity(db') && row.actor.None? && row.target.None?
    requires forall i :: 0 <= i < |db.audit| && Refers(db.audit[i], user) ==> Refers(db'.audit[i], user)
    ensures var db'' := Logged(db', row);
            && AuditKept(db.audit, db''.audit) && Integrity(db'')
            && forall i :: 0 <= i < |db.audit| && Refers(db.audit[i], user) ==> Refers(db''.audit[i], user)
  {
  }

  /** Another member's events, erasure included, dying anywhere. */
  lemma OthersEventMeanwhile(w: Site, e: IdentityEvent, stop: Stop, m: Member, user: UserId, now: int)
    requires Healthy(w, now) && e.member != m && Whose(w.db, m, user)
    requires e.member in w.db.identities && m in w.db.identities ==> w.db.identities[m] != w.db.identities[e.member]
    ensures Meanwhile(w, Delivered(w, e, now, stop), m, user, now)
  {
    hide Revocable, Covered, Own, Integrity, AuditKept, ErasedFrom, PartlyDestroyed, DestroyedAll;
    SameAudit(w.db.audit, []);
    assert w.db.audit + [] == w.db.audit;
    DeliveryKeepsHealth(w, e, now, stop);
    if e.member in w.db.identities {
      var other := w.db.identities[e.member];
      SessionsOnlyGo(w.kv, other, user, now, if stop.DuringSessions? then stop.done else {});
      ErasureOfOther(w.db, other, m, user);
      LoggedAlso(w.db, ErasedFrom(w.db, other), ErasedRow(e), user);
      LoggedAlso(w.db, w.db, EndedRow(e, other), user);
    }
  }

  lemma SessionsOnlyGo(kv: SessionState, other: UserId, user: UserId, now: int, done: set<Token>)
    ensures NoNewSessions(kv, DestroyedAll(kv, other, now), user)
    ensures NoNewSessions(kv, PartlyDestroyed(kv, other, now, done), user)
    ensures NoNewSessions(kv, kv, user)
  {
  }

  // ---- Another member signs in ----

  lemma MappingOther(db: Db, claims: IdTokens.Claims, newUser: UserId, m: Member, user: UserId)
    requires SoundAccounts(db) && newUser !in db.users && newUser != user && Whose(db, m, user) && MemberOf(claims) != m
    ensures var (db', found) := Mapped(db, claims, newUser);
            && Integrity(db') && AuditKept(db.audit, db'.audit)
            && (m in db'.identities <==> m in db.identities) && (m in db.identities ==> db'.identities[m] == db.identities[m])
            && (user in db'.users ==> user in db.users)
            && (forall i :: 0 <= i < |db.audit| && Refers(db.audit[i], user) ==> Refers(db'.audit[i], user))
            && (found.Known? ==> found.user != user && found.user in db'.users)
  {
    hide SoundAccounts;
    MappedKeeps(db, claims, newUser);
    SoundHasIntegrity(db);
    SoundHasIntegrity(Mapped(db, claims, newUser).0);
    SameAudit(db.audit, []);
    assert db.audit + [] == db.audit;
  }

  lemma SoundHasIntegrity(db: Db)
    requires SoundAccounts(db)
    ensures Integrity(db)
  {
  }

  lemma LoginAlso(db: Db, db': Db, user: UserId, other: UserId, ip: Option<string>)
    requires AuditKept(db.audit, db'.audit) && Integrity(db') && other in db'.users
    requires forall i :: 0 <= i < |db.audit| && Refers(db.audit[i], user) ==> Refers(db'.audit[i], user)
    ensures var db'' := db'.(audit := db'.audit + [LoginRow(other, ip)]);
            && AuditKept(db.audit, db''.audit) && Integrity(db'')
            && forall i :: 0 <= i < |db.audit| && Refers(db.audit[i], user) ==> Refers(db''.audit[i], user)
  {
  }

  /** What a callback leaves in the session store: what was there, or that and one new session, of the
      mapped user. */
  lemma CallbackSessions(d: Door, config: IdTokens.IssuerConfig, c: Callback)
    ensures var (d', reply) := CalledBack(d, config, c);
            if reply.SignedIn? then
              && c.token.Some? && c.token.value.Jwt? && ClaimsOf(c).iat.Some?
              && Mapped(d.db, ClaimsOf(c), c.newUser).1 == Known(reply.user, reply.role)
              && d'.kv == Created(d.kv, SessionOf(ClaimsOf(c), reply.user, reply.role), c.newToken, c.at.created)
            else d'.kv == d.kv
  {
    hide Mapped, IdTokens.Verified, Created;
    if Proven(d, config, c) {
      AcceptedClaims(d, config, c);
    }
  }

  lemma CallbackDb(d: Door, config: IdTokens.IssuerConfig, c: Callback, m: Member, user: UserId)
    requires SoundAccounts(d.db) && c.newUser !in d.db.users && c.newUser != user && Whose(d.db, m, user)
    requires c.token.Some? && c.token.value.Jwt? ==> MemberOf(ClaimsOf(c)) != m
    ensures var db, db' := d.db, CalledBack(d, config, c).0.db;
            && Integrity(db') && AuditKept(db.audit, db'.audit)
            && (m in db'.identities <==> m in db.identities) && (m in db.identities ==> db'.identities[m] == db.identities[m])
            && (user in db'.users ==> user in db.users)
            && forall i :: 0 <= i < |db.audit| && Refers(db.audit[i], user) ==> Refers(db'.audit[i], user)
  {
    hide Mapped, CalledBack, SoundAccounts, Integrity, AuditKept;
    SoundHasIntegrity(d.db);
    SameAudit(d.db.audit, []);
    assert d.db.audit + [] == d.db.audit;
    CallbackMaps(d, config, c);
    if c.token.Some? && c.token.value.Jwt? {
      MappingOther(d.db, ClaimsOf(c), c.newUser, m, user);
      var (db, found) := Mapped(d.db, ClaimsOf(c), c.newUser);
      if found.Known? {
        LoginAlso(d.db, db, user, found.user, c.ip);
      }
    }
  }

  lemma CallbackNewSessions(d: Door, config: IdTokens.IssuerConfig, c: Callback, m: Member, user: UserId)
    requires SoundAccounts(d.db) && c.newUser !in d.db.users && c.newUser != user && Whose(d.db, m, user)
    requires c.token.Some? && c.token.value.Jwt? ==> MemberOf(ClaimsOf(c)) != m
    requires Revocable(d.kv, c.at.created) && Unused(d.kv, c.newToken)
    ensures Revocable(CalledBack(d, config, c).0.kv, c.at.created)
    ensures NoNewSessions(d.kv, CalledBack(d, config, c).0.kv, user)
  {
    hide Mapped, CalledBack, SoundAccounts, Revocable;
    CallbackSessions(d, config, c);
    var reply := CalledBack(d, config, c).1;
    if reply.SignedIn? {
      MappingOther(d.db, ClaimsOf(c), c.newUser, m, user);
      CreateKeeps(d.kv, SessionOf(ClaimsOf(c), reply.user, reply.role), c.newToken, c.at.created);
    }
  }

  /** Another member's whole callback, provisioning included, however it ends. */
  lemma OthersSignInMeanwhile(d: Door, config: IdTokens.IssuerConfig, c: Callback, m: Member, user: UserId)
    requires SoundAccounts(d.db) && c.newUser !in d.db.users && c.newUser != user && Whose(d.db, m, user)
    requires c.token.Some? && c.token.value.Jwt? ==> MemberOf(ClaimsOf(c)) != m
    requires Revocable(d.kv, c.at.created) && Unused(d.kv, c.newToken)
    ensures var d' := CalledBack(d, config, c).0;
            Meanwhile(Site(d.db, d.kv), Site(d'.db, d'.kv), m, user, c.at.created)
  {
    hide CalledBack, SoundAccounts, Revocable, Unused, AuditKept, Integrity;
    CallbackDb(d, config, c, m, user);
    CallbackNewSessions(d, config, c, m, user);
  }
}

/** What one delivery of an identity event does, whatever its kind: whose sessions end, which rows
    go, what is written down, and that nobody else is touched. */
module EventEffects {
  import opened Core
  import opened Kv
  import opened Sessions
  import opened Accounts
  import opened IdentityEvents

  // ---- Sessions ----

  /** The user has no session that can be read, now or later. */
  ghost predicate SignedOut(kv: SessionState, user: UserId, now: int) {
    forall token, later :: now <= later && Live(kv.sessions, token, later) ==> kv.sessions[token].value.userId != user
  }

  /** No session is new, and everybody else's sessions and index entries are as they were. */
  ghost predicate OthersKeepSessions(kv: SessionState, kv': SessionState, user: UserId) {
    && (forall token :: token in kv'.sessions ==> token in kv.sessions && kv'.sessions[token] == kv.sessions[token])
    && (forall token :: token in kv.sessions && kv.sessions[token].value.userId != user ==> token in kv'.sessions)
    && (forall u :: u != user ==> (u in kv'.index <==> u in kv.index) && (u in kv.index ==> kv'.index[u] == kv.index[u]))
  }

  // ---- Rows ----

  /** Exactly the user's rows of a table are gone. */
  ghost predicate OwnRowsGo<K(!new)>(rows: map<K, UserId>, rows': map<K, UserId>, user: UserId) {
    && (forall k :: k in rows' <==> k in rows && rows[k] != user)
    && forall k :: k in rows' ==> rows'[k] == rows[k]
  }

  /** Exactly the user's row, identities, broker tokens and actions are gone. */
  ghost predicate OwnDataGoes(db: Db, db': Db, user: UserId) {
    && (forall u :: u in db'.users <==> u in db.users && u != user)
    && (forall u :: u in db'.users ==> db'.users[u] == db.users[u])
    && OwnRowsGo(db.identities, db'.identities, user) && OwnRowsGo(db.brokerTokens, db'.brokerTokens, user)
    && OwnRowsGo(db.actions, db'.actions, user)
  }

  /** An audit row of somebody else is as it was; one that points at the user keeps what it says and
      its other pointer, and has lost its pointer to the user and the address. */
  ghost predicate AnonymisedFor(r: AuditRow, r': AuditRow, user: UserId) {
    && r'.action == r.action && r'.detail == r.detail && !Refers(r', user)
    && (r.actor != Some(user) ==> r'.actor == r.actor) && (r.target != Some(user) ==> r'.target == r.target)
    && r'.ip == if r.actor == Some(user) || r.target == Some(user) then None else r.ip
  }

  ghost predicate TrailAnonymised(rows: seq<AuditRow>, rows': seq<AuditRow>, user: UserId) {
    |rows'| == |rows| && forall i :: 0 <= i < |rows| ==> AnonymisedFor(rows[i], rows'[i], user)
  }

  // ---- Deliveries that answer ----

  /** Once a delivery to a linked member answers, whatever the event, the member has no session left,
      and everybody else's are as they were. */
  lemma AnsweredEventSignsOut(w: Site, e: IdentityEvent, user: UserId, now: int, stop: Stop)
    requires Healthy(w, now) && Linked(w, e.member, user) && Answered(w, e, stop).Some?
    ensures var w' := Delivered(w, e, now, stop);
            SignedOut(w'.kv, user, now) && user !in w'.kv.index && OthersKeepSessions(w.kv, w'.kv, user)
  {
    hide Integrity, Revocable;
    DestroyAllIsExact(w.kv, user, now);
  }

  /** A suspension or a revocation that answers has ended the sessions and written one row that says
      so, and has changed nothing else. */
  lemma AnsweredSuspensionMeans(w: Site, e: IdentityEvent, user: UserId, now: int, stop: Stop)
    requires Linked(w, e.member, user) && !e.kind.UserDeleted? && Answered(w, e, stop).Some?
    ensures Answered(w, e, stop) == Some(SessionsEnded)
    ensures Delivered(w, e, now, stop).db
            == w.db.(audit := w.db.audit + [AuditRow(None, None, "user.sessions_ended",
                 map["source" := "budgetapp", "user_id" := user,
                     "event" := if e.kind.UserSuspended? then "user.suspended" else "user.sessions_revoked"], None)])
  {
    assert EndedRow(e, user).detail
        == map["source" := "budgetapp", "user_id" := user,
               "event" := if e.kind.UserSuspended? then "user.suspended" else "user.sessions_revoked"];
  }

  /** A deletion that answers has taken exactly the member's rows, made the audit trail anonymous, and
      written one row that names nobody but the provider's id of the event. */
  lemma AnsweredDeletionMeans(w: Site, e: IdentityEvent, user: UserId, now: int, stop: Stop)
    requires Linked(w, e.member, user) && e.kind.UserDeleted? && Answered(w, e, stop).Some?
    ensures var db' := Delivered(w, e, now, stop).db;
            && Answered(w, e, stop) == Some(Erased) && OwnDataGoes(w.db, db', user) && |db'.audit| == |w.db.audit| + 1
            && TrailAnonymised(w.db.audit, db'.audit[..|w.db.audit|], user)
            && db'.audit[|w.db.audit|]
               == AuditRow(None, None, "user.erased",
                    map["source" := "budgetapp", "event" := "user.deleted",
                        "jti" := if e.jti.Some? then e.jti.value else ""], None)
  {
    ErasureIsExact(w.db, user);
    var rows := ErasedFrom(w.db, user).audit;
    assert (rows + [ErasedRow(e)])[..|w.db.audit|] == rows;
  }

  /** The erasing transaction takes the user's rows and no others. */
  lemma ErasureIsExact(db: Db, user: UserId)
    ensures OwnDataGoes(db, ErasedFrom(db, user), user) && TrailAnonymised(db.audit, ErasedFrom(db, user).audit, user)
  {
    WithoutIsExact(db.identities, user);
    WithoutIsExact(db.brokerTokens, user);
    WithoutIsExact(db.actions, user);
  }

  lemma WithoutIsExact<K(!new)>(rows: map<K, UserId>, user: UserId)
    ensures OwnRowsGo(rows, Accounts.Without(rows, user), user)
  {
  }

  // ---- Deliveries that die ----

  /** Wherever a delivery dies, it has touched nobody else: their sessions and rows are as they were,
      and of the audit trail only what points at the member may have changed. Before the erasing
      transaction the database has not changed at all; and among the member's sessions it has ended
      those it got to, and no others. */
  lemma DyingDeliverySparesOthers(w: Site, e: IdentityEvent, user: UserId, now: int, stop: Stop)
    requires Healthy(w, now) && Linked(w, e.member, user) && Answered(w, e, stop).None?
    ensures var w' := Delivered(w, e, now, stop);
            && OthersKeepSessions(w.kv, w'.kv, user)
            && (w'.db == w.db || (OwnDataGoes(w.db, w'.db, user) && TrailAnonymised(w.db.audit, w'.db.audit, user)))
            && (stop.DuringSessions? || stop.BeforeErase? || !e.kind.UserDeleted? ==> w'.db == w.db)
            && (!stop.DuringSessions? ==> SignedOut(w'.kv, user, now))
            && (stop.DuringSessions? ==>
                  && w'.kv.index == w.kv.index
                  && forall token :: Live(w.kv.sessions, token, now) && w.kv.sessions[token].value.userId == user ==>
                       (token in w'.kv.sessions <==> token !in stop.done))
  {
    hide Integrity, OwnDataGoes, TrailAnonymised, Covered;
    ErasureIsExact(w.db, user);
    DestroyAllIsExact(w.kv, user, now);
    if stop.DuringSessions? {
      forall token | token in w.kv.sessions && w.kv.sessions[token].value.userId != user
        ensures token in PartlyDestroyed(w.kv, user, now, stop.done).sessions
      {
        assert Own(w.kv, user, token);
      }
      forall token | Live(w.kv.sessions, token, now) && w.kv.sessions[token].value.userId == user
        ensures token in TokensOf(w.kv, user, now)
      {
        IndexIsReadable(w.kv, token, now);
      }
    }
  }

  // ---- An administrator's deletion ----

  /** It ends the user's sessions and unlinks their identities, replaces their email and marks them
      deleted, and puts who did it on the trail; all else stays, the user's own data included. */
  lemma SoftDeletionMeans(w: Site, user: UserId, actor: UserId, ip: Option<string>, now: int)
    requires Healthy(w, now) && user in w.db.users
    ensures var w' := SoftDeleted(w, user, actor, ip, now);
            && SignedOut(w'.kv, user, now) && user !in w'.kv.index && OthersKeepSessions(w.kv, w'.kv, user)
            && w'.db.users == w.db.users[user := Account("deleted_" + user + "@deleted", w.db.users[user].role, "deleted")]
            && OwnRowsGo(w.db.identities, w'.db.identities, user)
            && w'.db.brokerTokens == w.db.brokerTokens && w'.db.actions == w.db.actions
            && w'.db.audit == w.db.audit + [AuditRow(Some(actor), Some(user), "user.delete", map[], ip)]
  {
    hide Integrity, Revocable;
    DestroyAllIsExact(w.kv, user, now);
    WithoutIsExact(w.db.identities, user);
  }

  // ---- From the token to the event ----

  /** The three names of events are told apart, and the member is the token's issuer and subject. */
  lemma EventIsTheTokens(c: IdTokens.Claims, name: string)
    requires name in IdTokens.KNOWN_EVENTS
    ensures var e := EventOf(c, name);
            && e.member == Member(c.iss, c.sub) && e.jti == c.jti
            && (e.kind == UserDeleted <==> name == "user.deleted")
            && (e.kind == UserSuspended <==> name == "user.suspended")
            && (e.kind == SessionsRevoked <==> name == "user.sessions_revoked")
  {
  }

  /** How a token is answered: 503 exactly when only the keys were missing, 401 for any other refusal,
      400 for a good token with no event that is known, and otherwise its event is carried out. */
  lemma HowTokensAreReceived(t: IdTokens.Token, config: IdTokens.IssuerConfig, now: int, keys: Option<seq<IdTokens.Jwk>>)
    ensures var v, r := IdTokens.Verified(t, config, Some("identity-event"), None, now, keys), Reception(t, config, now, keys);
            if v.Refused? then r.TurnedAway? && r.status == if v.failure.JwksUnavailable? then 503 else 401
            else if v.claims.event in {Some("user.deleted"), Some("user.suspended"), Some("user.sessions_revoked")} then
              r == IdTokens.Genuine(v.claims.event.value)
            else r == IdTokens.TurnedAway(400, None)
  {
    hide IdTokens.Verified;
  }
}

/** workers/src/lib/identity-events.ts and workers/src/routes/identity-events.ts: lifecycle events
    from the identity provider, and what erasure promises when a delivery may die at any step and
    be sent again. */
module IdentityEvents {
  import opened Core
  import opened Kv
  import opened Sessions
  import opened Accounts
  import IdTokens

  datatype EventKind = UserDeleted | UserSuspended | SessionsRevoked

  /** A verified event. */
  datatype IdentityEvent = IdentityEvent(member: Member, kind: EventKind, jti: Option<string>)

  datatype Outcome = Erased | SessionsEnded | UnknownMember

  /** How far the Worker gets: it may die with some of the session deletions done, before the
      erasing transaction, or before the audit row is written. */
  datatype Stop = DuringSessions(done: set<Token>) | BeforeErase | BeforeAudit | Never

  datatype Site = Site(db: Db, kv: SessionState)

  function EventName(kind: EventKind): string {
    match kind
    case UserDeleted => "user.deleted"
    case UserSuspended => "user.suspended"
    case SessionsRevoked => "user.sessions_revoked"
  }

  function ErasedRow(e: IdentityEvent): AuditRow {
    AuditRow(None, None, "user.erased",
             map["source" := "budgetapp", "event" := EventName(e.kind), "jti" := e.jti.UnwrapOr("")], None)
  }

  function EndedRow(e: IdentityEvent, user: UserId): AuditRow {
    AuditRow(None, None, "user.sessions_ended",
             map["source" := "budgetapp", "event" := EventName(e.kind), "user_id" := user], None)
  }

  function Logged(db: Db, row: AuditRow): Db {
    db.(audit := db.audit + [row])
  }

  /** A delivery: what it answers, or nothing when it died on the way. */
  function Answered(w: Site, e: IdentityEvent, stop: Stop): Option<Outcome> {
    if e.member !in w.db.identities then Some(UnknownMember)
    else if stop != Never then None
    else Some(if e.kind.UserDeleted? then Erased else SessionsEnded)
  }

  function Delivered(w: Site, e: IdentityEvent, now: int, stop: Stop): Site {
    if e.member !in w.db.identities then w
    else
      var user := w.db.identities[e.member];
      if stop.DuringSessions? then w.(kv := PartlyDestroyed(w.kv, user, now, stop.done))
      else
        var kv := DestroyedAll(w.kv, user, now);
        if stop.BeforeErase? then Site(w.db, kv)
        else
          var db := if e.kind.UserDeleted? then ErasedFrom(w.db, user) else w.db;
          if stop.BeforeAudit? then Site(db, kv)
          else Site(Logged(db, if e.kind.UserDeleted? then ErasedRow(e) else EndedRow(e, user)), kv)
  }

  /** A verified token as an event. */
  function EventOf(c: IdTokens.Claims, name: string): IdentityEvent
    requires name in IdTokens.KNOWN_EVENTS
  {
    IdentityEvent(Member(c.iss, c.sub),
                  if name == "user.deleted" then UserDeleted
                  else if name == "user.suspended" then UserSuspended
                  else SessionsRevoked,
                  c.jti)
  }

  datatype Answer = Done(event: string, outcome: Outcome) | Declined(status: int) | Died

  ghost function Reception(t: IdTokens.Token, config: IdTokens.IssuerConfig, now: int, keys: Option<seq<IdTokens.Jwk>>)
    : IdTokens.Reception
  {
    IdTokens.Received(IdTokens.Verified(t, config, Some(IdTokens.IDENTITY_EVENT_TYP), None, now, keys))
  }

  class IdentityReceiver {
    const db: Database
    const kv: SessionStore

    constructor (db: Database, kv: SessionStore)
      ensures this.db == db && this.kv == kv
    {
      this.db, this.kv := db, kv;
    }

    function State(): Site
      reads this, db, kv
    {
      Site(db.State(), kv.State())
    }

    /** Sessions first, then the rows, then the audit trail. */
    method ApplyIdentityEvent(e: IdentityEvent, now: int, stop: Stop) returns (outcome: Option<Outcome>)
      modifies db, kv
      ensures State() == Delivered(old(State()), e, now, stop)
      ensures outcome == Answered(old(State()), e, stop)
    {
      var user := db.FindUserId(e.member);
      if user.None? {
        return Some(UnknownMember);
      }
      if stop.DuringSessions? {
        kv.DestroySomeUserSessions(user.value, now, stop.done);
        return None;
      }
      kv.DestroyAllUserSessions(user.value, now);
      if stop.BeforeErase? {
        return None;
      }
      if e.kind.UserDeleted? {
        db.EraseUser(user.value);
        if stop.BeforeAudit? {
          return None;
        }
        db.WriteAudit(ErasedRow(e));
        return Some(Erased);
      }
      if stop.BeforeAudit? {
        return None;
      }
      db.WriteAudit(EndedRow(e, user.value));
      return Some(SessionsEnded);
    }

    /** Verify, then apply; a token that is turned away changes nothing. */
    method ReceiveIdentityEvent(t: IdTokens.Token, config: IdTokens.IssuerConfig, now: int,
                                keys: Option<seq<IdTokens.Jwk>>, stop: Stop)
      returns (answer: Answer)
      modifies db, kv
      ensures Reception(t, config, now, keys).TurnedAway? ==>
                answer == Declined(Reception(t, config, now, keys).status) && State() == old(State())
      ensures Reception(t, config, now, keys).Genuine? ==>
                var name := Reception(t, config, now, keys).event;
                && t.Jwt? && name in IdTokens.KNOWN_EVENTS
                && var e := EventOf(t.claims, name);
                   && State() == Delivered(old(State()), e, now, stop)
                   && answer == match Answered(old(State()), e, stop)
                                case None => Died
                                case Some(outcome) => Done(name, outcome)
    {
      var verdict := IdTokens.VerifyIdToken(t, config, Some(IdTokens.IDENTITY_EVENT_TYP), None, now, keys);
      var r := IdTokens.Received(verdict);
      if r.TurnedAway? {
        return Declined(r.status);
      }
      var outcome := ApplyIdentityEvent(EventOf(verdict.claims, r.event), now, stop);
      return if outcome.None? then Died else Done(r.event, outcome.value);
    }
  }

  // ---- Runs of deliveries, with other things happening in between ----

  /** What has become of an audit row: it stays, and can only lose pointers and its address. */
  predicate Redacted(r: AuditRow, r': AuditRow) {
    && r'.action == r.action && r'.detail == r.detail
    && (r'.actor == r.actor || r'.actor.None?) && (r'.target == r.target || r'.target.None?)
    && (r'.ip == r.ip || r'.ip.None?)
  }

  ghost predicate AuditKept(rows: seq<AuditRow>, rows': seq<AuditRow>) {
    |rows| <= |rows'| && forall i :: 0 <= i < |rows| ==> Redacted(rows[i], rows'[i])
  }

  /** No session of the user has been added. */
  predicate NoNewSessions(kv: SessionState, kv': SessionState, user: UserId) {
    forall t :: t in kv'.sessions && kv'.sessions[t].value.userId == user ==>
      t in kv.sessions && kv.sessions[t] == kv'.sessions[t]
  }

  ghost predicate Healthy(w: Site, now: int) {
    Integrity(w.db) && Revocable(w.kv, now)
  }

  /** Anything else the site may do meanwhile, for as long as this member neither signs in nor is
      unlinked: other people sign in and out, trade, are erased; this member may act and sign out. */
  ghost predicate Meanwhile(w: Site, w': Site, m: Member, user: UserId, now: int) {
    && Healthy(w', now)
    && (m in w'.db.identities <==> m in w.db.identities)
    && (m in w.db.identities ==> w'.db.identities[m] == w.db.identities[m])
    && (user in w'.db.users ==> user in w.db.users)
    && NoNewSessions(w.kv, w'.kv, user)
    && AuditKept(w.db.audit, w'.db.audit)
    && (user in w'.db.users ==>
          forall i :: 0 <= i < |w.db.audit| && Refers(w.db.audit[i], user) ==> Refers(w'.db.audit[i], user))
  }

  /** One moment of a run: a delivery of the event with its fate, or something else. */
  datatype Moment = Delivery(stop: Stop) | Meantime(site: Site)

  datatype Happening = Happening(now: int, moment: Moment)

  function After(w: Site, e: IdentityEvent, h: Happening): Site {
    match h.moment
    case Delivery(stop) => Delivered(w, e, h.now, stop)
    case Meantime(site) => site
  }

  function AfterAll(w: Site, e: IdentityEvent, hs: seq<Happening>): Site {
    if hs == [] then w else After(AfterAll(w, e, hs[..|hs| - 1]), e, hs[|hs| - 1])
  }

  ghost predicate Possible(w: Site, e: IdentityEvent, user: UserId, start: int, hs: seq<Happening>) {
    hs != [] ==>
      var n := |hs| - 1;
      && Possible(w, e, user, start, hs[..n])
      && LastTime(start, hs[..n]) <= hs[n].now
      && (hs[n].moment.Meantime? ==> Meanwhile(AfterAll(w, e, hs[..n]), hs[n].moment.site, e.member, user, hs[n].now))
  }

  function LastTime(start: int, hs: seq<Happening>): int {
    if hs == [] then start else hs[|hs| - 1].now
  }

  predicate Linked(w: Site, m: Member, user: UserId) {
    m in w.db.identities && w.db.identities[m] == user
  }

  /** Not erased yet: the member is still known, and nothing recorded about them is lost. */
  ghost predicate Pending(w: Site, w': Site, m: Member, user: UserId) {
    && Linked(w', m, user)
    && AuditKept(w.db.audit, w'.db.audit)
    && forall i :: 0 <= i < |w.db.audit| && Refers(w.db.audit[i], user) ==> Refers(w'.db.audit[i], user)
  }

  /** Erased: no user, identity, token or action row, and no live session; every earlier audit row
      is still there, points at the member no more, and has forgotten their address. */
  ghost predicate Gone(w: Site, w': Site, m: Member, user: UserId, now: int) {
    && m !in w'.db.identities && user !in w'.db.users
    && (forall k :: k in w'.db.brokerTokens ==> w'.db.brokerTokens[k] != user)
    && (forall k :: k in w'.db.actions ==> w'.db.actions[k] != user)
    && (forall k :: k in w'.db.identities ==> w'.db.identities[k] != user)
    && (forall t :: Live(w'.kv.sessions, t, now) ==> w'.kv.sessions[t].value.userId != user)
    && AuditKept(w.db.audit, w'.db.audit)
    && (forall i :: 0 <= i < |w'.db.audit| ==> !Refers(w'.db.audit[i], user))
    && forall i :: 0 <= i < |w.db.audit| && Refers(w.db.audit[i], user) ==> w'.db.audit[i].ip.None?
  }

  lemma PartlyKeepsRevocable(s: SessionState, user: UserId, now: int, done: set<Token>)
    requires Revocable(s, now)
    ensures Revocable(PartlyDestroyed(s, user, now, done), now)
  {
    var s' := PartlyDestroyed(s, user, now, done);
    forall t
      ensures Covered(s', t, now)
    {
      assert Covered(s, t, now);
    }
    forall u, t
      ensures Own(s', u, t)
    {
      assert Own(s, u, t);
    }
  }

  lemma DeliveryKeepsHealth(w: Site, e: IdentityEvent, now: int, stop: Stop)
    requires Healthy(w, now)
    ensures Healthy(Delivered(w, e, now, stop), now)
  {
    hide Revocable;
    if e.member in w.db.identities {
      var user := w.db.identities[e.member];
      if stop.DuringSessions? {
        PartlyKeepsRevocable(w.kv, user, now, stop.done);
      } else {
        DestroyAllKeeps(w.kv, user, now);
        ErasingKeepsIntegrity(w.db, user);
      }
    }
  }

  lemma RedactedTwice(r: AuditRow, r': AuditRow, r'': AuditRow)
    requires Redacted(r, r') && Redacted(r', r'')
    ensures Redacted(r, r'')
  {
  }

  lemma AuditKeptTwice(rows: seq<AuditRow>, rows': seq<AuditRow>, rows'': seq<AuditRow>)
    requires AuditKept(rows, rows') && AuditKept(rows', rows'')
    ensures AuditKept(rows, rows'')
  {
    forall i | 0 <= i < |rows|
      ensures Redacted(rows[i], rows''[i])
    {
      RedactedTwice(rows[i], rows'[i], rows''[i]);
    }
  }

  /** A delivery to a known member either leaves them pending or erases them. */
  lemma DeliveryDecides(w: Site, w': Site, e: IdentityEvent, user: UserId, now: int, stop: Stop)
    requires e.kind.UserDeleted? && Healthy(w', now) && Pending(w, w', e.member, user)
    ensures var w'' := Delivered(w', e, now, stop);
            if stop.DuringSessions? || stop.BeforeErase? then Pending(w, w'', e.member, user)
            else Gone(w, w'', e.member, user, now)
  {
    hide Revocable, Covered, Own;
    if !stop.DuringSessions? {
      DestroyAllIsExact(w'.kv, user, now);
    }
    if stop.BeforeAudit? || stop.Never? {
      var erased := ErasedFrom(w'.db, user);
      assert AuditKept(w'.db.audit, erased.audit);
      AuditKeptTwice(w.db.audit, w'.db.audit, erased.audit);
    }
  }

  lemma MeanwhilePending(w: Site, w': Site, w'': Site, m: Member, user: UserId, now: int)
    requires Pending(w, w', m, user) && Meanwhile(w', w'', m, user, now)
    ensures Pending(w, w'', m, user)
  {
    AuditKeptTwice(w.db.audit, w'.db.audit, w''.db.audit);
    assert w''.db.identities[m] in w''.db.users;
  }

  lemma MeanwhileGone(w: Site, w': Site, w'': Site, m: Member, user: UserId, before: int, now: int)
    requires before <= now && Gone(w, w', m, user, before) && Meanwhile(w', w'', m, user, now)
    ensures Gone(w, w'', m, user, now)
  {
    hide Revocable;
    AuditKeptTwice(w.db.audit, w'.db.audit, w''.db.audit);
    forall t | Live(w''.kv.sessions, t, now)
      ensures w''.kv.sessions[t].value.userId != user
    {
      assert w''.kv.sessions[t].value.userId == user ==> Live(w'.kv.sessions, t, before);
    }
    forall i | 0 <= i < |w''.db.audit|
      ensures !Refers(w''.db.audit[i], user)
    {
      assert user !in w''.db.users;
    }
  }

  /** Gone stays gone as time passes and deliveries repeat, each of which finds nobody. */
  lemma GoneLater(w: Site, w': Site, m: Member, user: UserId, before: int, now: int)
    requires before <= now && Gone(w, w', m, user, before)
    ensures Gone(w, w', m, user, now)
  {
    forall t | Live(w'.kv.sessions, t, now)
      ensures w'.kv.sessions[t].value.userId != user
    {
      assert Live(w'.kv.sessions, t, before);
    }
  }

  /** Some delivery of the run got as far as the erasing transaction. */
  predicate ReachedErase(hs: seq<Happening>) {
    exists i :: 0 <= i < |hs| && Reaches(hs[i])
  }

  predicate Reaches(h: Happening) {
    h.moment.Delivery? && (h.moment.stop.BeforeAudit? || h.moment.stop.Never?)
  }

  /** Whatever dies on the way and whatever else goes on, the member is either untouched or gone,
      and it is the erasing transaction that decides. */
  lemma {:induction false} ErasureIsAllOrNothing(w: Site, e: IdentityEvent, user: UserId, start: int, hs: seq<Happening>)
    requires e.kind.UserDeleted? && Healthy(w, start) && Linked(w, e.member, user)
    requires Possible(w, e, user, start, hs)
    ensures var w', now := AfterAll(w, e, hs), LastTime(start, hs);
            && Healthy(w', now)
            && if ReachedErase(hs) then Gone(w, w', e.member, user, now) else Pending(w, w', e.member, user)
  {
    hide Pending, Gone, Meanwhile, Delivered, Healthy;
    LinkedIsPending(w, e.member, user);
    if hs != [] {
      var n := |hs| - 1;
      var before, h := AfterAll(w, e, hs[..n]), hs[n];
      ErasureIsAllOrNothing(w, e, user, start, hs[..n]);
      ReachedSnoc(hs);
      NextMoment(w, before, e, user, LastTime(start, hs[..n]), h, ReachedErase(hs[..n]));
    }
  }

  lemma LinkedIsPending(w: Site, m: Member, user: UserId)
    requires Linked(w, m, user)
    ensures Pending(w, w, m, user)
  {
  }

  lemma ReachedSnoc(hs: seq<Happening>)
    requires hs != []
    ensures ReachedErase(hs) <==> ReachedErase(hs[..|hs| - 1]) || Reaches(hs[|hs| - 1])
  {
    var n := |hs| - 1;
    if ReachedErase(hs[..n]) {
      var i :| 0 <= i < n && Reaches(hs[..n][i]);
      assert Reaches(hs[i]);
    }
    if ReachedErase(hs) && !Reaches(hs[n]) {
      var i :| 0 <= i < |hs| && Reaches(hs[i]);
      assert Reaches(hs[..n][i]);
    }
  }

  lemma HealthLater(w: Site, before: int, now: int)
    requires before <= now && Healthy(w, before)
    ensures Healthy(w, now)
  {
    TimePasses(w.kv, before, now);
  }

  lemma NextMoment(w: Site, w': Site, e: IdentityEvent, user: UserId, before: int, h: Happening, gone: bool)
    requires e.kind.UserDeleted? && Healthy(w', before) && before <= h.now
    requires if gone then Gone(w, w', e.member, user, before) else Pending(w, w', e.member, user)
    requires h.moment.Meantime? ==> Meanwhile(w', h.moment.site, e.member, user, h.now)
    ensures var w'' := After(w', e, h);
            && Healthy(w'', h.now)
            && if gone || Reaches(h) then Gone(w, w'', e.member, user, h.now) else Pending(w, w'', e.member, user)
  {
    hide Revocable, Covered, Own;
    match h.moment
    case Meantime(site) =>
      if gone {
        MeanwhileGone(w, w', site, e.member, user, before, h.now);
      } else {
        MeanwhilePending(w, w', site, e.member, user, h.now);
      }
    case Delivery(stop) =>
      HealthLater(w', before, h.now);
      DeliveryKeepsHealth(w', e, h.now, stop);
      if gone {
        GoneLater(w, w', e.member, user, before, h.now);
      } else {
        DeliveryDecides(w, w', e, user, h.now, stop);
      }
  }

  /** The promise: once a delivery of the deletion answers at all, the member is gone, however many
      earlier deliveries died and wherever; and every further delivery finds nobody and changes
      nothing. */
  lemma AnsweredMeansGone(w: Site, e: IdentityEvent, user: UserId, start: int, hs: seq<Happening>, now: int, stop: Stop,
                          later: int, again: Stop)
    requires e.kind.UserDeleted? && Healthy(w, start) && Linked(w, e.member, user)
    requires Possible(w, e, user, start, hs) && LastTime(start, hs) <= now
    requires Answered(AfterAll(w, e, hs), e, stop).Some?
    ensures var w' := Delivered(AfterAll(w, e, hs), e, now, stop);
            && Gone(w, w', e.member, user, now)
            && Delivered(w', e, later, again) == w' && Answered(w', e, again) == Some(UnknownMember)
  {
    hide Gone, Possible, Healthy, Pending, Delivered;
    var w0 := AfterAll(w, e, hs);
    ErasureIsAllOrNothing(w, e, user, start, hs);
    PendingIsKnown(w, w0, e.member, user);
    NextMoment(w, w0, e, user, LastTime(start, hs), Happening(now, Delivery(stop)), ReachedErase(hs));
    GoneIsUnknown(w, Delivered(w0, e, now, stop), e.member, user, now);
    UnknownChangesNothing(Delivered(w0, e, now, stop), e, later, again);
  }

  lemma UnknownChangesNothing(w: Site, e: IdentityEvent, now: int, stop: Stop)
    requires e.member !in w.db.identities
    ensures Delivered(w, e, now, stop) == w && Answered(w, e, stop) == Some(UnknownMember)
  {
  }

  lemma GoneIsUnknown(w: Site, w': Site, m: Member, user: UserId, now: int)
    requires Gone(w, w', m, user, now)
    ensures m !in w'.db.identities
  {
  }

  lemma PendingIsKnown(w: Site, w': Site, m: Member, user: UserId)
    ensures Pending(w, w', m, user) ==> m in w'.db.identities
  {
  }

  // ---- What erasure does not promise ----

  /** Deliveries and nothing else, the first `k` dying before the erasing transaction. */
  predicate OnlyDeliveries(hs: seq<Happening>, k: nat) {
    && (forall i :: 0 <= i < |hs| ==> hs[i].moment.Delivery?)
    && (forall i :: 0 <= i < k && i < |hs| ==> !Reaches(hs[i]))
    && (k < |hs| ==> Reaches(hs[k]))
  }

  /** With deliveries only, the database in the end is that of one erasure. */
  lemma {:induction false} DeliveriesEraseOnce(w: Site, e: IdentityEvent, hs: seq<Happening>, k: nat)
    requires e.kind.UserDeleted? && e.member in w.db.identities && OnlyDeliveries(hs, k)
    ensures var erased := ErasedFrom(w.db, w.db.identities[e.member]);
            AfterAll(w, e, hs).db == if k >= |hs| then w.db
                                     else if hs[k].moment.stop.Never? then Logged(erased, ErasedRow(e))
                                     else erased
  {
    if hs != [] {
      var n := |hs| - 1;
      DeliveriesEraseOnce(w, e, hs[..n], k);
    }
  }

  /** What came after the rows there were. */
  function Added(rows: seq<AuditRow>, rows': seq<AuditRow>): seq<AuditRow> {
    if |rows| <= |rows'| then rows'[|rows|..] else []
  }

  /** The rows that the deliveries of a run have written, whatever else was written in between. */
  function DeliveryRows(w: Site, e: IdentityEvent, hs: seq<Happening>): seq<AuditRow> {
    if hs == [] then []
    else
      var n := |hs| - 1;
      DeliveryRows(w, e, hs[..n])
      + if hs[n].moment.Delivery? then Added(AfterAll(w, e, hs[..n]).db.audit, AfterAll(w, e, hs).db.audit) else []
  }

  /** The `k`th happening is the first delivery to reach the erasing transaction; or none does. */
  predicate FirstReach(hs: seq<Happening>, k: nat) {
    (forall i :: 0 <= i < k && i < |hs| ==> !Reaches(hs[i])) && (k < |hs| ==> Reaches(hs[k]))
  }

  lemma DeliveryWrites(w: Site, e: IdentityEvent, now: int, stop: Stop)
    requires e.kind.UserDeleted?
    ensures Added(w.db.audit, Delivered(w, e, now, stop).db.audit)
            == if e.member in w.db.identities && stop.Never? then [ErasedRow(e)] else []
  {
  }

  /** Over any run, with anything else in between, the deliveries together have written the row of the
      erasure once, if the delivery that carried it out did not die before writing it, and else
      nothing: the erasure is on record exactly then, and no later delivery makes up for it. */
  lemma {:induction false} ErasureIsOnRecordIff(w: Site, e: IdentityEvent, user: UserId, start: int, hs: seq<Happening>, k: nat)
    requires e.kind.UserDeleted? && Healthy(w, start) && Linked(w, e.member, user)
    requires Possible(w, e, user, start, hs) && FirstReach(hs, k)
    ensures DeliveryRows(w, e, hs) == if k < |hs| && hs[k].moment.stop.Never? then [ErasedRow(e)] else []
  {
    hide Pending, Gone, Meanwhile, Delivered, Healthy, ErasedRow, Added;
    if hs != [] {
      var n := |hs| - 1;
      var before, h := AfterAll(w, e, hs[..n]), hs[n];
      ErasureIsOnRecordIff(w, e, user, start, hs[..n], k);
      ErasureIsAllOrNothing(w, e, user, start, hs[..n]);
      ReachedIffFirst(hs[..n], k);
      PendingIsKnown(w, before, e.member, user);
      if h.moment.Delivery? {
        DeliveryWrites(before, e, h.now, h.moment.stop);
        if k < n {
          GoneIsUnknown(w, before, e.member, user, LastTime(start, hs[..n]));
        }
      }
    }
  }

  lemma ReachedIffFirst(hs: seq<Happening>, k: nat)
    requires FirstReach(hs, k)
    ensures ReachedErase(hs) <==> k < |hs|
  {
  }

  /** An administrator's deletion: the row is anonymised and stays, and the identity is unlinked. */
  function SoftDeleted(w: Site, user: UserId, actor: UserId, ip: Option<string>, now: int): Site
    requires user in w.db.users
  {
    var gone := w.db.users[user].(email := "deleted_" + user + "@deleted", status := "deleted");
    Site(Logged(w.db.(users := w.db.users[user := gone], identities := Accounts.Without(w.db.identities, user)),
                AuditRow(Some(actor), Some(user), "user.delete", map[], ip)),
         DestroyedAll(w.kv, user, now))
  }

  /** A delivery that is through has erased the user if and only if the member was still linked to
      it; or there was none to begin with. */
  lemma ErasesIffLinked(w: Site, e: IdentityEvent, user: UserId, now: int)
    requires e.kind.UserDeleted?
    ensures user !in Delivered(w, e, now, Never).db.users <==> user !in w.db.users || Linked(w, e.member, user)
  {
  }

  /** So after an administrator's deletion the provider's event is answered, by unknown_member, but
      erases nothing: the user's row, tokens, actions and addresses all stay. */
  lemma SoftDeletedIsNotErased(w: Site, e: IdentityEvent, user: UserId, actor: UserId, ip: Option<string>, now: int, later: int)
    requires Integrity(w.db) && Linked(w, e.member, user)
    ensures var w' := SoftDeleted(w, user, actor, ip, now);
            && Answered(w', e, Never) == Some(UnknownMember)
            && Delivered(w', e, later, Never).db == w'.db && user in w'.db.users
            && w'.db.brokerTokens == w.db.brokerTokens && w'.db.actions == w.db.actions
            && w.db.audit <= w'.db.audit
  {
    assert w.db.identities[e.member] in w.db.users;
  }
}

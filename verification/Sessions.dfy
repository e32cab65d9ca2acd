/** Key-value tables whose entries may expire. */
module Kv {
  import opened Core

  datatype Timed<V> = Timed(value: V, expires: Option<int>)

  type Table<K(==), V> = map<K, Timed<V>>

  /** An entry can be read until its expiry, in seconds. */
  predicate Live<K, V>(m: Table<K, V>, k: K, now: int) {
    k in m && (m[k].expires.Some? ==> now < m[k].expires.value)
  }

  function Get<K, V>(m: Table<K, V>, k: K, now: int): Option<V> {
    if Live(m, k, now) then Some(m[k].value) else None
  }
}

/** workers/src/lib/session.ts: sessions, the per-user index that makes them revocable, and what
    the two agree on over any run, expiry included. */
module Sessions {
  import opened Core
  import opened Kv

  type Token = string
  type UserId = string

  /** The sessions are meant to last a day, and the index an hour longer. */
  const SESSION_TTL := 86400
  const INDEX_TTL := SESSION_TTL + 3600

  datatype Session = Session(userId: UserId, role: string, amr: seq<string>, authTime: int)

  /** What is stored: sessions written before the last two fields existed lack them. */
  datatype Stored = Stored(userId: UserId, role: string, amr: Option<seq<string>>, authTime: Option<int>)

  datatype SessionState = SessionState(sessions: Table<Token, Stored>, index: Table<UserId, seq<Token>>)

  function StoredAs(s: Session): Stored {
    Stored(s.userId, s.role, Some(s.amr), Some(s.authTime))
  }

  function TokensOf(s: SessionState, user: UserId, now: int): seq<Token> {
    Get(s.index, user, now).UnwrapOr([])
  }

  function Created(s: SessionState, session: Session, token: Token, now: int): SessionState {
    SessionState(s.sessions[token := Timed(StoredAs(session), Some(now + SESSION_TTL))],
                 s.index[session.userId := Timed(TokensOf(s, session.userId, now) + [token], Some(now + INDEX_TTL))])
  }

  function Others(tokens: seq<Token>, token: Token): (others: seq<Token>)
    ensures forall t :: t in others <==> t in tokens && t != token
  {
    if tokens == [] then []
    else
      var t := tokens[|tokens| - 1];
      assert tokens == tokens[..|tokens| - 1] + [t];
      Others(tokens[..|tokens| - 1], token) + if t != token then [t] else []
  }

  /** Ending one session takes it out of its user's index, which is rewritten without an expiry. */
  function Destroyed(s: SessionState, token: Token, now: int): SessionState {
    if !Live(s.sessions, token, now) then s
    else
      var user := s.sessions[token].value.userId;
      var updated := Others(TokensOf(s, user, now), token);
      SessionState(s.sessions - {token}, if updated != [] then s.index[user := Timed(updated, None)] else s.index - {user})
  }

  function DestroyedAll(s: SessionState, user: UserId, now: int): SessionState {
    SessionState(s.sessions - (set t | t in TokensOf(s, user, now)), s.index - {user})
  }

  /** Ending all sessions, interrupted: some deletions are through, and the index is still there. */
  function PartlyDestroyed(s: SessionState, user: UserId, now: int, done: set<Token>): SessionState {
    s.(sessions := s.sessions - set t | t in TokensOf(s, user, now) && t in done)
  }

  class SessionStore {
    var sessions: Table<Token, Stored>
    var index: Table<UserId, seq<Token>>

    constructor ()
      ensures State() == SessionState(map[], map[])
    {
      sessions, index := map[], map[];
    }

    function State(): SessionState
      reads this
    {
      SessionState(sessions, index)
    }

    /** `token` is the freshly generated one. */
    method CreateSession(session: Session, token: Token, now: int)
      modifies this
      ensures State() == Created(old(State()), session, token, now)
    {
      sessions := sessions[token := Timed(StoredAs(session), Some(now + SESSION_TTL))];
      var existing := if Live(index, session.userId, now) then index[session.userId].value else [];
      index := index[session.userId := Timed(existing + [token], Some(now + SESSION_TTL + 3600))];
    }

    /** A session is valid while it lasts and names a user and a role; missing fields prove nothing. */
    method ValidateSession(token: Token, now: int) returns (session: Option<Session>)
      ensures session.Some? <==>
                Live(sessions, token, now) && sessions[token].value.userId != "" && sessions[token].value.role != ""
      ensures session.Some? ==>
                var stored, s := sessions[token].value, session.value;
                && s.userId == stored.userId && s.role == stored.role
                && s.amr == stored.amr.UnwrapOr([]) && s.authTime == stored.authTime.UnwrapOr(0)
    {
      if !Live(sessions, token, now) {
        return None;
      }
      var data := sessions[token].value;
      if data.userId == "" || data.role == "" {
        return None;
      }
      return Some(Session(data.userId, data.role, data.amr.UnwrapOr([]), data.authTime.UnwrapOr(0)));
    }

    method DestroySession(token: Token, now: int)
      modifies this
      ensures State() == Destroyed(old(State()), token, now)
    {
      if Live(sessions, token, now) {
        var user := sessions[token].value.userId;
        sessions := sessions - {token};
        var tokens := if Live(index, user, now) then index[user].value else [];
        var updated: seq<Token> := [];
        for i := 0 to |tokens|
          invariant updated == Others(tokens[..i], token)
        {
          assert tokens[..i + 1][..i] == tokens[..i];
          if tokens[i] != token {
            updated := updated + [tokens[i]];
          }
        }
        assert tokens[..|tokens|] == tokens;
        if |updated| > 0 {
          index := index[user := Timed(updated, None)];
        } else {
          index := index - {user};
        }
      }
    }

    method DestroyAllUserSessions(user: UserId, now: int)
      modifies this
      ensures State() == DestroyedAll(old(State()), user, now)
    {
      var tokens := if Live(index, user, now) then index[user].value else [];
      for i := 0 to |tokens|
        invariant index == old(index) && sessions == old(sessions) - (set t | t in tokens[..i])
      {
        assert tokens[..i + 1] == tokens[..i] + [tokens[i]];
        sessions := sessions - {tokens[i]};
      }
      assert tokens[..|tokens|] == tokens;
      index := index - {user};
    }

    /** The same, dying after the deletions of `done`: they run at once and in no order. */
    method DestroySomeUserSessions(user: UserId, now: int, done: set<Token>)
      modifies this
      ensures State() == PartlyDestroyed(old(State()), user, now, done)
    {
      var tokens := if Live(index, user, now) then index[user].value else [];
      sessions := sessions - set t | t in tokens && t in done;
    }
  }

  // ---- Any run ----

  datatype SessionOp = Create(session: Session, token: Token) | Destroy(token: Token) | DestroyAll(user: UserId)

  /** An operation and when it happens; operations are atomic. */
  datatype Timestamped = At(now: int, op: SessionOp)

  function Performed(s: SessionState, e: Timestamped): SessionState {
    match e.op
    case Create(session, token) => Created(s, session, token, e.now)
    case Destroy(token) => Destroyed(s, token, e.now)
    case DestroyAll(user) => DestroyedAll(s, user, e.now)
  }

  function PerformedAll(es: seq<Timestamped>): SessionState {
    if es == [] then SessionState(map[], map[]) else Performed(PerformedAll(es[..|es| - 1]), es[|es| - 1])
  }

  /** A generated token that collides with nothing stored. */
  predicate Unused(s: SessionState, token: Token) {
    token !in s.sessions && forall u :: u in s.index ==> token !in s.index[u].value
  }

  /** Time does not run backwards, and created tokens are unused. */
  predicate LegalRun(es: seq<Timestamped>) {
    es != [] ==>
      var n := |es| - 1;
      && LegalRun(es[..n])
      && (n > 0 ==> es[n - 1].now <= es[n].now)
      && (es[n].op.Create? ==> Unused(PerformedAll(es[..n]), es[n].op.token))
  }

  /** Every session that is still live, is in its user's index, which outlives it. */
  predicate Covered(s: SessionState, token: Token, now: int) {
    Live(s.sessions, token, now) ==>
      var stored := s.sessions[token];
      && stored.expires.Some? && stored.expires.value <= now + SESSION_TTL
      && stored.value.userId in s.index
      && var entry := s.index[stored.value.userId];
         && token in entry.value
         && (entry.expires.Some? ==> stored.expires.value <= entry.expires.value)
  }

  /** A user's index names no other user's session. */
  predicate Own(s: SessionState, user: UserId, token: Token) {
    user in s.index && token in s.index[user].value && token in s.sessions ==> s.sessions[token].value.userId == user
  }

  ghost predicate Revocable(s: SessionState, now: int) {
    (forall token :: Covered(s, token, now)) && (forall user, token :: Own(s, user, token))
  }

  lemma TimePasses(s: SessionState, now: int, later: int)
    requires Revocable(s, now) && now <= later
    ensures Revocable(s, later)
  {
    forall token
      ensures Covered(s, token, later)
    {
      assert Covered(s, token, now);
    }
  }

  /** A live session's index can be read, and names it. */
  lemma IndexIsReadable(s: SessionState, token: Token, now: int)
    requires Revocable(s, now) && Live(s.sessions, token, now)
    ensures token in TokensOf(s, s.sessions[token].value.userId, now)
  {
    assert Covered(s, token, now);
  }

  lemma CreateKeeps(s: SessionState, session: Session, token: Token, now: int)
    requires Revocable(s, now) && Unused(s, token)
    ensures Revocable(Created(s, session, token, now), now)
  {
    var s' := Created(s, session, token, now);
    forall t
      ensures Covered(s', t, now)
    {
      if t != token && Live(s.sessions, t, now) {
        assert Covered(s, t, now);
        IndexIsReadable(s, t, now);
      }
    }
    forall u, t
      ensures Own(s', u, t)
    {
      assert Own(s, u, t);
    }
  }

  lemma DestroyKeeps(s: SessionState, token: Token, now: int)
    requires Revocable(s, now)
    ensures Revocable(Destroyed(s, token, now), now)
  {
    if Live(s.sessions, token, now) {
      var s' := Destroyed(s, token, now);
      var user := s.sessions[token].value.userId;
      forall t
        ensures Covered(s', t, now)
      {
        assert Covered(s, t, now);
        if Live(s'.sessions, t, now) && s.sessions[t].value.userId == user {
          IndexIsReadable(s, t, now);
          assert t in Others(TokensOf(s, user, now), token);
        }
      }
      forall u, t
        ensures Own(s', u, t)
      {
        assert Own(s, u, t);
      }
    }
  }

  lemma DestroyAllKeeps(s: SessionState, user: UserId, now: int)
    requires Revocable(s, now)
    ensures Revocable(DestroyedAll(s, user, now), now)
  {
    var s' := DestroyedAll(s, user, now);
    forall t
      ensures Covered(s', t, now)
    {
      assert Covered(s, t, now);
      if Live(s.sessions, t, now) {
        IndexIsReadable(s, t, now);
      }
    }
    forall u, t
      ensures Own(s', u, t)
    {
      assert Own(s, u, t);
    }
  }

  /** After every run, and for as long as nothing else happens, each live session is in its user's
      live index, the index expires no earlier than the session, and names nobody else's. */
  lemma {:induction false} RunsStayRevocable(es: seq<Timestamped>, now: int)
    requires LegalRun(es) && (es != [] ==> es[|es| - 1].now <= now)
    ensures Revocable(PerformedAll(es), now)
  {
    if es != [] {
      var n := |es| - 1;
      var e, s := es[n], PerformedAll(es[..n]);
      RunsStayRevocable(es[..n], e.now);
      match e.op {
        case Create(session, token) => CreateKeeps(s, session, token, e.now);
        case Destroy(token) => DestroyKeeps(s, token, e.now);
        case DestroyAll(user) => DestroyAllKeeps(s, user, e.now);
      }
      TimePasses(PerformedAll(es), e.now, now);
    }
  }

  /** Ending all sessions of a user leaves that user no live session, then or later, and leaves
      every other user's sessions exactly as they were. */
  lemma DestroyAllIsExact(s: SessionState, user: UserId, now: int)
    requires Revocable(s, now)
    ensures var s' := DestroyedAll(s, user, now);
            && (forall token, later :: now <= later && Live(s'.sessions, token, later) ==>
                  s'.sessions[token].value.userId != user)
            && (forall token :: token in s.sessions && s.sessions[token].value.userId != user ==>
                  token in s'.sessions && s'.sessions[token] == s.sessions[token])
            && s'.sessions.Keys <= s.sessions.Keys && user !in s'.index
            && forall u :: u != user ==> (u in s'.index <==> u in s.index) && (u in s.index ==> s'.index[u] == s.index[u])
  {
    var s' := DestroyedAll(s, user, now);
    forall token, later | now <= later && Live(s'.sessions, token, later)
      ensures s'.sessions[token].value.userId != user
    {
      if s.sessions[token].value.userId == user {
        IndexIsReadable(s, token, now);
      }
    }
    forall token | token in s.sessions && s.sessions[token].value.userId != user
      ensures token in s'.sessions
    {
      assert Own(s, user, token);
    }
  }

  /** Ending one session ends that one and no other, and takes it out of its user's index. */
  lemma DestroyIsExact(s: SessionState, token: Token, now: int, later: int, other: Token)
    requires now <= later
    ensures Live(Destroyed(s, token, now).sessions, other, later) <==> other != token && Live(s.sessions, other, later)
    ensures Live(s.sessions, token, now) ==>
              var s', user := Destroyed(s, token, now), s.sessions[token].value.userId;
              && (other in TokensOf(s', user, later) <==> other != token && other in TokensOf(s, user, now))
              && (user in s'.index ==> s'.index[user].value != [] && s'.index[user].expires.None?)
              && forall u :: u != user ==> (u in s'.index <==> u in s.index) && (u in s.index ==> s'.index[u] == s.index[u])
    ensures !Live(s.sessions, token, now) ==> Destroyed(s, token, now) == s
  {
  }

  /** No session outlives a day: what is live now was created within the last day, so the sign-in
      door is asked again within one session lifetime. */
  lemma {:induction false} SessionsLastADay(es: seq<Timestamped>, now: int, token: Token)
    requires LegalRun(es) && (es != [] ==> es[|es| - 1].now <= now)
    requires Live(PerformedAll(es).sessions, token, now)
    ensures exists i :: 0 <= i < |es| && es[i].op.Create? && es[i].op.token == token && now < es[i].now + SESSION_TTL
                        && PerformedAll(es).sessions[token].value == StoredAs(es[i].op.session)
  {
    var n := |es| - 1;
    if !(es[n].op.Create? && es[n].op.token == token) {
      SessionsLastADay(es[..n], now, token);
      var i :| 0 <= i < n && es[..n][i].op.Create? && es[..n][i].op.token == token && now < es[..n][i].now + SESSION_TTL
               && PerformedAll(es[..n]).sessions[token].value == StoredAs(es[..n][i].op.session);
      assert es[i] == es[..n][i];
    }
  }

  /** The operation ends the session: it is signed out, or all its user's sessions are ended. */
  predicate Ends(e: Timestamped, session: Session, token: Token) {
    e.op == Destroy(token) || e.op == DestroyAll(session.userId)
  }

  /** One operation that is not a creation under this token either leaves the session as it was or, if
      it ends it, leaves nothing of it that can be read. */
  lemma NextSession(s: SessionState, e: Timestamped, session: Session, token: Token, now: int)
    requires Revocable(s, e.now) && e.now <= now && !(e.op.Create? && e.op.token == token)
    requires token in s.sessions ==> s.sessions[token].value == StoredAs(session)
    ensures var s' := Performed(s, e);
            && (token in s'.sessions ==> token in s.sessions && s'.sessions[token] == s.sessions[token])
            && (Live(s'.sessions, token, now) <==> Live(s.sessions, token, now) && !Ends(e, session, token))
  {
    if Live(s.sessions, token, e.now) {
      IndexIsReadable(s, token, e.now);
    }
    if e.op.DestroyAll? {
      assert Own(s, e.op.user, token);
    }
  }

  /** How long a session lasts: one that was created can be read if and only if it is less than a day
      old and has not been ended since; and what is read is what was created. */
  lemma {:induction false} LiveIff(es: seq<Timestamped>, i: nat, now: int)
    requires LegalRun(es) && es != [] && es[|es| - 1].now <= now && i < |es| && es[i].op.Create?
    requires forall j :: i < j < |es| && es[j].op.Create? ==> es[j].op.token != es[i].op.token
    ensures var sessions, session, token := PerformedAll(es).sessions, es[i].op.session, es[i].op.token;
            && (Live(sessions, token, now) <==>
                  now < es[i].now + 86400 && forall j :: i < j < |es| ==> !Ends(es[j], session, token))
            && (token in sessions ==>
                  sessions[token].value == Stored(session.userId, session.role, Some(session.amr), Some(session.authTime)))
  {
    hide Revocable, Performed;
    var n, token := |es| - 1, es[i].op.token;
    if i == n {
      CreatedIsLive(PerformedAll(es[..n]), es[n], now);
    } else {
      RunsStayRevocable(es[..n], es[n].now);
      LiveIff(es[..n], i, now);
      assert es[..n][i] == es[i];
      NextSession(PerformedAll(es[..n]), es[n], es[i].op.session, token, now);
      assert forall j :: i < j < n ==> es[..n][j] == es[j];
    }
  }

  lemma CreatedIsLive(s: SessionState, e: Timestamped, now: int)
    requires e.op.Create?
    ensures var sessions, session := Performed(s, e).sessions, e.op.session;
            && (Live(sessions, e.op.token, now) <==> now < e.now + 86400)
            && e.op.token in sessions
            && sessions[e.op.token].value == Stored(session.userId, session.role, Some(session.amr), Some(session.authTime))
  {
  }

  /** Without fresh tokens it would not hold: an expired session's token still sits in its user's
      index, and handing it out again lets that user's revocation end someone else's session. */
  lemma ReusedTokenIsNotOwn(a: Session, b: Session, token: Token)
    requires a.userId != b.userId
    ensures var s := Created(Created(SessionState(map[], map[]), a, token, 0), b, token, SESSION_TTL);
            && Live(s.sessions, token, SESSION_TTL) && s.sessions[token].value.userId == b.userId
            && !Live(DestroyedAll(s, a.userId, SESSION_TTL).sessions, token, SESSION_TTL)
  {
    var first := Created(SessionState(map[], map[]), a, token, 0);
    assert first.index[a.userId].value == [] + [token];
  }
}

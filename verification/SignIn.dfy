/** workers/src/routes/budgetapp-auth.ts: the sign-in flow's state machine. Every clock reading of a
    callback is explicit, because time passes inside one. */
module SignIn {
  import opened Core
  import opened Kv
  import opened Sessions
  import opened Accounts
  import IdTokens

  const FLOW_TTL := 600

  /** A started flow: the nonce it expects in the token, and where the visitor wanted to go. */
  datatype Flow = Flow(nonce: string, next: Option<string>)

  /** What is remembered: started flows by state, and used token ids. */
  datatype Door = Door(flows: Table<string, Flow>, jtis: Table<string, bool>, db: Db, kv: SessionState)

  /** When a callback looks up its flow, verifies the token, looks up the token's id, computes how
      long to remember it, and creates the session. */
  datatype Times = Times(found: int, verified: int, looked: int, stored: int, created: int)
  {
    predicate Ordered() {
      found <= verified <= looked <= stored <= created
    }
  }

  /** A callback: whether the deployment is configured, the provider's error, the code and the state
      of the query, empty where missing; the token the code was exchanged for, if any, the issuer's
      key set, the clock readings, and the fresh user id and session token it may need. */
  datatype Callback = Callback(configured: bool, error: string, code: string, state: string, token: Option<IdTokens.Token>,
                               keys: Option<seq<IdTokens.Jwk>>, at: Times, newUser: UserId, newToken: Token, ip: Option<string>)

  datatype Reply = SignedIn(user: UserId, role: string, destination: string) | NotConfigured | Declined | MissingParameters
                 | NoFlow | NoToken | BadToken | Replayed | NoAccount | NotActive

  /** Whom the member maps to. */
  datatype Found = Known(user: UserId, role: string) | Missing | Inactive

  predicate HasJti(c: IdTokens.Claims) {
    c.jti.Some? && c.jti.value != ""
  }

  /** How long a token's id is remembered. */
  function JtiTtl(exp: int, now: int): int {
    if exp - now + 60 > 60 then exp - now + 60 else 60
  }

  function LoginRow(user: UserId, ip: Option<string>): AuditRow {
    AuditRow(Some(user), None, "user.login", map["provider" := "budgetapp"], ip)
  }

  function ProvisionedRow(user: UserId): AuditRow {
    AuditRow(Some(user), None, "user.provisioned", map["provider" := "budgetapp"], None)
  }

  /** A first sign-in makes a plain active user; the email is a copy and never a key. */
  function Provisioned(db: Db, m: Member, user: UserId, email: string): Db {
    db.(users := db.users[user := Account(email, "user", "active")], identities := db.identities[m := user],
        audit := db.audit + [ProvisionedRow(user)])
  }

  function Recognised(db: Db, user: UserId, email: string): Db
    requires user in db.users
  {
    db.(users := db.users[user := db.users[user].(email := email)])
  }

  // ---- A callback, stage by stage ----

  /** What a callback is turned away for before it looks at its flow. */
  function EarlyReply(c: Callback): Option<Reply> {
    if !c.configured then Some(NotConfigured)
    else if c.error != "" then Some(Declined)
    else if c.code == "" || c.state == "" then Some(MissingParameters)
    else None
  }

  /** The callback gets to an open flow. */
  predicate Opens(d: Door, c: Callback) {
    EarlyReply(c).None? && Live(d.flows, c.state, c.at.found)
  }

  /** Looking up a flow uses it up. */
  function FlowTaken(d: Door, c: Callback): Door {
    if Opens(d, c) then d.(flows := d.flows - {c.state}) else d
  }

  function Destination(flow: Flow, role: string): string {
    if flow.next.Some? then flow.next.value else if role == "admin" then "/admin" else "/dashboard"
  }

  ghost function TokenVerdict(d: Door, config: IdTokens.IssuerConfig, c: Callback): IdTokens.Verdict
    requires Opens(d, c) && c.token.Some?
  {
    IdTokens.Verified(c.token.value, config, None, Some(d.flows[c.state].value.nonce), c.at.verified, c.keys)
  }

  /** The token is there and verifies for the flow. */
  ghost predicate Proven(d: Door, config: IdTokens.IssuerConfig, c: Callback) {
    Opens(d, c) && c.token.Some? && TokenVerdict(d, config, c).Accepted?
  }

  function ClaimsOf(c: Callback): IdTokens.Claims
    requires c.token.Some? && c.token.value.Jwt?
  {
    c.token.value.claims
  }

  function MemberOf(claims: IdTokens.Claims): Member {
    Member(claims.iss, claims.sub)
  }

  /** The token's id is still remembered. */
  predicate Seen(d: Door, claims: IdTokens.Claims, now: int) {
    HasJti(claims) && Live(d.jtis, claims.jti.value, now)
  }

  function JtiStored(d: Door, claims: IdTokens.Claims, now: int): Door
    requires claims.exp.Some?
  {
    if HasJti(claims) then d.(jtis := d.jtis[claims.jti.value := Timed(true, Some(now + JtiTtl(claims.exp.value, now)))]) else d
  }

  /** The mapping of the member to a user, and what is written for it. */
  function Mapped(db: Db, claims: IdTokens.Claims, newUser: UserId): (Db, Found) {
    var m, email := MemberOf(claims), claims.email.UnwrapOr("");
    if m in db.identities then
      var user := db.identities[m];
      if user !in db.users then (db, Missing)
      else
        var account := db.users[user];
        (Recognised(db, user, email), if account.status == "active" then Known(user, account.role) else Inactive)
    else (Provisioned(db, m, newUser, email), Known(newUser, "user"))
  }

  function SessionOf(claims: IdTokens.Claims, user: UserId, role: string): Session
    requires claims.iat.Some?
  {
    Session(user, role, claims.amr, if claims.authTime.Some? then claims.authTime.value else claims.iat.value)
  }

  /** After the token is proven and not seen. */
  function Admitted(d: Door, claims: IdTokens.Claims, flow: Flow, c: Callback): (Door, Reply)
    requires claims.exp.Some? && claims.iat.Some?
  {
    var d1 := JtiStored(d, claims, c.at.stored);
    var (db, found) := Mapped(d1.db, claims, c.newUser);
    match found
    case Missing => (d1.(db := db), NoAccount)
    case Inactive => (d1.(db := db), NotActive)
    case Known(user, role) =>
      (d1.(db := db.(audit := db.audit + [LoginRow(user, c.ip)]),
           kv := Created(d1.kv, SessionOf(claims, user, role), c.newToken, c.at.created)),
       SignedIn(user, role, Destination(flow, role)))
  }

  ghost function CalledBack(d: Door, config: IdTokens.IssuerConfig, c: Callback): (Door, Reply) {
    var d0 := FlowTaken(d, c);
    if EarlyReply(c).Some? then (d0, EarlyReply(c).value)
    else if !Opens(d, c) then (d0, NoFlow)
    else if c.token.None? then (d0, NoToken)
    else if !TokenVerdict(d, config, c).Accepted? then (d0, BadToken)
    else if Seen(d0, TokenVerdict(d, config, c).claims, c.at.looked) then (d0, Replayed)
    else
      AcceptedClaims(d, config, c);
      Admitted(d0, TokenVerdict(d, config, c).claims, d.flows[c.state].value, c)
  }

  /** An accepted token is the callback's, was meant for the flow, and has not expired. */
  lemma AcceptedClaims(d: Door, config: IdTokens.IssuerConfig, c: Callback)
    requires Proven(d, config, c)
    ensures c.token.value.Jwt? && TokenVerdict(d, config, c).claims == ClaimsOf(c)
    ensures ClaimsOf(c).exp.Some? && ClaimsOf(c).iat.Some? && c.at.verified < ClaimsOf(c).exp.value + 60
    ensures ClaimsOf(c).nonce == Some(d.flows[c.state].value.nonce) && ClaimsOf(c).iss == config.issuer
  {
    IdTokens.AcceptedIff(c.token.value, config, None, Some(d.flows[c.state].value.nonce), c.at.verified, c.keys);
  }

  class SignInDesk {
    const config: IdTokens.IssuerConfig
    const db: Database
    const kv: SessionStore
    var flows: Table<string, Flow>
    var jtis: Table<string, bool>

    constructor (config: IdTokens.IssuerConfig, db: Database, kv: SessionStore)
      ensures this.config == config && this.db == db && this.kv == kv && flows == map[] && jtis == map[]
    {
      this.config, this.db, this.kv, flows, jtis := config, db, kv, map[], map[];
    }

    function State(): Door
      reads this, db, kv
    {
      Door(flows, jtis, db.State(), kv.State())
    }

    /** A visitor already signed in goes to the dashboard; a `next` is kept if it starts
        with a slash. */
    method Start(signedIn: bool, configured: bool, state: string, nonce: string, next: Option<string>, now: int)
      returns (reply: StartReply)
      modifies this`flows
      ensures reply == if signedIn then ToDashboard else if !configured then Unconfigured else ToProvider
      ensures State() == if reply.ToProvider? then Started(old(State()), state, nonce, next, now) else old(State())
    {
      if signedIn {
        return ToDashboard;
      }
      if !configured {
        return Unconfigured;
      }
      flows := flows[state := Timed(Flow(nonce, KeptNext(next)), Some(now + FLOW_TTL))];
      return ToProvider;
    }

    method MapMember(claims: IdTokens.Claims, newUser: UserId) returns (found: Found)
      modifies db
      ensures (db.State(), found) == Mapped(old(db.State()), claims, newUser)
    {
      var m, email := MemberOf(claims), claims.email.UnwrapOr("");
      var user := db.FindUserId(m);
      if user.Some? {
        if user.value !in db.users {
          return Missing;
        }
        var account := db.users[user.value];
        db.users := db.users[user.value := account.(email := email)];
        return if account.status == "active" then Known(user.value, account.role) else Inactive;
      }
      db.users := db.users[newUser := Account(email, "user", "active")];
      db.identities := db.identities[m := newUser];
      db.WriteAudit(ProvisionedRow(newUser));
      return Known(newUser, "user");
    }

    method HandleCallback(c: Callback) returns (reply: Reply)
      modifies this, db, kv
      ensures (State(), reply) == CalledBack(old(State()), config, c)
    {
      hide Mapped, IdTokens.Verified;
      ghost var before := State();
      if !c.configured {
        return NotConfigured;
      }
      if c.error != "" {
        return Declined;
      }
      if c.code == "" || c.state == "" {
        return MissingParameters;
      }
      if !Live(flows, c.state, c.at.found) {
        return NoFlow;
      }
      var flow := flows[c.state].value;
      flows := flows - {c.state};
      if c.token.None? {
        return NoToken;
      }
      var verdict := IdTokens.VerifyIdToken(c.token.value, config, None, Some(flow.nonce), c.at.verified, c.keys);
      if !verdict.Accepted? {
        return BadToken;
      }
      var claims := verdict.claims;
      AcceptedClaims(before, config, c);
      if HasJti(claims) {
        if Live(jtis, claims.jti.value, c.at.looked) {
          return Replayed;
        }
        jtis := jtis[claims.jti.value := Timed(true, Some(c.at.stored + JtiTtl(claims.exp.value, c.at.stored)))];
      }
      var found := MapMember(claims, c.newUser);
      if found.Missing? {
        return NoAccount;
      }
      if found.Inactive? {
        return NotActive;
      }
      db.WriteAudit(LoginRow(found.user, c.ip));
      kv.CreateSession(SessionOf(claims, found.user, found.role), c.newToken, c.at.created);
      return SignedIn(found.user, found.role, Destination(flow, found.role));
    }
  }

  datatype StartReply = ToDashboard | Unconfigured | ToProvider

  predicate StartsWithSlash(path: string) {
    path != "" && path[0] == '/'
  }

  function KeptNext(next: Option<string>): Option<string> {
    if next.Some? && StartsWithSlash(next.value) then next else None
  }

  function Started(d: Door, state: string, nonce: string, next: Option<string>, now: int): Door {
    d.(flows := d.flows[state := Timed(Flow(nonce, KeptNext(next)), Some(now + FLOW_TTL))])
  }

  // ---- Runs ----

  /** Besides flows, accounts and sessions may change in any way whatever. */
  datatype DoorEvent = StartFlow(state: string, nonce: string, next: Option<string>, now: int) | Finish(c: Callback)
                     | Elsewhere(db: Db, kv: SessionState)

  ghost function Next(d: Door, config: IdTokens.IssuerConfig, e: DoorEvent): Door {
    match e
    case StartFlow(state, nonce, next, now) => Started(d, state, nonce, next, now)
    case Finish(c) => CalledBack(d, config, c).0
    case Elsewhere(db, kv) => d.(db := db, kv := kv)
  }

  ghost function DoorAfter(d: Door, config: IdTokens.IssuerConfig, es: seq<DoorEvent>): Door {
    if es == [] then d else Next(DoorAfter(d, config, es[..|es| - 1]), config, es[|es| - 1])
  }

  /** The `i`th event is a callback that signs in with this token. */
  ghost predicate Completes(d: Door, config: IdTokens.IssuerConfig, es: seq<DoorEvent>, i: nat, t: IdTokens.Token) {
    && i < |es| && es[i].Finish? && es[i].c.token == Some(t)
    && CalledBack(DoorAfter(d, config, es[..i]), config, es[i].c).1.SignedIn?
  }

  // ---- At most once, by the nonce ----

  /** No flow expects this nonce. */
  predicate Spent(d: Door, nonce: string) {
    forall s :: s in d.flows ==> d.flows[s].value.nonce != nonce
  }

  predicate DistinctNonces(d: Door) {
    forall s, s' :: s in d.flows && s' in d.flows && d.flows[s].value.nonce == d.flows[s'].value.nonce ==> s == s'
  }

  predicate Issues(es: seq<DoorEvent>, nonce: string) {
    exists i :: 0 <= i < |es| && es[i].StartFlow? && es[i].nonce == nonce
  }

  /** Every started flow has a nonce that no flow before it had. */
  predicate FreshNonces(es: seq<DoorEvent>) {
    forall i, j :: 0 <= i < j < |es| && es[i].StartFlow? && es[j].StartFlow? ==> es[i].nonce != es[j].nonce
  }

  const CLOSED := Door(map[], map[], Db(map[], map[], map[], map[], []), SessionState(map[], map[]))

  lemma FlowsShrink(d: Door, config: IdTokens.IssuerConfig, c: Callback)
    ensures CalledBack(d, config, c).0.flows == FlowTaken(d, c).flows
  {
  }

  lemma IssuesSnoc(es: seq<DoorEvent>, nonce: string)
    requires es != []
    ensures Issues(es, nonce) <==>
              Issues(es[..|es| - 1], nonce) || (es[|es| - 1].StartFlow? && es[|es| - 1].nonce == nonce)
  {
    var n := |es| - 1;
    if Issues(es[..n], nonce) {
      var i :| 0 <= i < n && es[..n][i].StartFlow? && es[..n][i].nonce == nonce;
      assert es[i].StartFlow? && es[i].nonce == nonce;
    }
    if Issues(es, nonce) && !(es[n].StartFlow? && es[n].nonce == nonce) {
      var i :| 0 <= i < |es| && es[i].StartFlow? && es[i].nonce == nonce;
      assert es[..n][i] == es[i];
    }
  }

  lemma {:induction false} NoncesStayDistinct(config: IdTokens.IssuerConfig, es: seq<DoorEvent>)
    requires FreshNonces(es)
    ensures var d := DoorAfter(CLOSED, config, es);
            DistinctNonces(d) && forall nonce :: !Issues(es, nonce) ==> Spent(d, nonce)
  {
    hide CalledBack;
    if es != [] {
      var n := |es| - 1;
      NoncesStayDistinct(config, es[..n]);
      forall nonce
        ensures Issues(es[..n], nonce) ==> Issues(es, nonce)
        ensures es[n].StartFlow? && es[n].nonce == nonce ==> !Issues(es[..n], nonce)
      {
        IssuesSnoc(es, nonce);
      }
      var before := DoorAfter(CLOSED, config, es[..n]);
      if es[n].Finish? {
        FlowsShrink(before, config, es[n].c);
      } else if es[n].StartFlow? {
        assert Issues(es, es[n].nonce);
      }
    }
  }

  /** A spent nonce stays spent until it is issued again. */
  lemma {:induction false} SpentStays(d: Door, config: IdTokens.IssuerConfig, es: seq<DoorEvent>, nonce: string)
    requires Spent(d, nonce) && forall i :: 0 <= i < |es| && es[i].StartFlow? ==> es[i].nonce != nonce
    ensures Spent(DoorAfter(d, config, es), nonce)
  {
    hide CalledBack;
    if es != [] {
      var n := |es| - 1;
      SpentStays(d, config, es[..n], nonce);
      if es[n].Finish? {
        FlowsShrink(DoorAfter(d, config, es[..n]), config, es[n].c);
      }
    }
  }

  lemma {:induction false} DoorAfterConcat(d: Door, config: IdTokens.IssuerConfig, es: seq<DoorEvent>, fs: seq<DoorEvent>)
    ensures DoorAfter(d, config, es + fs) == DoorAfter(DoorAfter(d, config, es), config, fs)
  {
    hide CalledBack;
    if fs == [] {
      assert es + fs == es;
    } else {
      var n := |fs| - 1;
      assert (es + fs)[..|es + fs| - 1] == es + fs[..n];
      DoorAfterConcat(d, config, es, fs[..n]);
    }
  }

  /** Signing in with a token uses up the one flow that expects its nonce. */
  lemma SignInSpendsNonce(d: Door, config: IdTokens.IssuerConfig, c: Callback)
    requires DistinctNonces(d) && CalledBack(d, config, c).1.SignedIn?
    ensures Proven(d, config, c) && c.token.value.Jwt? && ClaimsOf(c).nonce.Some?
    ensures !Spent(d, ClaimsOf(c).nonce.value) && Spent(CalledBack(d, config, c).0, ClaimsOf(c).nonce.value)
  {
    AcceptedClaims(d, config, c);
    FlowsShrink(d, config, c);
  }

  /** The run from just after event `i` to just before event `j`. */
  lemma Between(d: Door, config: IdTokens.IssuerConfig, es: seq<DoorEvent>, i: nat, j: nat)
    requires i < j < |es|
    ensures DoorAfter(d, config, es[..j])
            == DoorAfter(Next(DoorAfter(d, config, es[..i]), config, es[i]), config, es[i + 1..j])
  {
    hide CalledBack;
    assert es[..i + 1][..i] == es[..i];
    assert es[..j] == es[..i + 1] + es[i + 1..j];
    DoorAfterConcat(d, config, es[..i + 1], es[i + 1..j]);
  }

  /** With fresh nonces an ID token, with or without a `jti`, completes at most one sign-in over any
      run, at whatever times and whatever else happens. */
  lemma TokenSignsInOnce(config: IdTokens.IssuerConfig, es: seq<DoorEvent>, t: IdTokens.Token, i: nat, j: nat)
    requires FreshNonces(es) && i < j
    ensures !(Completes(CLOSED, config, es, i, t) && Completes(CLOSED, config, es, j, t))
  {
    hide CalledBack, DoorAfter;
    if Completes(CLOSED, config, es, i, t) && Completes(CLOSED, config, es, j, t) {
      var d, d' := DoorAfter(CLOSED, config, es[..i]), DoorAfter(CLOSED, config, es[..j]);
      NoncesStayDistinct(config, es[..i]);
      NoncesStayDistinct(config, es[..j]);
      SignInSpendsNonce(d, config, es[i].c);
      SignInSpendsNonce(d', config, es[j].c);
      var nonce := t.claims.nonce.value;
      IssuedBefore(config, es, i, nonce);
      Between(CLOSED, config, es, i, j);
      SpentStays(Next(d, config, es[i]), config, es[i + 1..j], nonce);
      assert false;
    }
  }

  /** A nonce that a flow expects was issued, so with fresh nonces it is not issued again. */
  lemma IssuedBefore(config: IdTokens.IssuerConfig, es: seq<DoorEvent>, i: nat, nonce: string)
    requires FreshNonces(es) && i <= |es| && !Spent(DoorAfter(CLOSED, config, es[..i]), nonce)
    ensures forall k :: i <= k < |es| && es[k].StartFlow? ==> es[k].nonce != nonce
  {
    hide CalledBack, DoorAfter;
    NoncesStayDistinct(config, es[..i]);
    assert Issues(es[..i], nonce);
    var k :| 0 <= k < i && es[..i][k].StartFlow? && es[..i][k].nonce == nonce;
    assert es[k].StartFlow? && es[k].nonce == nonce;
  }

  // ---- At most once, by the token id, whatever the nonces ----

  /** The id is remembered at least until `until`. */
  predicate Remembered(d: Door, jti: string, until: int) {
    jti in d.jtis && d.jtis[jti].expires.Some? && d.jtis[jti].expires.value >= until
  }

  function KeptUntil(claims: IdTokens.Claims, stored: int): int
    requires claims.exp.Some?
  {
    stored + JtiTtl(claims.exp.value, stored)
  }

  /** What a callback does to the remembered ids: nothing, or, finding an id not remembered,
      remember it. */
  lemma JtisAfter(d: Door, config: IdTokens.IssuerConfig, c: Callback)
    ensures var d' := CalledBack(d, config, c).0;
            d'.jtis == d.jtis ||
            (Proven(d, config, c) && c.token.value.Jwt? && HasJti(ClaimsOf(c)) && ClaimsOf(c).exp.Some?
             && !Live(d.jtis, ClaimsOf(c).jti.value, c.at.looked)
             && d'.jtis == d.jtis[ClaimsOf(c).jti.value := Timed(true, Some(KeptUntil(ClaimsOf(c), c.at.stored)))])
  {
    if Proven(d, config, c) {
      AcceptedClaims(d, config, c);
    }
  }

  /** Signing in with an id means it was not remembered, and now is: to the end of the token's
      acceptance at least. */
  lemma SignInRemembers(d: Door, config: IdTokens.IssuerConfig, c: Callback)
    requires CalledBack(d, config, c).1.SignedIn? && c.token.Some? && c.token.value.Jwt? && HasJti(ClaimsOf(c))
    ensures ClaimsOf(c).exp.Some? && !Live(d.jtis, ClaimsOf(c).jti.value, c.at.looked)
    ensures CalledBack(d, config, c).0.jtis
            == d.jtis[ClaimsOf(c).jti.value := Timed(true, Some(KeptUntil(ClaimsOf(c), c.at.stored)))]
    ensures KeptUntil(ClaimsOf(c), c.at.stored) >= ClaimsOf(c).exp.value + 60
  {
    AcceptedClaims(d, config, c);
  }

  /** A remembered id stays remembered: a later callback replaces it only once it has expired, and
      by something longer. */
  lemma {:induction false} RememberedStays(d: Door, config: IdTokens.IssuerConfig, es: seq<DoorEvent>, jti: string, until: int)
    requires Remembered(d, jti, until) && forall i :: 0 <= i < |es| && es[i].Finish? ==> es[i].c.at.Ordered()
    ensures Remembered(DoorAfter(d, config, es), jti, until)
  {
    hide CalledBack;
    if es != [] {
      var n := |es| - 1;
      RememberedStays(d, config, es[..n], jti, until);
      if es[n].Finish? {
        JtisAfter(DoorAfter(d, config, es[..n]), config, es[n].c);
      }
    }
  }

  /** Two sign-ins with one token id, whatever the tokens and the nonces: the second one's lookup
      came after the first token could no longer be accepted. */
  lemma JtiSignInsAreApart(d: Door, config: IdTokens.IssuerConfig, es: seq<DoorEvent>, t: IdTokens.Token, t': IdTokens.Token,
                           i: nat, j: nat)
    requires i < j && Completes(d, config, es, i, t) && Completes(d, config, es, j, t')
    requires t.Jwt? && t'.Jwt? && HasJti(t.claims) && t'.claims.jti == t.claims.jti
    requires forall k :: 0 <= k < |es| && es[k].Finish? ==> es[k].c.at.Ordered()
    ensures t.claims.exp.Some? && es[j].c.at.looked >= KeptUntil(t.claims, es[i].c.at.stored) >= t.claims.exp.value + 60
  {
    hide CalledBack, DoorAfter;
    SignInRemembers(DoorAfter(d, config, es[..i]), config, es[i].c);
    SignInRemembers(DoorAfter(d, config, es[..j]), config, es[j].c);
    Between(d, config, es, i, j);
    RememberedStays(Next(DoorAfter(d, config, es[..i]), config, es[i]), config, es[i + 1..j], t.claims.jti.value,
                    KeptUntil(t.claims, es[i].c.at.stored));
  }

  /** So a token with an id signs in at most once, even where nonces repeat, provided a callback
      looks the id up before the clock passes the end of the token's acceptance. */
  lemma TokenIdSignsInOnce(d: Door, config: IdTokens.IssuerConfig, es: seq<DoorEvent>, t: IdTokens.Token, i: nat, j: nat)
    requires i < j < |es| && t.Jwt? && HasJti(t.claims) && t.claims.exp.Some?
    requires forall k :: 0 <= k < |es| && es[k].Finish? ==> es[k].c.at.Ordered()
    requires es[j].Finish? && es[j].c.at.looked < t.claims.exp.value + 60
    ensures !(Completes(d, config, es, i, t) && Completes(d, config, es, j, t))
  {
    hide CalledBack, DoorAfter;
    if Completes(d, config, es, i, t) && Completes(d, config, es, j, t) {
      JtiSignInsAreApart(d, config, es, t, t, i, j);
    }
  }

  /** Exactly when the guard works: the same token, proven again while its id is on record, is
      refused as replayed if and only if the lookup comes before the record expires. */
  lemma ReplayedIff(d: Door, config: IdTokens.IssuerConfig, c: Callback, d': Door, c': Callback)
    requires CalledBack(d, config, c).1.SignedIn? && c.token.Some? && c.token.value.Jwt? && HasJti(ClaimsOf(c))
    requires d'.jtis == CalledBack(d, config, c).0.jtis && Proven(d', config, c') && c'.token == c.token
    ensures ClaimsOf(c).exp.Some?
    ensures CalledBack(d', config, c').1 == Replayed <==> c'.at.looked < KeptUntil(ClaimsOf(c), c.at.stored)
  {
    SignInRemembers(d, config, c);
    AcceptedClaims(d', config, c');
    hide IdTokens.Verified;
    assert CalledBack(d', config, c').1 == Replayed <==> Seen(FlowTaken(d', c'), ClaimsOf(c'), c'.at.looked);
  }

  /** A token with an id that expires at 1000, accepted for a last time at 1059. */
  const KEY := IdTokens.Jwk("EC", None, None, 0)
  const ISSUER := IdTokens.IssuerConfig("issuer", IdTokens.ES256, "simtrader")
  const TOKEN := IdTokens.Jwt(map["alg" := "ES256"],
                              IdTokens.Claims("issuer", "subject", IdTokens.One("simtrader"), Some(1000), Some(900), None,
                                              Some("id"), Some("nonce"), None, [], None, None), {KEY})
  const EARLY := Callback(true, "", "code", "a", Some(TOKEN), Some([KEY]), Times(960, 960, 960, 960, 960), "first", "s", None)
  const LATE := Callback(true, "", "code", "b", Some(TOKEN), Some([KEY]), Times(1059, 1059, 1060, 1060, 1060), "second", "t",
                         None)
  const LATE_RUN := [StartFlow("a", "nonce", None, 950), Finish(EARLY), StartFlow("b", "nonce", None, 1050), Finish(LATE)]

  /** Otherwise it does not: with a repeated nonce, a callback that verifies the token in its last
      second and looks its id up in the next one signs in a second time. */
  lemma LateLookupSlipsThrough()
    ensures LATE.at.Ordered() && HasJti(TOKEN.claims)
    ensures Completes(CLOSED, ISSUER, LATE_RUN, 1, TOKEN) && Completes(CLOSED, ISSUER, LATE_RUN, 3, TOKEN)
  {
    var d1 := Started(CLOSED, "a", "nonce", None, 950);
    var d2 := CalledBack(d1, ISSUER, EARLY).0;
    var d3 := Started(d2, "b", "nonce", None, 1050);
    LateRun(d1, d2, d3);
    TokenProven(d1, EARLY);
    assert Completes(CLOSED, ISSUER, LATE_RUN, 1, TOKEN);
    TokenProven(d3, LATE);
    assert !Seen(FlowTaken(d3, LATE), TOKEN.claims, 1060);
  }

  lemma TokenProven(d: Door, c: Callback)
    requires c.token == Some(TOKEN) && c.keys == Some([KEY]) && 840 <= c.at.verified < 1060
    requires Opens(d, c) && d.flows[c.state].value.nonce == "nonce"
    ensures Proven(d, ISSUER, c) && TokenVerdict(d, ISSUER, c).claims == TOKEN.claims
  {
    IdTokens.AcceptedIff(TOKEN, ISSUER, None, Some("nonce"), c.at.verified, Some([KEY]));
    assert KEY in [KEY] && IdTokens.RightKey(KEY, TOKEN.header, ISSUER.alg);
  }

  lemma LateRun(d1: Door, d2: Door, d3: Door)
    requires d1 == Started(CLOSED, "a", "nonce", None, 950) && d2 == CalledBack(d1, ISSUER, EARLY).0
    requires d3 == Started(d2, "b", "nonce", None, 1050)
    ensures DoorAfter(CLOSED, ISSUER, LATE_RUN[..1]) == d1 && DoorAfter(CLOSED, ISSUER, LATE_RUN[..3]) == d3
  {
    hide CalledBack;
    assert LATE_RUN[..1][..0] == [] && LATE_RUN[..2][..1] == LATE_RUN[..1] && LATE_RUN[..3][..2] == LATE_RUN[..2];
    assert DoorAfter(CLOSED, ISSUER, LATE_RUN[..1][..0]) == CLOSED;
    assert DoorAfter(CLOSED, ISSUER, LATE_RUN[..2]) == d2;
  }

  // ---- The mapping ----

  /** No two members share a user. */
  predicate OneMemberEach(db: Db) {
    forall m, m' :: m in db.identities && m' in db.identities && db.identities[m] == db.identities[m'] ==> m == m'
  }

  /** Whom a member is stays, and nobody's role or status is touched. */
  predicate AccountsKept(db: Db, db': Db) {
    && (forall m :: m in db.identities ==> m in db'.identities && db'.identities[m] == db.identities[m])
    && (forall u :: u in db.users ==>
          u in db'.users && db'.users[u].role == db.users[u].role && db'.users[u].status == db.users[u].status)
    && (forall u :: u in db'.users && u !in db.users ==> db'.users[u].role == "user" && db'.users[u].status == "active")
  }

  ghost predicate SoundAccounts(db: Db) {
    Integrity(db) && OneMemberEach(db)
  }

  lemma ProvisioningKeeps(db: Db, m: Member, user: UserId, email: string)
    requires SoundAccounts(db) && m !in db.identities && user !in db.users
    ensures SoundAccounts(Provisioned(db, m, user, email)) && AccountsKept(db, Provisioned(db, m, user, email))
  {
  }

  lemma RecognitionKeeps(db: Db, user: UserId, email: string)
    requires SoundAccounts(db) && user in db.users
    ensures SoundAccounts(Recognised(db, user, email)) && AccountsKept(db, Recognised(db, user, email))
  {
  }

  lemma MappedKeeps(db: Db, claims: IdTokens.Claims, newUser: UserId)
    requires SoundAccounts(db) && newUser !in db.users
    ensures var (db', found) := Mapped(db, claims, newUser);
            && SoundAccounts(db') && AccountsKept(db, db') && !found.Missing?
            && MemberOf(claims) in db'.identities
            && (found.Known? ==>
                  && db'.identities[MemberOf(claims)] == found.user && found.user in db'.users
                  && db'.users[found.user].role == found.role && db'.users[found.user].status == "active")
  {
    hide SoundAccounts, AccountsKept;
    var m := MemberOf(claims);
    IdentitiesHaveUsers(db, m);
    if m in db.identities {
      RecognitionKeeps(db, db.identities[m], claims.email.UnwrapOr(""));
    } else {
      ProvisioningKeeps(db, m, newUser, claims.email.UnwrapOr(""));
    }
  }

  lemma IdentitiesHaveUsers(db: Db, m: Member)
    requires SoundAccounts(db)
    ensures m in db.identities ==> db.identities[m] in db.users
  {
  }

  /** What a sign-in amounts to: the token was proven for a flow that was open and now is not; the
      session is the mapped user's, with that user's role, and the user is active; everyone else's
      mapping, role and status is as before. */
  lemma SignedInMeans(d: Door, config: IdTokens.IssuerConfig, c: Callback)
    requires SoundAccounts(d.db) && c.newUser !in d.db.users && CalledBack(d, config, c).1.SignedIn?
    ensures var (d', reply) := CalledBack(d, config, c);
            && Proven(d, config, c) && c.state !in d'.flows && c.token.value.Jwt?
            && MemberOf(ClaimsOf(c)) in d'.db.identities && d'.db.identities[MemberOf(ClaimsOf(c))] == reply.user
            && reply.user in d'.db.users && d'.db.users[reply.user].role == reply.role
            && d'.db.users[reply.user].status == "active"
            && Live(d'.kv.sessions, c.newToken, c.at.created)
            && d'.kv.sessions[c.newToken].value.userId == reply.user && d'.kv.sessions[c.newToken].value.role == reply.role
            && AccountsKept(d.db, d'.db)
  {
    hide Mapped, IdTokens.Verified, SoundAccounts;
    AcceptedClaims(d, config, c);
    MappedKeeps(d.db, ClaimsOf(c), c.newUser);
  }

  /** What a callback does to the accounts: nothing, or mapping the member, or that and a login row. */
  lemma CallbackMaps(d: Door, config: IdTokens.IssuerConfig, c: Callback)
    ensures var db' := CalledBack(d, config, c).0.db;
            db' == d.db ||
            (c.token.Some? && c.token.value.Jwt? &&
             var (db, found) := Mapped(d.db, ClaimsOf(c), c.newUser);
             db' == db || (found.Known? && db' == db.(audit := db.audit + [LoginRow(found.user, c.ip)])))
  {
    hide Mapped, IdTokens.Verified;
    if Proven(d, config, c) {
      AcceptedClaims(d, config, c);
    }
  }

  lemma LoginKeeps(db: Db, user: UserId, ip: Option<string>)
    requires SoundAccounts(db) && user in db.users
    ensures SoundAccounts(db.(audit := db.audit + [LoginRow(user, ip)]))
  {
  }

  lemma CallbackKeepsAccounts(d: Door, config: IdTokens.IssuerConfig, c: Callback)
    requires SoundAccounts(d.db) && c.newUser !in d.db.users
    ensures SoundAccounts(CalledBack(d, config, c).0.db) && AccountsKept(d.db, CalledBack(d, config, c).0.db)
  {
    hide CalledBack, Mapped, Integrity, OneMemberEach;
    CallbackMaps(d, config, c);
    if c.token.Some? && c.token.value.Jwt? {
      MappedKeeps(d.db, ClaimsOf(c), c.newUser);
      var (db, found) := Mapped(d.db, ClaimsOf(c), c.newUser);
      if found.Known? {
        LoginKeeps(db, found.user, c.ip);
      }
    }
  }

  /** Only flows and callbacks, whose user ids are new. */
  ghost predicate DoorOnly(d: Door, config: IdTokens.IssuerConfig, es: seq<DoorEvent>) {
    es != [] ==>
      var n := |es| - 1;
      && DoorOnly(d, config, es[..n]) && !es[n].Elsewhere?
      && (es[n].Finish? ==> es[n].c.newUser !in DoorAfter(d, config, es[..n]).db.users)
  }

  /** Over any run of sign-ins, a member is the same user for good, no two members ever share one,
      whatever their emails, and signing in never makes an administrator or revives an account. */
  lemma {:induction false} MappingIsStable(d: Door, config: IdTokens.IssuerConfig, es: seq<DoorEvent>)
    requires SoundAccounts(d.db) && DoorOnly(d, config, es)
    ensures var d' := DoorAfter(d, config, es);
            SoundAccounts(d'.db) && AccountsKept(d.db, d'.db)
  {
    hide CalledBack, SoundAccounts;
    if es != [] {
      var n := |es| - 1;
      MappingIsStable(d, config, es[..n]);
      if es[n].Finish? {
        CallbackKeepsAccounts(DoorAfter(d, config, es[..n]), config, es[n].c);
      }
    }
  }

  // ---- Where a sign-in leads ----

  /** What a browser drops from a URL before it reads it: tabs and line ends. */
  function Stripped(path: string): string {
    if path == "" then ""
    else if path[0] in {'\t', '\n', '\r'} then Stripped(path[1..])
    else [path[0]] + Stripped(path[1..])
  }

  /** A reference that a browser resolves to this site, whatever follows: a slash, and no second slash
      or backslash, which would start the name of another host. */
  predicate OnSite(path: string) {
    var p := Stripped(path);
    p != "" && p[0] == '/' && (|p| > 1 ==> p[1] != '/' && p[1] != '\\')
  }

  /** The latest start of a flow with this state. */
  function StartOf(es: seq<DoorEvent>, state: string): Option<DoorEvent> {
    if es == [] then None
    else
      var e := es[|es| - 1];
      if e.StartFlow? && e.state == state then Some(e) else StartOf(es[..|es| - 1], state)
  }

  /** A remembered flow is what its latest start put there. */
  predicate FlowsFromStarts(d: Door, es: seq<DoorEvent>) {
    forall s :: s in d.flows ==>
      var e := StartOf(es, s);
      e.Some? && e.value.StartFlow? && d.flows[s].value == Flow(e.value.nonce, KeptNext(e.value.next))
  }

  lemma {:induction false} FlowsComeFromStarts(config: IdTokens.IssuerConfig, es: seq<DoorEvent>)
    ensures FlowsFromStarts(DoorAfter(CLOSED, config, es), es)
  {
    hide CalledBack, KeptNext;
    if es != [] {
      var n := |es| - 1;
      FlowsComeFromStarts(config, es[..n]);
      if es[n].Finish? {
        FlowsShrink(DoorAfter(CLOSED, config, es[..n]), config, es[n].c);
      }
    }
  }

  lemma DestinationOfReply(d: Door, config: IdTokens.IssuerConfig, c: Callback)
    requires CalledBack(d, config, c).1.SignedIn?
    ensures Opens(d, c)
    ensures var reply := CalledBack(d, config, c).1;
            reply.destination == Destination(d.flows[c.state].value, reply.role)
  {
    hide Mapped, IdTokens.Verified;
  }

  lemma DashboardsAreOnSite()
    ensures OnSite("/admin") && OnSite("/dashboard")
  {
    StrippedTwo("/admin");
    StrippedTwo("/dashboard");
  }

  lemma StrippedTwo(path: string)
    requires |path| >= 2 && path[0] !in {'\t', '\n', '\r'} && path[1] !in {'\t', '\n', '\r'}
    ensures |Stripped(path)| >= 2 && Stripped(path)[0] == path[0] && Stripped(path)[1] == path[1]
  {
    assert Stripped(path) == [path[0]] + Stripped(path[1..]);
    assert Stripped(path[1..]) == [path[1]] + Stripped(path[1..][1..]);
  }

  /** What the start handler asks of `next` is not enough to keep the browser here. After any run, a
      sign-in leads to this site if and only if the `next` given when its flow was started was
      absent, or did not start with a slash and was dropped, or leads to this site itself. */
  lemma DestinationOnSiteIff(config: IdTokens.IssuerConfig, es: seq<DoorEvent>, c: Callback)
    requires CalledBack(DoorAfter(CLOSED, config, es), config, c).1.SignedIn?
    ensures StartOf(es, c.state).Some? && StartOf(es, c.state).value.StartFlow?
    ensures var next := StartOf(es, c.state).value.next;
            OnSite(CalledBack(DoorAfter(CLOSED, config, es), config, c).1.destination)
            <==> next.None? || !StartsWithSlash(next.value) || OnSite(next.value)
  {
    hide CalledBack, DoorAfter, OnSite, StartsWithSlash;
    FlowsComeFromStarts(config, es);
    DestinationOfReply(DoorAfter(CLOSED, config, es), config, c);
    DashboardsAreOnSite();
  }

  const ELSEWHERE := "//other.example/"

  /** A `next` that passes the start handler's test and does not lead here. */
  lemma DestinationMayLeave()
    ensures var es := [StartFlow("a", "nonce", Some(ELSEWHERE), 950)];
            && CalledBack(DoorAfter(CLOSED, ISSUER, es), ISSUER, EARLY).1 == SignedIn("first", "user", ELSEWHERE)
            && !OnSite(ELSEWHERE)
  {
    var e := StartFlow("a", "nonce", Some(ELSEWHERE), 950);
    var d := Started(CLOSED, "a", "nonce", Some(ELSEWHERE), 950);
    assert [e][..0] == [];
    assert DoorAfter(CLOSED, ISSUER, [e]) == d;
    TokenProven(d, EARLY);
    assert !Seen(FlowTaken(d, EARLY), TOKEN.claims, 960);
    StrippedTwo(ELSEWHERE);
  }
}

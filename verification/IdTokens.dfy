/** workers/src/lib/sso-jwt.ts: the checks an identity token has to pass. Parsing is done, and
    whether a key's signature verifies is an input. */
module IdTokens {
  import opened Core

  datatype Audience = One(name: string) | Many(names: seq<string>)

  /** Numeric claims are absent when they are missing or not numbers. */
  datatype Claims = Claims(iss: string, sub: string, aud: Audience, exp: Option<int>, iat: Option<int>, nbf: Option<int>,
                           jti: Option<string>, nonce: Option<string>, authTime: Option<int>, amr: seq<string>,
                           email: Option<string>, event: Option<string>)

  datatype Jwk = Jwk(kty: string, kid: Option<string>, alg: Option<string>, serial: nat)

  /** A token as received: unreadable, or its parts and the keys its signature verifies under. */
  datatype Token = Unreadable | Jwt(header: map<string, string>, claims: Claims, signers: set<Jwk>)

  datatype Alg = ES256 | RS256

  datatype IssuerConfig = IssuerConfig(issuer: string, alg: Alg, audience: string)

  datatype Failure = Malformed | TypMismatch | AlgNotAllowed | IssuerMismatch | AudienceMismatch | ExpMissing | Expired
                   | IatMissing | IatInFuture | NotYetValid | NonceMismatch | JwksUnavailable | NoMatchingKey | BadSignature

  datatype Verdict = Accepted(claims: Claims) | Refused(failure: Failure)

  const IDENTITY_EVENT_TYP := "identity-event"
  const LEEWAY := 60

  function AlgName(alg: Alg): string {
    match alg
    case ES256 => "ES256"
    case RS256 => "RS256"
  }

  function ExpectedKty(alg: Alg): string {
    match alg
    case ES256 => "EC"
    case RS256 => "RSA"
  }

  function HeaderField(header: map<string, string>, name: string): Option<string> {
    if name in header then Some(header[name]) else None
  }

  /** With a `typ` asked for, exactly that one; without, any but the events'. */
  predicate TypFits(header: map<string, string>, typ: Option<string>) {
    if typ.Some? then HeaderField(header, "typ") == typ else HeaderField(header, "typ") != Some(IDENTITY_EVENT_TYP)
  }

  predicate AudienceFits(aud: Audience, audience: string) {
    match aud
    case One(name) => name == audience
    case Many(names) => audience in names
  }

  predicate KeyFits(k: Jwk, alg: Alg, kid: Option<string>) {
    && k.kty == ExpectedKty(alg)
    && (k.alg.None? || k.alg.value == AlgName(alg))
    && (kid.Some? && kid.value != "" ==> k.kid == kid)
  }

  function Candidates(keys: seq<Jwk>, alg: Alg, kid: Option<string>): (cs: seq<Jwk>)
    ensures forall k :: k in cs <==> k in keys && KeyFits(k, alg, kid)
  {
    if keys == [] then []
    else
      var k := keys[|keys| - 1];
      assert keys == keys[..|keys| - 1] + [k];
      Candidates(keys[..|keys| - 1], alg, kid) + if KeyFits(k, alg, kid) then [k] else []
  }

  /** The first claim check that fails. */
  function ClaimFailure(header: map<string, string>, c: Claims, config: IssuerConfig, typ: Option<string>,
                        nonce: Option<string>, now: int): Option<Failure> {
    if !TypFits(header, typ) then Some(TypMismatch)
    else if HeaderField(header, "alg") != Some(AlgName(config.alg)) then Some(AlgNotAllowed)
    else if c.iss != config.issuer then Some(IssuerMismatch)
    else if !AudienceFits(c.aud, config.audience) then Some(AudienceMismatch)
    else if c.exp.None? then Some(ExpMissing)
    else if c.exp.value + LEEWAY <= now then Some(Expired)
    else if c.iat.None? then Some(IatMissing)
    else if c.iat.value - LEEWAY > now then Some(IatInFuture)
    else if c.nbf.Some? && c.nbf.value - LEEWAY > now then Some(NotYetValid)
    else if nonce.Some? && c.nonce != nonce then Some(NonceMismatch)
    else None
  }

  /** The verdict; `keys` is what the issuer's key set answered, if it did. */
  ghost function Verified(t: Token, config: IssuerConfig, typ: Option<string>, nonce: Option<string>, now: int,
                          keys: Option<seq<Jwk>>): Verdict {
    if t.Unreadable? then Refused(Malformed)
    else
      var failure := ClaimFailure(t.header, t.claims, config, typ, nonce, now);
      if failure.Some? then Refused(failure.value)
      else if keys.None? then Refused(JwksUnavailable)
      else
        var candidates := Candidates(keys.value, config.alg, HeaderField(t.header, "kid"));
        if candidates == [] then Refused(NoMatchingKey)
        else if exists k :: k in candidates && k in t.signers then Accepted(t.claims)
        else Refused(BadSignature)
  }

  method VerifyIdToken(t: Token, config: IssuerConfig, typ: Option<string>, nonce: Option<string>, now: int,
                       keys: Option<seq<Jwk>>) returns (v: Verdict)
    ensures v == Verified(t, config, typ, nonce, now, keys)
  {
    if t.Unreadable? {
      return Refused(Malformed);
    }
    var failure := ClaimFailure(t.header, t.claims, config, typ, nonce, now);
    if failure.Some? {
      return Refused(failure.value);
    }
    if keys.None? {
      return Refused(JwksUnavailable);
    }
    var candidates := Candidates(keys.value, config.alg, HeaderField(t.header, "kid"));
    if |candidates| == 0 {
      return Refused(NoMatchingKey);
    }
    for i := 0 to |candidates|
      invariant forall j :: 0 <= j < i ==> candidates[j] !in t.signers
    {
      if candidates[i] in t.signers {
        return Accepted(t.claims);
      }
    }
    return Refused(BadSignature);
  }

  /** A header that says it is an event's, and one that is the right kind: the one asked for, or any
      but an event's. */
  predicate RightTyp(header: map<string, string>, typ: Option<string>) {
    if typ.Some? then "typ" in header && header["typ"] == typ.value
    else "typ" !in header || header["typ"] != "identity-event"
  }

  predicate MeantFor(aud: Audience, audience: string) {
    (aud.One? && aud.name == audience) || (aud.Many? && exists i :: 0 <= i < |aud.names| && aud.names[i] == audience)
  }

  /** One of the issuer's keys that the token may have been signed with: of the algorithm's type, meant
      for no other algorithm, and the one the header names, if it names one. */
  predicate RightKey(k: Jwk, header: map<string, string>, alg: Alg) {
    && k.kty == (if alg.ES256? then "EC" else "RSA")
    && (k.alg.Some? ==> k.alg.value == if alg.ES256? then "ES256" else "RS256")
    && ("kid" in header && header["kid"] != "" ==> k.kid == Some(header["kid"]))
  }

  lemma CandidatesAreRight(keys: seq<Jwk>, header: map<string, string>, alg: Alg)
    ensures var cs := Candidates(keys, alg, HeaderField(header, "kid"));
            (forall k :: k in cs <==> k in keys && RightKey(k, header, alg)) && (cs != [] ==> cs[0] in cs)
  {
  }

  /** What acceptance takes, in whatever order it is looked at: the right issuer, audience and
      algorithm, a time in the token's window with a minute of leeway, the nonce asked for, and a
      signature by one of the issuer's keys of the right type. */
  lemma AcceptedIff(t: Token, config: IssuerConfig, typ: Option<string>, nonce: Option<string>, now: int, keys: Option<seq<Jwk>>)
    ensures Verified(t, config, typ, nonce, now, keys).Accepted? <==>
              && t.Jwt? && keys.Some?
              && RightTyp(t.header, typ)
              && "alg" in t.header && t.header["alg"] == (if config.alg.ES256? then "ES256" else "RS256")
              && t.claims.iss == config.issuer && MeantFor(t.claims.aud, config.audience)
              && (nonce.Some? ==> t.claims.nonce == nonce)
              && t.claims.exp.Some? && t.claims.iat.Some?
              && t.claims.iat.value - 60 <= now < t.claims.exp.value + 60
              && (t.claims.nbf.Some? ==> t.claims.nbf.value - 60 <= now)
              && exists k :: k in keys.value && RightKey(k, t.header, config.alg) && k in t.signers
  {
    hide Candidates, RightKey;
    if t.Jwt? && keys.Some? {
      var candidates := Candidates(keys.value, config.alg, HeaderField(t.header, "kid"));
      CandidatesAreRight(keys.value, t.header, config.alg);
      if k :| k in keys.value && RightKey(k, t.header, config.alg) && k in t.signers {
        assert k in candidates;
      }
    }
  }

  /** The checks of a readable token's header and claims, in the order in which they are made. */
  const CLAIM_CHECKS := [TypMismatch, AlgNotAllowed, IssuerMismatch, AudienceMismatch, ExpMissing, Expired, IatMissing,
                         IatInFuture, NotYetValid, NonceMismatch]

  /** The token fails the check that this reason stands for. */
  predicate Fails(reason: Failure, header: map<string, string>, c: Claims, config: IssuerConfig, typ: Option<string>,
                  nonce: Option<string>, now: int) {
    match reason
    case TypMismatch => !RightTyp(header, typ)
    case AlgNotAllowed => "alg" !in header || header["alg"] != if config.alg.ES256? then "ES256" else "RS256"
    case IssuerMismatch => c.iss != config.issuer
    case AudienceMismatch => !MeantFor(c.aud, config.audience)
    case ExpMissing => c.exp.None?
    case Expired => c.exp.Some? && now >= c.exp.value + 60
    case IatMissing => c.iat.None?
    case IatInFuture => c.iat.Some? && now < c.iat.value - 60
    case NotYetValid => c.nbf.Some? && now < c.nbf.value - 60
    case NonceMismatch => nonce.Some? && c.nonce != nonce
    case _ => false
  }

  predicate FailsFirst(i: nat, header: map<string, string>, c: Claims, config: IssuerConfig, typ: Option<string>,
                       nonce: Option<string>, now: int)
    requires i <= |CLAIM_CHECKS|
  {
    && (i < |CLAIM_CHECKS| ==> Fails(CLAIM_CHECKS[i], header, c, config, typ, nonce, now))
    && forall j :: 0 <= j < i ==> !Fails(CLAIM_CHECKS[j], header, c, config, typ, nonce, now)
  }

  lemma ClaimChecks()
    ensures var r := CLAIM_CHECKS;
            && r[0].TypMismatch? && r[1].AlgNotAllowed? && r[2].IssuerMismatch? && r[3].AudienceMismatch? && r[4].ExpMissing?
            && r[5].Expired? && r[6].IatMissing? && r[7].IatInFuture? && r[8].NotYetValid? && r[9].NonceMismatch?
  {
  }

  lemma FirstClaimFailure(header: map<string, string>, c: Claims, config: IssuerConfig, typ: Option<string>,
                          nonce: Option<string>, now: int, i: nat)
    requires i <= |CLAIM_CHECKS| && FailsFirst(i, header, c, config, typ, nonce, now)
    ensures ClaimFailure(header, c, config, typ, nonce, now) == if i < |CLAIM_CHECKS| then Some(CLAIM_CHECKS[i]) else None
  {
    ClaimChecks();
  }

  /** Why a token is refused: it cannot be read; or it fails a check of its header and claims, and then
      the first that it fails is the reason; or, all of them passed, the keys cannot be had, none of
      them could have signed it, or none of those did. */
  lemma RefusalsSayWhy(t: Token, config: IssuerConfig, typ: Option<string>, nonce: Option<string>, now: int,
                       keys: Option<seq<Jwk>>, i: nat)
    requires t.Jwt? ==> i <= |CLAIM_CHECKS| && FailsFirst(i, t.header, t.claims, config, typ, nonce, now)
    ensures var v := Verified(t, config, typ, nonce, now, keys);
            if t.Unreadable? then v == Refused(Malformed)
            else if i < |CLAIM_CHECKS| then v == Refused(CLAIM_CHECKS[i])
            else
              && (v == Refused(JwksUnavailable) <==> keys.None?)
              && (v == Refused(NoMatchingKey) <==>
                    keys.Some? && forall k :: k in keys.value ==> !RightKey(k, t.header, config.alg))
              && (v == Refused(BadSignature) <==>
                    && keys.Some? && (exists k :: k in keys.value && RightKey(k, t.header, config.alg))
                    && forall k :: k in keys.value && RightKey(k, t.header, config.alg) ==> k !in t.signers)
  {
    hide Candidates, RightKey, ClaimFailure, FailsFirst;
    if t.Jwt? {
      FirstClaimFailure(t.header, t.claims, config, typ, nonce, now, i);
      if keys.Some? {
        CandidatesAreRight(keys.value, t.header, config.alg);
      }
    }
  }

  /** One key signs both, and the header keeps them apart: no token is both a sign-in and an event,
      whenever and with whatever nonces and key sets it is shown. */
  lemma SignInsAreNotEvents(t: Token, config: IssuerConfig, nonce: Option<string>, nonce': Option<string>, now: int, later: int,
                            keys: Option<seq<Jwk>>, keys': Option<seq<Jwk>>)
    requires Verified(t, config, None, nonce, now, keys).Accepted?
    ensures Verified(t, config, Some(IDENTITY_EVENT_TYP), nonce', later, keys') == Refused(TypMismatch)
  {
  }

  // ---- Receiving an event ----

  datatype Reception = Genuine(event: string) | TurnedAway(status: int, failure: Option<Failure>)

  const KNOWN_EVENTS := {"user.deleted", "user.suspended", "user.sessions_revoked"}

  /** An unreachable key set is the receiver's problem and can be retried; a bad token cannot. */
  function Received(v: Verdict): Reception {
    match v
    case Refused(failure) => TurnedAway(if failure.JwksUnavailable? then 503 else 401, Some(failure))
    case Accepted(claims) =>
      if claims.event.None? || claims.event.value !in KNOWN_EVENTS then TurnedAway(400, None)
      else Genuine(claims.event.value)
  }

  /** The provider retries on 503 and gives up on 401 and 400; no token is ever given up on for want
      of the keys to check it with, and 503 says nothing else. */
  lemma RetriedIffKeysUnavailable(t: Token, config: IssuerConfig, now: int, keys: Option<seq<Jwk>>)
    ensures var r := Received(Verified(t, config, Some(IDENTITY_EVENT_TYP), None, now, keys));
            r.TurnedAway? && r.status == 503 <==>
              keys.None? && t.Jwt? && ClaimFailure(t.header, t.claims, config, Some(IDENTITY_EVENT_TYP), None, now).None?
  {
  }
}

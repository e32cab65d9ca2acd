/** The Worker's database tables that hang off `users`, with the foreign keys of the migrations
    under alembic/versions: a user's identities, broker tokens and signal actions go when the user
    goes (ON DELETE CASCADE), and audit rows stay but stop pointing (ON DELETE SET NULL). */
module Accounts {
  import opened Core
  import opened Sessions

  /** A person as the identity provider names them: issuer and subject, never an email. */
  datatype Member = Member(iss: string, sub: string)

  datatype Account = Account(email: string, role: string, status: string)

  datatype AuditRow = AuditRow(actor: Option<UserId>, target: Option<UserId>, action: string, detail: map<string, string>,
                               ip: Option<string>)

  /** `identities` is unique in (iss, sub); the row tables map a row's id to its user. */
  datatype Db = Db(users: map<UserId, Account>, identities: map<Member, UserId>, brokerTokens: map<nat, UserId>,
                   actions: map<nat, UserId>, audit: seq<AuditRow>)

  predicate Refers(r: AuditRow, user: UserId) {
    r.actor == Some(user) || r.target == Some(user)
  }

  function Unpointed(pointer: Option<UserId>, user: UserId): Option<UserId> {
    if pointer == Some(user) then None else pointer
  }

  /** The row with the user's address and every pointer to the user gone. */
  function Scrubbed(r: AuditRow, user: UserId): AuditRow {
    AuditRow(Unpointed(r.actor, user), Unpointed(r.target, user), r.action, r.detail, if Refers(r, user) then None else r.ip)
  }

  function ScrubbedAll(rows: seq<AuditRow>, user: UserId): seq<AuditRow> {
    seq(|rows|, i requires 0 <= i < |rows| => Scrubbed(rows[i], user))
  }

  function Without<K, V(==)>(rows: map<K, V>, owner: V): map<K, V> {
    map k | k in rows && rows[k] != owner :: rows[k]
  }

  /** The erasing transaction, cascades included. */
  function ErasedFrom(db: Db, user: UserId): Db {
    Db(db.users - {user}, Without(db.identities, user), Without(db.brokerTokens, user), Without(db.actions, user),
       ScrubbedAll(db.audit, user))
  }

  /** The foreign keys: nothing points at a user that is not there. */
  ghost predicate Integrity(db: Db) {
    && (forall m :: m in db.identities ==> db.identities[m] in db.users)
    && (forall k :: k in db.brokerTokens ==> db.brokerTokens[k] in db.users)
    && (forall k :: k in db.actions ==> db.actions[k] in db.users)
    && forall i :: 0 <= i < |db.audit| ==>
         && (db.audit[i].actor.Some? ==> db.audit[i].actor.value in db.users)
         && (db.audit[i].target.Some? ==> db.audit[i].target.value in db.users)
  }

  lemma ErasingKeepsIntegrity(db: Db, user: UserId)
    requires Integrity(db)
    ensures Integrity(ErasedFrom(db, user))
  {
  }

  class Database {
    var users: map<UserId, Account>
    var identities: map<Member, UserId>
    var brokerTokens: map<nat, UserId>
    var actions: map<nat, UserId>
    var audit: seq<AuditRow>

    constructor (db: Db)
      ensures State() == db
    {
      users, identities, brokerTokens, actions, audit := db.users, db.identities, db.brokerTokens, db.actions, db.audit;
    }

    function State(): Db
      reads this
    {
      Db(users, identities, brokerTokens, actions, audit)
    }

    method FindUserId(m: Member) returns (user: Option<UserId>)
      ensures user.Some? <==> m in identities
      ensures user.Some? ==> user.value == identities[m]
    {
      user := if m in identities then Some(identities[m]) else None;
    }

    /** One transaction: the addresses first, while the rows still point at the user. */
    method EraseUser(user: UserId)
      modifies this
      ensures State() == ErasedFrom(old(State()), user)
    {
      var rows := audit;
      rows := seq(|rows|, i requires 0 <= i < |rows| => if Refers(rows[i], user) then rows[i].(ip := None) else rows[i]);
      users := users - {user};
      identities, brokerTokens, actions := Without(identities, user), Without(brokerTokens, user), Without(actions, user);
      audit := seq(|rows|, i requires 0 <= i < |rows| =>
        rows[i].(actor := Unpointed(rows[i].actor, user), target := Unpointed(rows[i].target, user)));
    }

    method WriteAudit(row: AuditRow)
      modifies this`audit
      ensures State() == old(State()).(audit := old(audit) + [row])
    {
      audit := audit + [row];
    }
  }
}

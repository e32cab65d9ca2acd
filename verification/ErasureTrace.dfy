/** What is left in the audit trail of a member after erasure: exactly when some row's detail still
    names the erased user. */
module ErasureTrace {
  import opened Core
  import opened Sessions
  import opened Accounts
  import opened IdentityEvents

  /** A delivery of some event of the member, and how far it gets. */
  datatype Notice = Notice(now: int, e: IdentityEvent, stop: Stop)

  function NoticedAll(w: Site, ns: seq<Notice>): Site {
    if ns == [] then w
    else
      var n := ns[|ns| - 1];
      Delivered(NoticedAll(w, ns[..|ns| - 1]), n.e, n.now, n.stop)
  }

  predicate Names(r: AuditRow, user: UserId) {
    user in r.detail.Values
  }

  predicate NamedIn(rows: seq<AuditRow>, user: UserId) {
    exists i :: 0 <= i < |rows| && Names(rows[i], user)
  }

  /** The delivery gets as far as the erasing transaction. */
  predicate Erases(n: Notice) {
    n.e.kind.UserDeleted? && (n.stop.BeforeAudit? || n.stop.Never?)
  }

  /** The delivery writes a row that names the user: a suspension or revocation that is through
      does, under `user_id`; a deletion that is through does only if the provider's own id of the
      event happens to be the user's. */
  predicate Leaves(n: Notice, user: UserId) {
    n.stop.Never? && (!n.e.kind.UserDeleted? || n.e.jti == Some(user))
  }

  predicate LeftIn(ns: seq<Notice>, user: UserId) {
    exists i :: 0 <= i < |ns| && Leaves(ns[i], user)
  }

  /** The words the rows are made of; a user id is none of them. */
  const WORDS := {"", "budgetapp", "user.deleted", "user.suspended", "user.sessions_revoked"}

  lemma EndedNames(e: IdentityEvent, user: UserId)
    ensures Names(EndedRow(e, user), user)
  {
    assert EndedRow(e, user).detail["user_id"] == user;
  }

  lemma ErasedNamesIff(e: IdentityEvent, user: UserId)
    requires user !in WORDS
    ensures Names(ErasedRow(e), user) <==> e.jti == Some(user)
  {
    var detail := ErasedRow(e).detail;
    assert detail["jti"] == e.jti.UnwrapOr("");
    assert forall k :: k in detail ==> k in {"source", "event", "jti"};
  }

  lemma ScrubbingKeepsNames(rows: seq<AuditRow>, user: UserId)
    ensures NamedIn(ScrubbedAll(rows, user), user) <==> NamedIn(rows, user)
  {
    var scrubbed := ScrubbedAll(rows, user);
    assert forall i :: 0 <= i < |rows| ==> (Names(scrubbed[i], user) <==> Names(rows[i], user));
  }

  lemma NamedSnoc(rows: seq<AuditRow>, r: AuditRow, user: UserId)
    ensures NamedIn(rows + [r], user) <==> NamedIn(rows, user) || Names(r, user)
  {
    assert (rows + [r])[|rows|] == r;
    if NamedIn(rows, user) {
      var i :| 0 <= i < |rows| && Names(rows[i], user);
      assert (rows + [r])[i] == rows[i];
    }
  }

  /** One delivery to a linked member. */
  lemma NoticeStep(w: Site, n: Notice, user: UserId)
    requires user !in WORDS && Linked(w, n.e.member, user)
    ensures var w' := Delivered(w, n.e, n.now, n.stop);
            && (NamedIn(w'.db.audit, user) <==> NamedIn(w.db.audit, user) || Leaves(n, user))
            && (if Erases(n) then n.e.member !in w'.db.identities && user !in w'.db.users else Linked(w', n.e.member, user))
  {
    hide NamedIn, Names, ErasedRow, EndedRow;
    ScrubbingKeepsNames(w.db.audit, user);
    NamedSnoc(w.db.audit, EndedRow(n.e, user), user);
    NamedSnoc(ScrubbedAll(w.db.audit, user), ErasedRow(n.e), user);
    EndedNames(n.e, user);
    ErasedNamesIff(n.e, user);
  }

  lemma LeftSnoc(ns: seq<Notice>, user: UserId)
    requires ns != []
    ensures LeftIn(ns, user) <==> LeftIn(ns[..|ns| - 1], user) || Leaves(ns[|ns| - 1], user)
  {
    var n := |ns| - 1;
    if LeftIn(ns[..n], user) {
      var i :| 0 <= i < n && Leaves(ns[..n][i], user);
      assert Leaves(ns[i], user);
    }
    if LeftIn(ns, user) && !Leaves(ns[n], user) {
      var i :| 0 <= i < |ns| && Leaves(ns[i], user);
      assert ns[..n][i] == ns[i];
    }
  }

  /** Up to the erasing transaction each row that names the user was left by one of the deliveries. */
  lemma {:induction false} NamedBeforeErasing(w: Site, m: Member, ns: seq<Notice>, user: UserId)
    requires user !in WORDS && Linked(w, m, user) && !NamedIn(w.db.audit, user)
    requires forall i :: 0 <= i < |ns| ==> ns[i].e.member == m && !Erases(ns[i])
    ensures var w' := NoticedAll(w, ns);
            Linked(w', m, user) && (NamedIn(w'.db.audit, user) <==> LeftIn(ns, user))
  {
    hide Delivered, NamedIn, Leaves, Erases;
    if ns != [] {
      var n := |ns| - 1;
      assert forall i :: 0 <= i < n ==> ns[..n][i] == ns[i];
      NamedBeforeErasing(w, m, ns[..n], user);
      NoticeStep(NoticedAll(w, ns[..n]), ns[n], user);
      LeftSnoc(ns, user);
    }
  }

  lemma {:induction false} UnchangedAfterErasing(w: Site, m: Member, ns: seq<Notice>, k: nat)
    requires k <= |ns| && (forall i :: 0 <= i < |ns| ==> ns[i].e.member == m) && m !in NoticedAll(w, ns[..k]).db.identities
    ensures NoticedAll(w, ns) == NoticedAll(w, ns[..k])
  {
    if k == |ns| {
      assert ns[..k] == ns;
    } else {
      var n := |ns| - 1;
      assert ns[..n][..k] == ns[..k];
      UnchangedAfterErasing(w, m, ns[..n], k);
    }
  }

  /** Over any run of deliveries of any of the member's events, dying anywhere, of which the `k`th is
      the first to reach the erasing transaction: the user is gone, and some row of the trail still
      names them if and only if a delivery up to then had left such a row; that is, if a suspension
      or a revocation had been through before the erasure. */
  lemma NamedAfterErasureIff(w: Site, m: Member, ns: seq<Notice>, k: nat, user: UserId)
    requires user !in WORDS && Linked(w, m, user) && !NamedIn(w.db.audit, user)
    requires k < |ns| && (forall i :: 0 <= i < |ns| ==> ns[i].e.member == m)
    requires Erases(ns[k]) && forall i :: 0 <= i < k ==> !Erases(ns[i])
    ensures var w' := NoticedAll(w, ns);
            && m !in w'.db.identities && user !in w'.db.users
            && (NamedIn(w'.db.audit, user) <==> LeftIn(ns[..k + 1], user))
  {
    hide Delivered, NamedIn, Leaves;
    assert ns[..k + 1][..k] == ns[..k];
    NamedBeforeErasing(w, m, ns[..k], user);
    NoticeStep(NoticedAll(w, ns[..k]), ns[k], user);
    LeftSnoc(ns[..k + 1], user);
    UnchangedAfterErasing(w, m, ns, k + 1);
  }

  /** Where the provider's event ids are not our user ids, that is all there is to it. */
  lemma NamedIffSuspendedBefore(w: Site, m: Member, ns: seq<Notice>, k: nat, user: UserId)
    requires user !in WORDS && Linked(w, m, user) && !NamedIn(w.db.audit, user)
    requires k < |ns| && (forall i :: 0 <= i < |ns| ==> ns[i].e.member == m && ns[i].e.jti != Some(user))
    requires Erases(ns[k]) && forall i :: 0 <= i < k ==> !Erases(ns[i])
    ensures NamedIn(NoticedAll(w, ns).db.audit, user) <==>
              exists i :: 0 <= i < k && !ns[i].e.kind.UserDeleted? && ns[i].stop.Never?
  {
    hide NoticedAll, NamedIn;
    NamedAfterErasureIff(w, m, ns, k, user);
    var upTo := ns[..k + 1];
    if i :| 0 <= i < k && !ns[i].e.kind.UserDeleted? && ns[i].stop.Never? {
      assert Leaves(upTo[i], user);
    }
    if LeftIn(upTo, user) {
      var i :| 0 <= i < |upTo| && Leaves(upTo[i], user);
      assert upTo[i] == ns[i] && i < k;
    }
  }
}

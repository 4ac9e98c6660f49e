/**
 Refresh tokens rotate: each use revokes the row and issues a new value, as section 10.4 of RFC 6749
 describes. Rows are stored by id; a value is hashed by an injective function, and older rows may still
 hold the plain value.
 */
module RefreshTokens {
  import opened Wrappers

  type Time = int
  type Value = nat

  const LIFETIME := 7 * 86_400_000

  datatype Digest = Sha256(value: Value)

  datatype Row = Row(user: nat, plain: Option<Value>, digest: Option<Digest>, expiresAt: Time, revokedAt: Option<Time>)

  /** issued: every value ever stored or handed out. accepted: the values that bought a new one, in order. */
  datatype Vault = Vault(rows: map<nat, Row>, nextId: nat, issued: set<Value>, accepted: seq<Value>)

  datatype Account = Usable | Closed | Unverified

  datatype Denial = Unknown | Reused | Expired | NotAllowed

  datatype Answer = Answer(vault: Vault, error: Option<Denial>)

  predicate Names(r: Row, v: Value) {
    r.digest == Some(Sha256(v)) || r.plain == Some(v)
  }

  /** A lookup by value returns a stored row that names it, or nothing when there is none. */
  ghost predicate LookedUp(d: Vault, v: Value, found: Option<nat>) {
    match found
    case None => forall id :: id in d.rows ==> !Names(d.rows[id], v)
    case Some(id) => id in d.rows && Names(d.rows[id], v)
  }

  function DigestOf(r: Row, v: Value): Digest {
    if r.digest.Some? then r.digest.value else Sha256(v)
  }

  function Scrubbed(r: Row, v: Value): Row {
    if r.digest.Some? then r else r.(digest := Some(Sha256(v)), plain := None)
  }

  function RevokedRow(r: Row, now: Time): Row {
    r.(revokedAt := Some(now), plain := None,
       digest := if r.digest.Some? then r.digest else if r.plain.Some? then Some(Sha256(r.plain.value)) else None)
  }

  /** Every unrevoked row of a user is revoked and loses its plain value. */
  function RevokeAll(d: Vault, user: nat, now: Time): Vault {
    d.(rows := map id | id in d.rows ::
         if d.rows[id].user == user && d.rows[id].revokedAt.None? then RevokedRow(d.rows[id], now) else d.rows[id])
  }

  /** Every unrevoked row that names the value is revoked. */
  function Revoke(d: Vault, v: Value, now: Time): Vault {
    d.(rows := map id | id in d.rows ::
         if Names(d.rows[id], v) && d.rows[id].revokedAt.None?
         then d.rows[id].(revokedAt := Some(now), digest := Some(Sha256(v)), plain := None)
         else d.rows[id])
  }

  function Issue(d: Vault, user: nat, v: Value, now: Time): Vault {
    d.(rows := d.rows[d.nextId := Row(user, None, Some(Sha256(v)), now + LIFETIME, None)],
       nextId := d.nextId + 1,
       issued := d.issued + {v})
  }

  /** next: the value the random source hands out if a new token is issued. */
  function Refresh(d: Vault, v: Value, found: Option<nat>, account: Account, next: Value, now: Time): Answer {
    if found.None? || found.value !in d.rows then Answer(d, Some(Unknown))
    else
      var id := found.value;
      var r := d.rows[id];
      if r.revokedAt.Some? then
        Answer(RevokeAll(d.(rows := d.rows[id := Scrubbed(r, v)]), r.user, now), Some(Reused))
      else if r.expiresAt < now then
        Answer(d.(rows := d.rows[id := Scrubbed(r, v)]), Some(Expired))
      else if account != Usable then Answer(d, Some(NotAllowed))
      else
        var rotated := r.(revokedAt := Some(now), digest := Some(DigestOf(r, v)), plain := None);
        Answer(Issue(d.(rows := d.rows[id := rotated], accepted := d.accepted + [v]), r.user, next, now), None)
  }

  predicate Stale(r: Row, now: Time) {
    r.expiresAt < now || r.revokedAt.Some?
  }

  function Cleanup(d: Vault, now: Time): Vault {
    d.(rows := map id | id in d.rows && !Stale(d.rows[id], now) :: d.rows[id])
  }

  // ----- The invariant -----

  /** A row holds its value in plain, hashed, or both ways alike. */
  predicate Sound(r: Row) {
    && (r.plain.Some? || r.digest.Some?)
    && (r.plain.Some? && r.digest.Some? ==> r.digest.value == Sha256(r.plain.value))
  }

  function ValueOf(r: Row): Value
    requires Sound(r)
  {
    if r.plain.Some? then r.plain.value else r.digest.value.value
  }

  ghost predicate RowsSound(d: Vault) {
    && (forall id :: id in d.rows ==> id < d.nextId && Sound(d.rows[id]) && ValueOf(d.rows[id]) in d.issued)
    && (forall a, b :: a in d.rows && b in d.rows && a != b ==> ValueOf(d.rows[a]) != ValueOf(d.rows[b]))
  }

  ghost predicate NoRepeats(vs: seq<Value>) {
    forall i, j :: 0 <= i < j < |vs| ==> vs[i] != vs[j]
  }

  /** An accepted value was accepted once, and a row that still names it is revoked. */
  ghost predicate AcceptedOnce(d: Vault)
    requires RowsSound(d)
  {
    && NoRepeats(d.accepted)
    && (forall v :: v in d.accepted ==> v in d.issued)
    && (forall id :: id in d.rows && ValueOf(d.rows[id]) in d.accepted ==> d.rows[id].revokedAt.Some?)
  }

  ghost predicate Inv(d: Vault) {
    RowsSound(d) && AcceptedOnce(d)
  }

  /** An empty table, or one of rows kept from before, plain values and all, with nothing accepted yet. */
  ghost predicate Start(d: Vault) {
    RowsSound(d) && d.accepted == []
  }

  lemma NamesIsValue(r: Row, v: Value)
    requires Sound(r)
    ensures Names(r, v) <==> ValueOf(r) == v
  {
  }

  // ----- What only moves forward -----

  /** A row keeps its owner, value and expiry; a revocation is final and takes the plain value away. */
  ghost predicate RowLater(a: Row, b: Row) {
    && Sound(a) && Sound(b)
    && a.user == b.user && a.expiresAt == b.expiresAt && ValueOf(a) == ValueOf(b)
    && (a.revokedAt.Some? ==> b.revokedAt == a.revokedAt)
    && (a.revokedAt.None? && b.revokedAt.Some? ==> b.plain.None?)
    && (a.plain.None? ==> b.plain.None?)
  }

  ghost predicate VaultLater(a: Vault, b: Vault) {
    && a.nextId <= b.nextId && a.issued <= b.issued && a.accepted <= b.accepted
    && (forall id :: id in a.rows && id in b.rows ==> RowLater(a.rows[id], b.rows[id]))
    && (forall id :: id in b.rows && id !in a.rows ==> id >= a.nextId && b.rows[id].plain.None?)
  }

  ghost predicate Moved(a: Vault, b: Vault) {
    Inv(b) && VaultLater(a, b)
  }

  /** Rows may be rewritten in place as long as each only moves forward. */
  lemma RewrittenRows(d: Vault, rows: map<nat, Row>)
    requires Inv(d)
    requires forall id :: id in rows ==> id in d.rows && Sound(d.rows[id]) && RowLater(d.rows[id], rows[id])
    ensures Moved(d, d.(rows := rows))
  {
  }

  lemma RevokeAllMoves(d: Vault, user: nat, now: Time)
    requires Inv(d)
    ensures Moved(d, RevokeAll(d, user, now))
  {
    RewrittenRows(d, RevokeAll(d, user, now).rows);
  }

  lemma RevokeMoves(d: Vault, v: Value, now: Time)
    requires Inv(d)
    ensures Moved(d, Revoke(d, v, now))
  {
    RewrittenRows(d, Revoke(d, v, now).rows);
  }

  lemma CleanupMoves(d: Vault, now: Time)
    requires Inv(d)
    ensures Moved(d, Cleanup(d, now))
  {
    RewrittenRows(d, Cleanup(d, now).rows);
  }

  lemma IssueMoves(d: Vault, user: nat, v: Value, now: Time)
    requires Inv(d) && v !in d.issued
    ensures Moved(d, Issue(d, user, v, now))
  {
  }

  lemma MovedTwice(a: Vault, b: Vault, c: Vault)
    requires Inv(a) && Moved(a, b) && Moved(b, c)
    ensures Moved(a, c)
  {
    forall id | id in a.rows && id in c.rows ensures RowLater(a.rows[id], c.rows[id]) {
      assert id < a.nextId && id in b.rows;
      assert RowLater(a.rows[id], b.rows[id]) && RowLater(b.rows[id], c.rows[id]);
    }
    forall id | id in c.rows && id !in a.rows ensures id >= a.nextId && c.rows[id].plain.None? {
      assert id in b.rows ==> RowLater(b.rows[id], c.rows[id]);
    }
  }

  /** Scrubbing a row that names the value. */
  lemma ScrubMoves(d: Vault, id: nat, v: Value)
    requires Inv(d) && id in d.rows && Names(d.rows[id], v)
    ensures Moved(d, d.(rows := d.rows[id := Scrubbed(d.rows[id], v)]))
  {
    NamesIsValue(d.rows[id], v);
    RewrittenRows(d, d.rows[id := Scrubbed(d.rows[id], v)]);
  }

  function Rotated(d: Vault, id: nat, v: Value, now: Time): Vault
    requires id in d.rows
  {
    var r := d.rows[id];
    d.(rows := d.rows[id := r.(revokedAt := Some(now), digest := Some(DigestOf(r, v)), plain := None)],
       accepted := d.accepted + [v])
  }

  lemma RotateMoves(d: Vault, id: nat, v: Value, now: Time)
    requires Inv(d) && id in d.rows && Names(d.rows[id], v) && d.rows[id].revokedAt.None?
    ensures Moved(d, Rotated(d, id, v, now))
  {
    NamesIsValue(d.rows[id], v);
    var r := d.rows[id];
    RewrittenRows(d, d.rows[id := r.(revokedAt := Some(now), digest := Some(DigestOf(r, v)), plain := None)]);
    assert v !in d.accepted;
  }

  lemma RefreshMoves(d: Vault, v: Value, found: Option<nat>, account: Account, next: Value, now: Time)
    requires Inv(d) && LookedUp(d, v, found) && next !in d.issued
    ensures Moved(d, Refresh(d, v, found, account, next, now).vault)
  {
    RewrittenRows(d, d.rows);
    assert d.(rows := d.rows) == d;
    if found.Some? {
      var id := found.value;
      var r := d.rows[id];
      if r.revokedAt.Some? {
        ScrubMoves(d, id, v);
        var mid := d.(rows := d.rows[id := Scrubbed(r, v)]);
        RevokeAllMoves(mid, r.user, now);
        MovedTwice(d, mid, RevokeAll(mid, r.user, now));
      } else if r.expiresAt < now {
        ScrubMoves(d, id, v);
      } else if account == Usable {
        RotateMoves(d, id, v, now);
        IssueMoves(Rotated(d, id, v, now), r.user, next, now);
        MovedTwice(d, Rotated(d, id, v, now), Issue(Rotated(d, id, v, now), r.user, next, now));
      }
    }
  }

  // ----- Runs -----

  datatype TokenCall =
    | CallLogin(user: nat, next: Value)
    | CallRefresh(value: Value, found: Option<nat>, account: Account, next: Value)
    | CallLogout(value: Value)
    | CallRevokeAll(user: nat)
    | CallCleanup

  datatype TokenEvent = TokenEvent(at: Time, call: TokenCall)

  /** The random source never repeats a value, and lookups are right; a call that says otherwise does not happen. */
  ghost function Apply(d: Vault, e: TokenEvent): Vault {
    match e.call
    case CallLogin(user, next) => if next in d.issued then d else Issue(d, user, next, e.at)
    case CallRefresh(value, found, account, next) =>
      if next in d.issued || !LookedUp(d, value, found) then d else Refresh(d, value, found, account, next, e.at).vault
    case CallLogout(value) => Revoke(d, value, e.at)
    case CallRevokeAll(user) => RevokeAll(d, user, e.at)
    case CallCleanup => Cleanup(d, e.at)
  }

  ghost function Run(d: Vault, events: seq<TokenEvent>): Vault {
    if |events| == 0 then d else Apply(Run(d, events[..|events| - 1]), events[|events| - 1])
  }

  lemma Unmoved(d: Vault)
    requires Inv(d)
    ensures Moved(d, d)
  {
  }

  lemma OneCallMoves(d: Vault, e: TokenEvent)
    requires Inv(d)
    ensures Moved(d, Apply(d, e))
  {
    Unmoved(d);
    match e.call
    case CallLogin(user, next) =>
      if next !in d.issued {
        IssueMoves(d, user, next, e.at);
      }
    case CallRefresh(value, found, account, next) =>
      if next !in d.issued && LookedUp(d, value, found) {
        RefreshMoves(d, value, found, account, next, e.at);
      }
    case CallLogout(value) => RevokeMoves(d, value, e.at);
    case CallRevokeAll(user) => RevokeAllMoves(d, user, e.at);
    case CallCleanup => CleanupMoves(d, e.at);
  }

  lemma {:induction false} RunsMove(d: Vault, events: seq<TokenEvent>)
    requires Inv(d)
    ensures Moved(d, Run(d, events))
  {
    if |events| == 0 {
      Unmoved(d);
    } else {
      var last := |events| - 1;
      RunsMove(d, events[..last]);
      OneCallMoves(Run(d, events[..last]), events[last]);
      MovedTwice(d, Run(d, events[..last]), Run(d, events));
    }
  }

  /** Each value ever issued buys at most one new token. */
  lemma EachValueAcceptedOnce(start: Vault, events: seq<TokenEvent>)
    requires Start(start)
    ensures NoRepeats(Run(start, events).accepted)
    ensures forall v :: v in Run(start, events).accepted ==> v in Run(start, events).issued
  {
    RunsMove(start, events);
  }

  /** A revocation is final, and from then on the row keeps no plain value. */
  lemma RevokedForEver(d: Vault, events: seq<TokenEvent>, id: nat)
    requires Inv(d) && id in d.rows && id in Run(d, events).rows
    ensures d.rows[id].revokedAt.Some? ==> Run(d, events).rows[id].revokedAt == d.rows[id].revokedAt
    ensures d.rows[id].revokedAt.None? && Run(d, events).rows[id].revokedAt.Some? ==> Run(d, events).rows[id].plain.None?
  {
    RunsMove(d, events);
    assert RowLater(d.rows[id], Run(d, events).rows[id]);
  }

  /** A row issued during a run never holds a plain value. */
  lemma IssuedWithoutPlain(d: Vault, events: seq<TokenEvent>, id: nat)
    requires Inv(d) && id !in d.rows && id in Run(d, events).rows
    ensures Run(d, events).rows[id].plain.None?
  {
    RunsMove(d, events);
  }

  // ----- Live tokens -----

  predicate Live(r: Row, user: nat, now: Time) {
    r.user == user && !Stale(r, now)
  }

  function LiveIds(d: Vault, user: nat, now: Time): set<nat> {
    set id | id in d.rows && Live(d.rows[id], user, now)
  }

  lemma RevokeAllLeavesNone(d: Vault, user: nat, now: Time, later: Time)
    ensures LiveIds(RevokeAll(d, user, now), user, later) == {}
    ensures forall other :: other != user ==> LiveIds(RevokeAll(d, user, now), other, later) == LiveIds(d, other, later)
  {
    var e := RevokeAll(d, user, now);
    forall other | other != user ensures LiveIds(e, other, later) == LiveIds(d, other, later) {
      assert forall id :: id in LiveIds(e, other, later) <==> id in LiveIds(d, other, later);
    }
  }

  /** Presenting a revoked value that is still stored leaves its user without any live token, and nobody else worse off. */
  lemma ReplayRevokesEverything(d: Vault, v: Value, id: nat, account: Account, next: Value, now: Time, later: Time)
    requires Inv(d) && id in d.rows && Names(d.rows[id], v) && d.rows[id].revokedAt.Some?
    ensures var a := Refresh(d, v, Some(id), account, next, now);
            && a.error == Some(Reused)
            && LiveIds(a.vault, d.rows[id].user, later) == {}
            && forall other :: other != d.rows[id].user ==> LiveIds(a.vault, other, later) == LiveIds(d, other, later)
  {
    var r := d.rows[id];
    var mid := d.(rows := d.rows[id := Scrubbed(r, v)]);
    RevokeAllLeavesNone(mid, r.user, now, later);
    forall other | other != r.user ensures LiveIds(mid, other, later) == LiveIds(d, other, later) {
      assert forall k :: k in LiveIds(mid, other, later) <==> k in LiveIds(d, other, later);
    }
  }

  /** A successful refresh swaps one live token of the user for another: their number stays the same. */
  lemma RotationKeepsTheCount(d: Vault, v: Value, found: Option<nat>, account: Account, next: Value, now: Time)
    requires Inv(d) && LookedUp(d, v, found)
    requires Refresh(d, v, found, account, next, now).error.None?
    ensures var e := Refresh(d, v, found, account, next, now).vault;
            var user := d.rows[found.value].user;
            && found.value in LiveIds(d, user, now)
            && LiveIds(e, user, now) == LiveIds(d, user, now) - {found.value} + {d.nextId}
            && |LiveIds(e, user, now)| == |LiveIds(d, user, now)|
            && forall other :: other != user ==> LiveIds(e, other, now) == LiveIds(d, other, now)
  {
    var e := Refresh(d, v, found, account, next, now).vault;
    var user := d.rows[found.value].user;
    assert d.nextId !in d.rows;
    assert forall id :: id in LiveIds(e, user, now) <==> id in LiveIds(d, user, now) - {found.value} + {d.nextId};
    forall other | other != user ensures LiveIds(e, other, now) == LiveIds(d, other, now) {
      assert forall id :: id in LiveIds(e, other, now) <==> id in LiveIds(d, other, now);
    }
  }

  /** A refresh succeeds exactly with a stored, unrevoked, unexpired value of a usable account. */
  lemma AcceptedExactly(d: Vault, v: Value, found: Option<nat>, account: Account, next: Value, now: Time)
    requires Inv(d) && LookedUp(d, v, found)
    ensures Refresh(d, v, found, account, next, now).error.None? <==>
            account == Usable && exists id :: id in d.rows && ValueOf(d.rows[id]) == v && !Stale(d.rows[id], now)
  {
    if found.Some? {
      NamesIsValue(d.rows[found.value], v);
    } else {
      forall id | id in d.rows ensures ValueOf(d.rows[id]) != v {
        NamesIsValue(d.rows[id], v);
      }
    }
  }

  /** What a successful refresh stores: the old row is revoked now, the new one names the new value for seven days, all others stay. */
  lemma RotationWritesExactly(d: Vault, v: Value, found: Option<nat>, account: Account, next: Value, now: Time)
    requires Inv(d) && LookedUp(d, v, found)
    requires Refresh(d, v, found, account, next, now).error.None?
    ensures var e := Refresh(d, v, found, account, next, now).vault;
            && found.Some? && found.value in e.rows && d.nextId in e.rows && found.value != d.nextId
            && e.rows[found.value].revokedAt == Some(now)
            && e.rows[d.nextId] == Row(d.rows[found.value].user, None, Some(Sha256(next)), now + 7 * 86_400_000, None)
            && e.rows.Keys == d.rows.Keys + {d.nextId}
            && (forall id :: id in d.rows && id != found.value ==> e.rows[id] == d.rows[id])
            && e.accepted == d.accepted + [v] && next in e.issued
  {
  }

  /** Why a refresh is refused, and that a refusal other than for a replay costs nobody a live token. */
  lemma RefusedExactly(d: Vault, v: Value, found: Option<nat>, account: Account, next: Value, now: Time, user: nat, later: Time)
    requires Inv(d) && LookedUp(d, v, found)
    ensures var a := Refresh(d, v, found, account, next, now);
            && (a.error == Some(Unknown) <==> found.None?)
            && (a.error == Some(Reused) <==> found.Some? && d.rows[found.value].revokedAt.Some?)
            && (a.error == Some(Denial.Expired) <==>
                  found.Some? && d.rows[found.value].revokedAt.None? && d.rows[found.value].expiresAt < now)
            && (a.error.Some? ==> a.vault.accepted == d.accepted && a.vault.nextId == d.nextId)
            && (a.error.Some? && a.error != Some(Reused) ==> LiveIds(a.vault, user, later) == LiveIds(d, user, later))
  {
    var a := Refresh(d, v, found, account, next, now);
    if a.error.Some? && a.error != Some(Reused) {
      assert forall id :: id in LiveIds(a.vault, user, later) <==> id in LiveIds(d, user, later);
    }
  }

  /** Logging out ends exactly the live tokens that name the value. */
  lemma LogoutEndsTheValue(d: Vault, v: Value, now: Time, user: nat, later: Time)
    requires Inv(d)
    ensures LiveIds(Revoke(d, v, now), user, later) == set id | id in LiveIds(d, user, later) && ValueOf(d.rows[id]) != v
  {
    var e := Revoke(d, v, now);
    forall id | id in d.rows ensures Names(d.rows[id], v) <==> ValueOf(d.rows[id]) == v {
      NamesIsValue(d.rows[id], v);
    }
    assert forall id :: id in LiveIds(e, user, later) <==> id in LiveIds(d, user, later) && ValueOf(d.rows[id]) != v;
  }

  /** The cleanup deletes exactly the rows that are of no use any more: no live token is lost, and only live ones remain. */
  lemma CleanupKeepsTheLive(d: Vault, now: Time, user: nat)
    ensures LiveIds(Cleanup(d, now), user, now) == LiveIds(d, user, now)
    ensures forall id :: id in Cleanup(d, now).rows ==> id in LiveIds(d, d.rows[id].user, now)
  {
    assert forall id :: id in LiveIds(Cleanup(d, now), user, now) <==> id in LiveIds(d, user, now);
  }

  /** Logging in adds exactly one live token of the user, which names the value handed out. */
  lemma LoginAddsOne(d: Vault, user: nat, v: Value, now: Time)
    requires Inv(d)
    ensures var e := Issue(d, user, v, now);
            && LiveIds(e, user, now) == LiveIds(d, user, now) + {d.nextId}
            && d.nextId !in LiveIds(d, user, now) && Names(e.rows[d.nextId], v)
            && forall other :: other != user ==> LiveIds(e, other, now) == LiveIds(d, other, now)
  {
    var e := Issue(d, user, v, now);
    assert forall id :: id in LiveIds(e, user, now) <==> id in LiveIds(d, user, now) + {d.nextId};
    forall other | other != user ensures LiveIds(e, other, now) == LiveIds(d, other, now) {
      assert forall id :: id in LiveIds(e, other, now) <==> id in LiveIds(d, other, now);
    }
  }
}

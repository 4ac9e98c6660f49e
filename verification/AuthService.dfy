/** The authentication service: token rows, reset tokens and codes as its methods rewrite them. */
module AuthService {
  import opened RefreshTokens
  import Limits = RateLimits
  import opened Wrappers

  class Auth {
    var rows: map<nat, Row>
    var nextId: nat
    ghost var issued: set<Value>
    ghost var accepted: seq<Value>
    var resets: seq<Limits.Ticket>
    var codes: seq<Limits.Ticket>

    constructor ()
      ensures Tokens() == Vault(map[], 0, {}, []) && resets == [] && codes == []
    {
      rows, nextId, issued, accepted := map[], 0, {}, [];
      resets, codes := [], [];
    }

    ghost function Tokens(): Vault
      reads this
    {
      Vault(rows, nextId, issued, accepted)
    }

    method FindRefreshTokenByValue(v: Value) returns (found: Option<nat>)
      ensures LookedUp(Tokens(), v, found)
    {
      if id :| id in rows && Names(rows[id], v) {
        return Some(id);
      } else {
        return None;
      }
    }

    method PersistRefreshTokenHashIfMissing(id: nat, digest: Digest)
      requires id in rows
      modifies `rows
      ensures rows == old(rows)[id := if old(rows)[id].digest.Some? then old(rows)[id]
                                      else old(rows)[id].(digest := Some(digest), plain := None)]
    {
      if rows[id].digest.Some? {
        assert rows[id := rows[id]] == rows;
        return;
      }
      rows := rows[id := rows[id].(digest := Some(digest), plain := None)];
    }

    method RevokeAllUserRefreshTokens(user: nat, now: Time)
      modifies `rows
      ensures Tokens() == RevokeAll(old(Tokens()), user, now)
    {
      var active := set id | id in rows && rows[id].user == user && rows[id].revokedAt.None?;
      if active == {} {
        assert forall id :: id in rows ==> id !in active;
        assert rows == RevokeAll(Tokens(), user, now).rows;
        return;
      }
      rows := map id | id in rows :: if id in active then RevokedRow(rows[id], now) else rows[id];
    }

    method RevokeRefreshToken(v: Value, now: Time)
      modifies `rows
      ensures Tokens() == Revoke(old(Tokens()), v, now)
    {
      rows := map id | id in rows ::
        if Names(rows[id], v) && rows[id].revokedAt.None?
        then rows[id].(revokedAt := Some(now), digest := Some(Sha256(v)), plain := None)
        else rows[id];
    }

    /** v: the value the random source hands out. */
    method CreateRefreshToken(user: nat, v: Value, now: Time)
      modifies `rows, `nextId, `issued
      ensures Tokens() == Issue(old(Tokens()), user, v, now)
    {
      rows := rows[nextId := Row(user, None, Some(Sha256(v)), now + LIFETIME, None)];
      nextId := nextId + 1;
      issued := issued + {v};
    }

    method CleanupExpiredRefreshTokens(now: Time)
      modifies `rows
      ensures Tokens() == Cleanup(old(Tokens()), now)
    {
      rows := map id | id in rows && !(rows[id].expiresAt < now || rows[id].revokedAt.Some?) :: rows[id];
    }

    /** account: the state of the token's owner. next: the value issued if all goes well. */
    method RefreshAccessToken(v: Value, account: Account, next: Value, now: Time)
      returns (error: Option<Denial>, ghost found: Option<nat>)
      modifies `rows, `nextId, `issued, `accepted
      ensures LookedUp(old(Tokens()), v, found)
      ensures Answer(Tokens(), error) == Refresh(old(Tokens()), v, found, account, next, now)
    {
      var row := FindRefreshTokenByValue(v);
      found := row;
      if row.None? {
        return Some(Unknown), found;
      }
      var id := row.value;
      var r := rows[id];
      var digest := if r.digest.Some? then r.digest.value else Sha256(v);
      if r.revokedAt.Some? {
        PersistRefreshTokenHashIfMissing(id, digest);
        RevokeAllUserRefreshTokens(r.user, now);
        return Some(Reused), found;
      }
      if r.expiresAt < now {
        PersistRefreshTokenHashIfMissing(id, digest);
        return Some(Expired), found;
      }
      if account != Usable {
        return Some(NotAllowed), found;
      }
      rows := rows[id := r.(revokedAt := Some(now), digest := Some(digest), plain := None)];
      accepted := accepted + [v];
      CreateRefreshToken(r.user, next, now);
      error := None;
    }

    // ----- Reset tokens and codes -----

    method CountRecent(rows: seq<Limits.Ticket>, user: nat, now: Time) returns (n: nat)
      ensures n == Limits.Recent(rows, user, now)
    {
      n := 0;
      var k := 0;
      while k < |rows|
        invariant 0 <= k <= |rows|
        invariant n == Limits.Recent(rows[..k], user, now)
      {
        assert rows[..k + 1][..k] == rows[..k];
        if rows[k].user == user && rows[k].createdAt > now - Limits.HOUR {
          n := n + 1;
        }
        k := k + 1;
      }
      assert rows[..k] == rows;
    }

    /** The answer to the outside is the same whether or not a token was created. */
    method RequestPasswordReset(user: nat, eligible: bool, now: Time)
      modifies `resets
      ensures resets == if eligible then Limits.RequestReset(old(resets), user, now).rows else old(resets)
    {
      if !eligible {
        return;
      }
      var recent := CountRecent(resets, user, now);
      if recent >= Limits.LIMIT {
        return;
      }
      var before := resets;
      resets := seq(|before|, k requires 0 <= k < |before| =>
        if before[k].user == user && before[k].usedAt.None? && before[k].expiresAt > now
        then before[k].(usedAt := Some(now)) else before[k]);
      assert resets == Limits.Invalidated(before, user, now, false);
      resets := resets + [Limits.Ticket(user, now, now + Limits.RESET_LIFETIME, None)];
    }

    method ResendVerificationCode(user: nat, verified: bool, now: Time) returns (sent: bool)
      modifies `codes
      ensures sent <==> !verified && Limits.ResendCode(old(codes), user, now).verdict == Limits.Created
      ensures codes == if verified then old(codes) else Limits.ResendCode(old(codes), user, now).rows
    {
      if verified {
        return false;
      }
      var recent := CountRecent(codes, user, now);
      if recent >= Limits.LIMIT {
        return false;
      }
      var before := codes;
      codes := seq(|before|, k requires 0 <= k < |before| =>
        if before[k].user == user && before[k].usedAt.None? then before[k].(usedAt := Some(now)) else before[k]);
      assert codes == Limits.Invalidated(before, user, now, true);
      codes := codes + [Limits.Ticket(user, now, now + Limits.CODE_LIFETIME, None)];
      return true;
    }

    /**
     found: the reset token the link names, if it is stored. A successful reset uses the token up and
     leaves its user without a live refresh token.
     */
    method ResetPassword(found: Option<nat>, eligible: bool, strong: bool, now: Time) returns (done: bool)
      modifies `rows, `resets
      ensures done <==> found.Some? && found.value < |old(resets)| && eligible && strong
                        && old(resets)[found.value].usedAt.None? && old(resets)[found.value].expiresAt > now
      ensures !done ==> rows == old(rows) && resets == old(resets)
      ensures done ==> resets == Limits.Consumed(old(resets), found.value, now)
      ensures done ==> Tokens() == RevokeAll(old(Tokens()), old(resets)[found.value].user, now)
      ensures done ==> forall later: Time :: LiveIds(Tokens(), old(resets)[found.value].user, later) == {}
    {
      if found.None? || found.value >= |resets| {
        return false;
      }
      var token := resets[found.value];
      if token.usedAt.Some? || token.expiresAt <= now {
        return false;
      }
      if !eligible || !strong {
        return false;
      }
      resets := resets[found.value := token.(usedAt := Some(now))];
      RevokeAllUserRefreshTokens(token.user, now);
      forall later: Time ensures LiveIds(Tokens(), token.user, later) == {} {
        RevokeAllLeavesNone(old(Tokens()), token.user, now, later);
      }
      return true;
    }
  }
}

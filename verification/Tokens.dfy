/** Login tokens: issued with an expiry, evicted on access, revoked, and swept. */
module Tokens {
  import opened Prelude

  datatype Entry = Entry(userId: string, username: string, expiresAt: int)

  type Table = map<string, Entry>

  /** What a table that never evicts would answer. */
  function Answer(issued: Table, token: string, now: int): Option<Entry> {
    if token in issued && now < issued[token].expiresAt then Some(issued[token]) else None
  }

  /** Nothing is stored that was not issued, and whatever is missing has expired. */
  ghost predicate Covers(store: Table, issued: Table, last: int) {
    forall t :: if t in store then t in issued && store[t] == issued[t] else t in issued ==> issued[t].expiresAt <= last
  }

  lemma {:induction false} CoversAnswer(store: Table, issued: Table, last: int, token: string, now: int)
    requires Covers(store, issued, last) && last <= now
    ensures Answer(store, token, now) == Answer(issued, token, now)
  {
    assert token in store ==> token in issued && store[token] == issued[token];
  }

  class TokenStore {
    const ttl: nat
    var store: Table
    /** Every token issued and not revoked, and the latest time seen. */
    ghost var issued: Table
    ghost var last: int

    constructor (ttl: nat)
      ensures Valid() && this.ttl == ttl && issued == map[] && last == 0
    {
      this.ttl := ttl;
      store, issued, last := map[], map[], 0;
    }

    ghost predicate Valid()
      reads this
    {
      Covers(store, issued, last)
    }

    /** `token` is the random string drawn for this call. */
    method GenerateToken(token: string, userId: string, username: string, now: int)
      requires Valid() && last <= now
      modifies this
      ensures Valid() && last == now
      ensures issued == old(issued)[token := Entry(userId, username, now + ttl)]
      ensures store == old(store)[token := Entry(userId, username, now + ttl)]
    {
      store := store[token := Entry(userId, username, now + ttl)];
      issued := issued[token := Entry(userId, username, now + ttl)];
      last := now;
    }

    method ValidateToken(token: string, now: int) returns (r: Option<Entry>)
      requires Valid() && last <= now
      modifies this
      ensures Valid() && last == now && issued == old(issued)
      ensures r == Answer(issued, token, now)
    {
      CoversAnswer(store, issued, last, token, now);
      last := now;
      if token !in store { return None; }
      var entry := store[token];
      if now >= entry.expiresAt {
        store := store - {token};
        return None;
      }
      r := Some(entry);
    }

    /** Whether a token was there to remove. Unlike validation, this can tell whether an expired token has been
        swept: see SweptTokenCannotBeRevoked. */
    method RevokeToken(token: string) returns (r: bool)
      requires Valid()
      modifies this
      ensures Valid() && last == old(last) && issued == old(issued) - {token}
      ensures r == (token in old(store))
      ensures Answer(old(issued), token, last).Some? ==> r
      ensures token !in old(issued) ==> !r
    {
      CoversAnswer(store, issued, last, token, last);
      r := token in store;
      store := store - {token};
      issued := issued - {token};
    }

    /** Evicts what has expired. The issued tokens stay as they are, and they alone decide later validations. */
    method Sweep(now: int)
      requires Valid() && last <= now
      modifies this
      ensures Valid() && last == now && issued == old(issued)
      ensures forall t :: t in store <==> t in old(store) && now < old(store)[t].expiresAt
    {
      last := now;
      var tokens := store.Keys;
      while tokens != {}
        invariant Valid() && issued == old(issued) && last == now
        invariant tokens <= store.Keys
        invariant forall t :: t in store ==> t in old(store) && store[t] == old(store)[t]
        invariant forall t :: t in old(store) && t !in store ==> now >= old(store)[t].expiresAt
        invariant forall t :: t in store && t !in tokens ==> now < store[t].expiresAt
        decreases |tokens|
      {
        var token :| token in tokens;
        tokens := tokens - {token};
        if now >= store[token].expiresAt { store := store - {token}; }
      }
    }
  }

  /** The same revocation of an expired token succeeds before a sweep and fails after it. */
  method SweptTokenCannotBeRevoked(token: string, userId: string, username: string, ttl: nat, swept: bool) returns (r: bool)
    ensures r == !swept
  {
    var tokens := new TokenStore(ttl);
    tokens.GenerateToken(token, userId, username, 0);
    if swept { tokens.Sweep(ttl); }
    r := tokens.RevokeToken(token);
  }
}

/** The OIDC state: a sealed token that is also entered in the single-use store. */
module Auth {
  import opened Text
  import opened Base64
  import opened SealedToken
  import opened StateStore

  datatype StatePayload = StatePayload(nonce: string, verifier: string)

  const STATE_PURPOSE := "oidc-state"
  const STATE_LIFETIME: int := 300 * SECOND

  lemma PurposeIsNamed()
    ensures TrimSpace(STATE_PURPOSE) != ""
  {
    assert STATE_PURPOSE[0] == 'o';
    assert TrimLeft(STATE_PURPOSE) == STATE_PURPOSE;
    assert STATE_PURPOSE[|STATE_PURPOSE| - 1] == 'e';
  }

  /** The characters of a text, each as a mark and three bytes. */
  function Marked(mark: Byte, s: string): Bytes {
    if s == "" then [] else [mark] + BigEndian(s[0] as nat, 3) + Marked(mark, s[1..])
  }

  function CharOf(n: nat): char {
    if n < 0xD800 || 0xE000 <= n < 0x11_0000 then n as char else '?'
  }

  /** The characters that carry the mark. */
  function Unmarked(mark: Byte, b: Bytes): string {
    if |b| < 4 then ""
    else (if b[0] == mark then [CharOf(FromBigEndian(b[1..4]))] else "") + Unmarked(mark, b[4..])
  }

  lemma UnmarkedStep(mark: Byte, mark1: Byte, c: char, rest: Bytes)
    ensures var b := [mark] + BigEndian(c as nat, 3) + rest;
      Unmarked(mark1, b) == (if mark1 == mark then [c] else "") + Unmarked(mark1, rest)
  {
    var b := [mark] + BigEndian(c as nat, 3) + rest;
    assert b[4..] == rest && b[1..4] == BigEndian(c as nat, 3);
    assert Pow256(3) == 0x100_0000;
    BigEndianRoundTrip(c as nat, 3);
    hide BigEndian; hide FromBigEndian;
  }

  lemma {:induction false} UnmarkedOfMarked(mark: Byte, mark1: Byte, s: string, rest: Bytes)
    ensures Unmarked(mark1, Marked(mark, s) + rest) == (if mark1 == mark then s else "") + Unmarked(mark1, rest)
  {
    hide Unmarked; hide BigEndian;
    if s == "" {
      assert Marked(mark, s) + rest == rest;
    } else {
      UnmarkedOfMarked(mark, mark1, s[1..], rest);
      UnmarkedStep(mark, mark1, s[0], Marked(mark, s[1..]) + rest);
      assert Marked(mark, s) + rest == [mark] + BigEndian(s[0] as nat, 3) + (Marked(mark, s[1..]) + rest);
      assert s == [s[0]] + s[1..];
    }
  }

  /** There is an encoding of states that reads back, so an authenticator can be made. */
  lemma AFaithfulJsonExists()
    ensures exists j: Json<StatePayload> :: Faithful(j)
  {
    var j := Json((p: StatePayload) => Marked(0, p.nonce) + Marked(1, p.verifier),
                  b => Some(StatePayload(Unmarked(0, b), Unmarked(1, b))));
    forall p ensures j.decode(j.encode(p)) == Some(p) {
      forall mark: Byte | mark < 2
        ensures Unmarked(mark, j.encode(p)) == if mark == 0 then p.nonce else p.verifier
      {
        UnmarkedOfMarked(0, mark, p.nonce, Marked(1, p.verifier));
        UnmarkedOfMarked(1, mark, p.verifier, []);
        assert Marked(1, p.verifier) + [] == Marked(1, p.verifier);
      }
    }
    assert Faithful(j);
  }

  /** What a state was sealed with, kept for the specification. */
  datatype Issue = Issue(payload: StatePayload, expiresAt: int, nonce: Bytes)

  /** A state that is complete; only such a one is used up when it is opened. */
  predicate Complete(p: Option<StatePayload>) {
    p.Some? && p.value.nonce != "" && p.value.verifier != ""
  }

  class Authenticator {
    const codec: Codec
    const json: Json<StatePayload>
    const store: MemoryStateStore
    ghost var issued: map<string, Issue>
    ghost var passed: set<string>

    ghost predicate Valid()
      reads this, store, codec
    {
      && Sound(codec.vault) && Faithful(json) && store.Valid()
      && store.pending.Keys <= issued.Keys - passed
      && (forall t | t in store.pending :: store.pending[t] == issued[t].expiresAt)
      && (forall t | t in issued :: Sealed(codec.vault, t, issued[t]))
      && passed <= issued.Keys
    }

    /** `t` is the token sealed from `i`. */
    ghost predicate Sealed(v: Vault, t: string, i: Issue) {
      UnixFits(i.expiresAt) && Carries(v, t, i.nonce, STATE_PURPOSE, Frame(i.expiresAt, json.encode(i.payload)))
    }

    constructor (codec: Codec, json: Json<StatePayload>, store: MemoryStateStore)
      requires Sound(codec.vault) && Faithful(json) && store.Valid() && store.pending == map[]
      ensures Valid() && this.store == store && this.codec == codec && issued == map[] && passed == {}
    {
      this.codec, this.json, this.store := codec, json, store;
      issued, passed := map[], {};
    }

    /** The nonce is fresh, so the token is none that was issued before. */
    method SealState(payload: StatePayload, nonce: Bytes, now: int) returns (token: Option<string>)
      requires Valid() && |nonce| == codec.vault.nonceSize && Unused(codec.vault, nonce)
      requires now >= store.latest && UnixFits(now + STATE_LIFETIME)
      modifies this, store, codec
      ensures Valid() && passed == old(passed) && Extends(old(codec.vault), codec.vault)
      ensures token.Some? <==> |Unexpired(old(store.pending), now)| < store.maxEntries
      ensures token.None? ==> issued == old(issued)
      ensures store.pending ==
        if token.Some? then old(store.pending)[token.value := now + STATE_LIFETIME] else old(store.pending)
      ensures token.Some? ==>
        && token.value !in old(issued)
        && issued == old(issued)[token.value := Issue(payload, now + STATE_LIFETIME, nonce)]
    {
      hide MemoryStateStore.Valid; hide Faithful; hide Unexpired; hide SealedToken.Sound; hide UnixFits; hide Frame;
      hide Unused; hide Carries; hide Open; hide Decode;
      var expiresAt := now + STATE_LIFETIME;
      PurposeIsNamed();
      token := codec.Seal(json, STATE_PURPOSE, expiresAt, payload, nonce, now);
      if token.None? {
        return;
      }
      ghost var issue := Issue(payload, expiresAt, nonce);
      FreshToken(old(codec.vault), codec.vault, token.value, issue);
      StaySealed(old(codec.vault), codec.vault);
      NotPending(token.value, now);
      var stored := store.Put(token.value, expiresAt, now);
      if !stored {
        return None;
      }
      issued := issued[token.value := issue];
    }

    lemma NotPending(t: string, now: int)
      requires store.pending.Keys <= issued.Keys && t !in issued
      ensures Unexpired(store.pending, now) - {t} == Unexpired(store.pending, now)
    {
    }

    /** Sealing anything, for whatever purpose, leaves the issued states sealed. */
    lemma StaySealed(v: Vault, w: Vault)
      requires Extends(v, w) && forall t | t in issued :: Sealed(v, t, issued[t])
      ensures forall t | t in issued :: Sealed(w, t, issued[t])
    {
      forall t | t in issued ensures Sealed(w, t, issued[t]) {
        var i := issued[t];
        CarriesOn(v, w, t, i.nonce, STATE_PURPOSE, Frame(i.expiresAt, json.encode(i.payload)));
      }
    }

    lemma FreshToken(v: Vault, w: Vault, token: string, i: Issue)
      requires SealedToken.Sound(v) && SealedToken.Sound(w) && Extends(v, w) && Unused(v, i.nonce)
      requires forall t | t in issued :: Sealed(v, t, issued[t])
      requires Sealed(w, token, i)
      ensures token !in issued
    {
      hide Encode; hide Frame;
      if token in issued {
        var j := issued[token];
        var c :| Sealing(i.nonce, c, STATE_PURPOSE) in w.sealed && token == Encode([VERSION] + i.nonce + c);
        var d :| Sealing(j.nonce, d, STATE_PURPOSE) in v.sealed && token == Encode([VERSION] + j.nonce + d);
        NoncesSeparateTokens(i.nonce, c, j.nonce, d);
      }
    }

    /** A state passes only if it was issued, is before its expiry and never passed before,
        and it yields the payload it was issued with. The clock is read twice. */
    method OpenState(token: string, now: int, later: int) returns (payload: Option<StatePayload>)
      requires Valid() && store.latest <= now <= later
      modifies this, store
      ensures Valid() && issued == old(issued)
      ensures payload.Some? <==>
        && token in old(store.pending) && issued[token].payload.nonce != "" && issued[token].payload.verifier != ""
        && now < Unix(issued[token].expiresAt) * SECOND && later < issued[token].expiresAt
      ensures payload.Some? ==>
        && token in issued && token !in old(passed) && passed == old(passed) + {token}
        && payload.value == issued[token].payload
      ensures payload.None? ==> passed == old(passed)
      ensures store.pending ==
        if Complete(Open(old(codec.vault), json, token, STATE_PURPOSE, now)) then old(store.pending) - {token}
        else old(store.pending)
    {
      hide Frame; hide Open; hide MemoryStateStore.Valid; hide Faithful; hide SealedToken.Sound;
      hide Unexpired; hide Unix; hide Carries; hide UnixFits; hide Sealed;
      payload := Open(codec.vault, json, token, STATE_PURPOSE, now);
      if token in store.pending { Reopened(token, issued[token], now); }
      if payload.None? {
        return;
      }
      if payload.value.nonce == "" || payload.value.verifier == "" {
        return None;
      }
      var first := store.Consume(token, later);
      if !first {
        return None;
      }
      passed := passed + {token};
    }

    lemma Reopened(token: string, i: Issue, now: int)
      requires SealedToken.Sound(codec.vault) && Faithful(json) && Sealed(codec.vault, token, i)
      ensures Open(codec.vault, json, token, STATE_PURPOSE, now) ==
        if now < Unix(i.expiresAt) * SECOND then Some(i.payload) else None
    {
      PurposeIsNamed();
      OpenOfSeal(codec.vault, json, token, i.nonce, STATE_PURPOSE, i.expiresAt, i.payload, STATE_PURPOSE, now);
    }
  }
}

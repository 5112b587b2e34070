/** The nonces a control plane remembers (src/remote/control-plane.ts, lines 54-55 and 103-126): a JavaScript Map from
    nonce to expiry, whose iteration order is insertion order. */
module NonceWindows {
  import opened JsText

  const AGENT_NONCE_TTL_MS := 300_000
  const MAX_AGENT_CONNECTION_NONCES := 4096

  datatype Entry = Entry(value: Text, expiresAt: int)

  type Window = seq<Entry>

  // ---- Specification ----

  predicate Has(w: Window, value: Text) { exists e :: e in w && e.value == value }

  /** The value has an entry that is still valid. */
  predicate Holds(w: Window, value: Text, now: int) { exists e :: e in w && e.value == value && now < e.expiresAt }

  function Pruned(w: Window, now: int): (r: Window)
    ensures |r| <= |w|
  {
    if w == [] then []
    else if w[0].expiresAt <= now then Pruned(w[1..], now)
    else [w[0]] + Pruned(w[1..], now)
  }

  /** Map.set: a value already present keeps its place. */
  function Set(w: Window, n: Entry): Window {
    if w == [] then [n]
    else if w[0].value == n.value then [n] + w[1..]
    else [w[0]] + Set(w[1..], n)
  }

  function LastOf<T>(s: seq<T>, count: nat): seq<T> {
    if |s| <= count then s else s[|s| - count..]
  }

  function Remembered(w: Window, value: Text, now: int): Window {
    LastOf(Set(Pruned(w, now), Entry(value, now + AGENT_NONCE_TTL_MS)), MAX_AGENT_CONNECTION_NONCES)
  }

  // ---- The Map ----

  class ExpiryMap {
    var entries: Window

    constructor ()
      ensures entries == []
    {
      entries := [];
    }

    /** The position of a value, or the number of entries. */
    method Find(value: Text) returns (k: nat)
      ensures k <= |entries| && (forall i :: 0 <= i < k ==> entries[i].value != value)
      ensures k < |entries| ==> entries[k].value == value
      ensures k < |entries| <==> Has(entries, value)
    {
      k := 0;
      while k < |entries| && entries[k].value != value
        invariant 0 <= k <= |entries| && forall i :: 0 <= i < k ==> entries[i].value != value
      {
        k := k + 1;
      }
    }

    method PruneNonceWindow(now: int)
      modifies this
      ensures entries == Pruned(old(entries), now)
    {
      var i := 0;
      ghost var was := entries;
      while i < |entries|
        invariant 0 <= i <= |entries|
        invariant Pruned(was, now) == entries[..i] + Pruned(entries[i..], now)
        decreases |entries| - i
      {
        ghost var before, rest := entries, entries[i..];
        assert rest[1..] == entries[i + 1..];
        if entries[i].expiresAt <= now {
          entries := entries[..i] + entries[i + 1..];
          assert entries[..i] == before[..i] && entries[i..] == rest[1..];
        } else {
          assert entries[..i + 1] == entries[..i] + [entries[i]];
          i := i + 1;
        }
      }
      assert entries[..i] == entries;
    }

    method HasSeenNonce(value: Text, now: int) returns (seen: bool)
      modifies this
      ensures entries == Pruned(old(entries), now)
      ensures seen <==> Has(entries, value)
    {
      PruneNonceWindow(now);
      var k := Find(value);
      seen := k < |entries|;
    }

    method Put(n: Entry)
      modifies this
      ensures entries == Set(old(entries), n)
    {
      var k := Find(n.value);
      SetAt(entries, n, k);
      entries := if k < |entries| then entries[k := n] else entries + [n];
    }

    method RememberNonce(value: Text, now: int)
      modifies this
      ensures entries == Remembered(old(entries), value, now)
    {
      PruneNonceWindow(now);
      Put(Entry(value, now + AGENT_NONCE_TTL_MS));
      ghost var was := entries;
      while |entries| > MAX_AGENT_CONNECTION_NONCES
        invariant |entries| <= |was| && entries == was[|was| - |entries|..]
        invariant |entries| >= MAX_AGENT_CONNECTION_NONCES || entries == was
      {
        DropAgain(was, |was| - |entries|);
        entries := entries[1..];
      }
    }
  }

  lemma DropAgain<T>(s: seq<T>, k: nat)
    requires k < |s|
    ensures s[k..][1..] == s[k + 1..]
  {}

  lemma DropTwice<T>(s: seq<T>, j: nat, k: nat)
    requires j <= |s| && k <= |s| - j
    ensures s[j..][k..] == s[j + k..]
  {}

  lemma DropAppend<T>(s: seq<T>, k: nat, x: T)
    requires k <= |s|
    ensures (s + [x])[k..] == s[k..] + [x]
  {}

  lemma {:induction false} SetAt(w: Window, n: Entry, k: nat)
    requires k <= |w| && (forall i :: 0 <= i < k ==> w[i].value != n.value) && (k < |w| ==> w[k].value == n.value)
    ensures Set(w, n) == if k < |w| then w[k := n] else w + [n]
  {
    if k > 0 {
      SetAt(w[1..], n, k - 1);
      assert w == [w[0]] + w[1..];
    } else if w != [] {
      assert w[0 := n] == [n] + w[1..];
    }
  }

  lemma SetOfAbsent(w: Window, n: Entry)
    requires !Has(w, n.value)
    ensures Set(w, n) == w + [n]
  {
    SetAt(w, n, |w|);
  }

  lemma {:induction false} PrunedMembers(w: Window, now: int)
    ensures forall e :: e in Pruned(w, now) <==> e in w && now < e.expiresAt
  {
    if w != [] {
      PrunedMembers(w[1..], now);
      assert w == [w[0]] + w[1..];
    }
  }

  lemma PrunedHas(w: Window, value: Text, now: int)
    ensures Has(Pruned(w, now), value) <==> Holds(w, value, now)
  {
    hide Pruned;
    PrunedMembers(w, now);
  }

  lemma PrunedHolds(w: Window, value: Text, now: int, later: int)
    requires now <= later
    ensures Holds(Pruned(w, now), value, later) <==> Holds(w, value, later)
  {
    hide Pruned;
    PrunedMembers(w, now);
  }
}

/** The in-memory question cache of `src/lib/cache.ts`: a `Map` from a
    document hash to the questions and summary generated for it, stamped
    with the time they were stored and valid for one hour. The clock is a
    parameter (`now`, in milliseconds); the map's iteration order is kept
    as the sequence of its keys in insertion order. */
module Cache {
  import opened Wrappers
  import opened Strings
  import Gemini

  /** One hour in milliseconds. */
  const TTL := 60 * 60 * 1000

  datatype Entry = Entry(questions: seq<Gemini.Question>, summary: string, timestamp: int)

  datatype CacheStats = CacheStats(size: nat, entries: seq<string>)

  /** An entry is stale once strictly more than an hour has passed. */
  predicate Expired(e: Entry, now: int)
  {
    now - e.timestamp > TTL
  }

  predicate Distinct(s: seq<string>)
  {
    forall i, j :: 0 <= i < j < |s| ==> s[i] != s[j]
  }

  /** `keys` with `k` removed, order kept (`Map.delete`). */
  function Without(keys: seq<string>, k: string): (r: seq<string>)
    ensures forall x :: x in r <==> x in keys && x != k
    ensures |r| <= |keys|
  {
    if keys == [] then []
    else (if keys[0] == k then [] else [keys[0]]) + Without(keys[1..], k)
  }

  /** The keys whose entries are still fresh at `now`, in order. */
  function Unexpired(keys: seq<string>, entries: map<string, Entry>, now: int): (r: seq<string>)
    requires forall k :: k in keys ==> k in entries
    ensures forall x :: x in r <==> x in keys && !Expired(entries[x], now)
  {
    if keys == [] then []
    else Unexpired(keys[..|keys| - 1], entries, now)
         + (if Expired(entries[keys[|keys| - 1]], now) then [] else [keys[|keys| - 1]])
  }

  /** An entry stored exactly one hour ago is still fresh; a millisecond
      later it is stale. */
  lemma ExpiryBoundary(e: Entry)
    ensures !Expired(e, e.timestamp + TTL) && Expired(e, e.timestamp + TTL + 1)
  {
  }

  /** A key occurs once in a list without repetition: neither before nor after its place. */
  lemma DistinctSplit(s: seq<string>, i: nat)
    requires Distinct(s) && i < |s|
    ensures s[i] !in s[..i] && s[i] !in s[i + 1..] && Distinct(s[i + 1..])
  {
    var rest := s[i + 1..];
    forall j, l | 0 <= j < l < |rest|
      ensures rest[j] != rest[l]
    {
      assert rest[j] == s[i + 1 + j] && rest[l] == s[i + 1 + l];
    }
    forall j | 0 <= j < |rest|
      ensures rest[j] != s[i]
    {
      assert rest[j] == s[i + 1 + j];
    }
  }

  lemma DistinctCons(a: string, r: seq<string>)
    requires a !in r && Distinct(r)
    ensures Distinct([a] + r)
  {
    var s := [a] + r;
    forall i, j | 0 <= i < j < |s|
      ensures s[i] != s[j]
    {
      assert s[j] == r[j - 1];
      if i > 0 {
        assert s[i] == r[i - 1];
      }
    }
  }

  lemma {:induction false} WithoutDistinct(keys: seq<string>, k: string)
    requires Distinct(keys)
    ensures Distinct(Without(keys, k))
  {
    if keys != [] {
      DistinctSplit(keys, 0);
      WithoutDistinct(keys[1..], k);
      if keys[0] != k {
        DistinctCons(keys[0], Without(keys[1..], k));
      }
    }
  }

  /** Deleting a key from the map and from its key list keeps the two in step. */
  lemma DeleteKeepsStep(keys: seq<string>, entries: map<string, Entry>, k: string)
    requires Distinct(keys) && forall x :: x in entries <==> x in keys
    ensures Distinct(Without(keys, k)) && forall x :: x in entries - {k} <==> x in Without(keys, k)
  {
    WithoutDistinct(keys, k);
  }

  /** Removing a key that occurs once, between `a` and `b`, leaves `a + b`. */
  lemma {:induction false} WithoutOnce(a: seq<string>, x: string, b: seq<string>)
    requires x !in a && x !in b
    ensures Without(a + [x] + b, x) == a + b
    decreases |a|
  {
    if a == [] {
      WithoutAbsent(b, x);
      assert ([x] + b)[1..] == b;
    } else {
      assert (a + [x] + b)[1..] == a[1..] + [x] + b;
      WithoutOnce(a[1..], x, b);
    }
  }

  lemma {:induction false} WithoutAbsent(keys: seq<string>, x: string)
    requires x !in keys
    ensures Without(keys, x) == keys
  {
    if keys != [] {
      WithoutAbsent(keys[1..], x);
    }
  }

  lemma {:induction false} UnexpiredDistinct(keys: seq<string>, entries: map<string, Entry>, now: int)
    requires forall k :: k in keys ==> k in entries
    requires Distinct(keys)
    ensures Distinct(Unexpired(keys, entries, now))
  {
    if keys != [] {
      UnexpiredDistinct(keys[..|keys| - 1], entries, now);
    }
  }

  /** Sweeping twice at the same time removes nothing more. */
  lemma {:induction false} UnexpiredIdempotent(keys: seq<string>, entries: map<string, Entry>, now: int)
    requires forall k :: k in keys ==> k in entries
    ensures Unexpired(Unexpired(keys, entries, now), entries, now) == Unexpired(keys, entries, now)
  {
    if keys != [] {
      var init := keys[..|keys| - 1];
      var x := keys[|keys| - 1];
      var u := Unexpired(init, entries, now);
      UnexpiredIdempotent(init, entries, now);
      if Expired(entries[x], now) {
        assert Unexpired(keys, entries, now) == u;
      } else {
        assert Unexpired(keys, entries, now) == u + [x];
        assert (u + [x])[..|u|] == u;
        assert Unexpired(u + [x], entries, now) == Unexpired(u, entries, now) + [x];
      }
    }
  }

  /** One step of the sweep over `walk`: the key at `i` is dropped from the
      remaining list exactly when it is stale. */
  lemma SweepStep(walk: seq<string>, i: nat, entries: map<string, Entry>, now: int)
    requires Distinct(walk) && i < |walk| && forall k :: k in walk ==> k in entries
    ensures var done := Unexpired(walk[..i], entries, now); var x := walk[i];
      && (Expired(entries[x], now) ==> Without(done + walk[i..], x) == Unexpired(walk[..i + 1], entries, now) + walk[i + 1..])
      && (!Expired(entries[x], now) ==> done + walk[i..] == Unexpired(walk[..i + 1], entries, now) + walk[i + 1..])
  {
    var x, rest := walk[i], walk[i + 1..];
    var done := Unexpired(walk[..i], entries, now);
    DistinctSplit(walk, i);
    assert x !in done;
    UnexpiredStep(walk, i, entries, now);
    SplitAt(done, walk, i);
    if Expired(entries[x], now) {
      WithoutOnce(done, x, rest);
    }
  }

  /** Appending the tail that starts at `i` is appending its head, then the rest. */
  lemma SplitAt<T>(a: seq<T>, w: seq<T>, i: nat)
    requires i < |w|
    ensures a + w[i..] == a + [w[i]] + w[i + 1..]
  {
    assert w[i..] == [w[i]] + w[i + 1..];
  }

  lemma UnexpiredStep(walk: seq<string>, i: nat, entries: map<string, Entry>, now: int)
    requires i < |walk| && forall k :: k in walk ==> k in entries
    ensures Unexpired(walk[..i + 1], entries, now)
      == Unexpired(walk[..i], entries, now) + (if Expired(entries[walk[i]], now) then [] else [walk[i]])
  {
    assert walk[..i + 1][..i] == walk[..i];
  }

  /** The stats line of one key: its first eight characters and an ellipsis. */
  function ShortKey(hash: string): (s: string)
    ensures |s| <= 11 && EndsWith(s, "...") && StartsWith(hash, s[..|s| - 3])
    ensures s == hash[..if |hash| < 8 then |hash| else 8] + "..."
  {
    Take(hash, 8) + "..."
  }

  function ShortKeys(keys: seq<string>): (r: seq<string>)
    ensures |r| == |keys|
    ensures forall i :: 0 <= i < |r| ==> r[i] == ShortKey(keys[i])
  {
    if keys == [] then [] else [ShortKey(keys[0])] + ShortKeys(keys[1..])
  }

  /** The sweep over `walk` after `i` steps: the keys visited so far are
      kept exactly when fresh, the rest are untouched, and `es` holds the
      remaining keys with their original entries. */
  ghost predicate Swept(walk: seq<string>, i: nat, start: map<string, Entry>, now: int,
                        ks: seq<string>, es: map<string, Entry>)
  {
    && i <= |walk| && Distinct(walk) && (forall k :: k in walk <==> k in start)
    && (forall k :: k in es <==> k in ks)
    && ks == Unexpired(walk[..i], start, now) + walk[i..]
    && (forall k :: k in es ==> k in start && es[k] == start[k])
  }

  /** One iteration of the sweep keeps `Swept`. */
  lemma SweepPreserves(walk: seq<string>, i: nat, start: map<string, Entry>, now: int,
                       ks: seq<string>, es: map<string, Entry>, ks': seq<string>, es': map<string, Entry>)
    requires Swept(walk, i, start, now, ks, es) && i < |walk|
    requires var x := walk[i];
      x in es && (Expired(es[x], now) ==> ks' == Without(ks, x) && es' == es - {x})
      && (!Expired(es[x], now) ==> ks' == ks && es' == es)
    ensures Swept(walk, i + 1, start, now, ks', es')
  {
    var x := walk[i];
    SweepStep(walk, i, start, now);
    assert x in ks;
  }

  /** A finished sweep leaves exactly the fresh keys, in order, with their entries. */
  lemma SweepDone(walk: seq<string>, start: map<string, Entry>, now: int, ks: seq<string>, es: map<string, Entry>)
    requires Swept(walk, |walk|, start, now, ks, es)
    ensures Distinct(ks) && forall k :: k in es <==> k in ks
    ensures ks == Unexpired(walk, start, now)
    ensures forall k :: k in es <==> k in start && !Expired(start[k], now)
    ensures forall k :: k in es ==> es[k] == start[k]
  {
    assert walk[..|walk|] == walk;
    assert walk[|walk|..] == [];
    assert ks == Unexpired(walk, start, now);
    UnexpiredDistinct(walk, start, now);
  }

  /** The loop of `clearExpiredCache`: walks the keys in order and deletes
      each stale entry, from the map and from the key order. */
  method Sweep(keys: seq<string>, entries: map<string, Entry>, now: int) returns (ks: seq<string>, es: map<string, Entry>)
    requires Distinct(keys) && forall k :: k in entries <==> k in keys
    ensures Distinct(ks) && forall k :: k in es <==> k in ks
    ensures ks == Unexpired(keys, entries, now)
    ensures forall k :: k in es <==> k in entries && !Expired(entries[k], now)
    ensures forall k :: k in es ==> es[k] == entries[k]
  {
    ks, es := keys, entries;
    var i := 0;
    assert keys[..0] == [];
    while i < |keys|
      invariant 0 <= i <= |keys|
      invariant Swept(keys, i, entries, now, ks, es)
    {
      var hash := keys[i];
      var ks', es' := ks, es;
      if now - es[hash].timestamp > TTL {
        es' := es - {hash};
        ks' := Without(ks, hash);
      }
      SweepPreserves(keys, i, entries, now, ks, es, ks', es');
      ks, es := ks', es';
      i := i + 1;
    }
    SweepDone(keys, entries, now, ks, es);
  }

  /** The module's `cache` map. */
  class QuestionCache {
    var keys: seq<string>
    var entries: map<string, Entry>

    /** The keys list the map's keys once each. */
    ghost predicate Valid()
      reads this
    {
      Distinct(keys) && forall k :: k in entries <==> k in keys
    }

    constructor()
      ensures Valid() && keys == [] && entries == map[]
    {
      keys := [];
      entries := map[];
    }

    /** `getCachedQuestions(hash)` at time `now`: a stale entry is deleted
        and reported missing. */
    method Get(hash: string, now: int) returns (r: Option<Entry>)
      requires Valid()
      modifies this
      ensures Valid()
      ensures hash !in old(entries) ==> r == None && keys == old(keys) && entries == old(entries)
      ensures hash in old(entries) && Expired(old(entries)[hash], now) ==>
        r == None && entries == old(entries) - {hash} && keys == Without(old(keys), hash)
      ensures hash in old(entries) && !Expired(old(entries)[hash], now) ==>
        r == Some(old(entries)[hash]) && keys == old(keys) && entries == old(entries)
    {
      if hash !in entries {
        return None;
      }
      var entry := entries[hash];
      if now - entry.timestamp > TTL {
        DeleteKeepsStep(keys, entries, hash);
        entries := entries - {hash};
        keys := Without(keys, hash);
        return None;
      }
      return Some(entry);
    }

    /** `setCachedQuestions`: stores the entry stamped `now`; a new key goes
        last, an existing key keeps its place. */
    method Set(hash: string, questions: seq<Gemini.Question>, summary: string, now: int)
      requires Valid()
      modifies this
      ensures Valid()
      ensures entries == old(entries)[hash := Entry(questions, summary, now)]
      ensures keys == if hash in old(entries) then old(keys) else old(keys) + [hash]
    {
      if hash !in entries {
        keys := keys + [hash];
      }
      entries := entries[hash := Entry(questions, summary, now)];
    }

    /** `clearExpiredCache`: deletes every stale entry while walking the
        entries in order. */
    method ClearExpired(now: int)
      requires Valid()
      modifies this
      ensures Valid()
      ensures keys == Unexpired(old(keys), old(entries), now)
      ensures forall k :: k in entries <==> k in old(entries) && !Expired(old(entries)[k], now)
      ensures forall k :: k in entries ==> entries[k] == old(entries)[k]
    {
      keys, entries := Sweep(keys, entries, now);
    }

    /** `getCacheStats` */
    function Stats(): (s: CacheStats)
      reads this
      requires Valid()
      ensures |s.entries| == |keys|
      ensures s.size == |entries| && |s.entries| == s.size
      ensures forall i :: 0 <= i < |s.entries| ==> s.entries[i] == ShortKey(keys[i])
    {
      KeysCountEntries(keys, entries);
      CacheStats(|keys|, ShortKeys(keys))
    }
  }

  /** A distinct list of exactly the map's keys is as long as the map. */
  lemma {:induction false} KeysCountEntries(keys: seq<string>, entries: map<string, Entry>)
    requires Distinct(keys) && forall k :: k in entries <==> k in keys
    ensures |keys| == |entries|
    decreases |keys|
  {
    if keys != [] {
      var k := keys[0];
      var rest := entries - {k};
      assert forall x :: x in rest <==> x in keys[1..] by {
        forall x
          ensures x in rest <==> x in keys[1..]
        {
          if x in keys[1..] {
            var j :| 0 <= j < |keys[1..]| && keys[1..][j] == x;
            assert keys[j + 1] == x;
          }
        }
      }
      KeysCountEntries(keys[1..], rest);
    }
  }
}

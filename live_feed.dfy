/** The live block and transaction lists of the home page
    (frontend/cardano_frontend/components/BlockList.tsx and
    components/TransactionList.tsx). On each 'update' message the list
    becomes the message's items followed by the earlier ones, with later
    items whose hash was already seen dropped, cut to 20 blocks or 50
    transactions. Only the first ten are shown.

    The dropping of repeats is written as the page writes it (keep item `i`
    when `i` is the first index with its hash) and proved equal to a
    left-to-right pass with a set of seen hashes, from which its properties
    follow. Items are JSON values; their hash is their `hash` member. */
module LiveFeed {
  import opened Wrappers
  import opened Strings
  import opened Json

  const BLOCK_LIST_CAP: nat := 20
  const TRANSACTION_LIST_CAP: nat := 50
  const RENDERED: nat := 10

  // ---------------------------------------------------------------------------
  // First occurrences
  // ---------------------------------------------------------------------------

  function KeysOf<T, K>(s: seq<T>, key: T -> K): set<K> {
    set i | 0 <= i < |s| :: key(s[i])
  }

  predicate UniqueKeys<T, K(==)>(s: seq<T>, key: T -> K) {
    forall i, j :: 0 <= i < j < |s| ==> key(s[i]) != key(s[j])
  }

  /** `findIndex(x => key(x) === k)`: the first index with key `k`, or -1. */
  function FindIndex<T, K(==)>(s: seq<T>, key: T -> K, k: K): (r: int)
    ensures -1 <= r < |s|
    ensures r == -1 <==> k !in KeysOf(s, key)
    ensures r >= 0 ==> key(s[r]) == k && forall j :: 0 <= j < r ==> key(s[j]) != k
  {
    if |s| == 0 then -1
    else if key(s[0]) == k then 0
    else
      var rest := FindIndex(s[1..], key, k);
      assert forall i :: 0 <= i < |s[1..]| ==> s[1..][i] == s[i + 1];
      assert KeysOf(s, key) == {key(s[0])} + KeysOf(s[1..], key) by {
        forall x | x in KeysOf(s, key) ensures x in {key(s[0])} + KeysOf(s[1..], key) {
          var i :| 0 <= i < |s| && key(s[i]) == x;
          if i > 0 { assert key(s[1..][i - 1]) == x; }
        }
      }
      if rest == -1 then -1 else rest + 1
  }

  /** `filter((x, index, self) => index === self.findIndex(y => key(y) === key(x)))`,
      from index `i` on. */
  function UniqueFrom<T, K(==)>(s: seq<T>, key: T -> K, i: nat): seq<T>
    requires i <= |s|
    decreases |s| - i
  {
    if i == |s| then []
    else (if i == FindIndex(s, key, key(s[i])) then [s[i]] else []) + UniqueFrom(s, key, i + 1)
  }

  function Unique<T, K(==)>(s: seq<T>, key: T -> K): seq<T> {
    UniqueFrom(s, key, 0)
  }

  /** The reference pass: keep an item when its key has not been seen. */
  function FirstSeen<T, K(==)>(s: seq<T>, key: T -> K, seen: set<K>): seq<T> {
    if |s| == 0 then []
    else if key(s[0]) in seen then FirstSeen(s[1..], key, seen)
    else [s[0]] + FirstSeen(s[1..], key, seen + {key(s[0])})
  }

  lemma KeysOfSnoc<T, K>(s: seq<T>, i: nat, key: T -> K)
    requires i < |s|
    ensures KeysOf(s[..i + 1], key) == KeysOf(s[..i], key) + {key(s[i])}
  {
    assert s[..i + 1] == s[..i] + [s[i]];
    forall x | x in KeysOf(s[..i + 1], key) ensures x in KeysOf(s[..i], key) + {key(s[i])} {
      var j :| 0 <= j < i + 1 && key(s[..i + 1][j]) == x;
      if j < i { assert key(s[..i][j]) == x; }
    }
    forall x | x in KeysOf(s[..i], key) ensures x in KeysOf(s[..i + 1], key) {
      var j :| 0 <= j < i && key(s[..i][j]) == x;
      assert key(s[..i + 1][j]) == x;
    }
    assert key(s[..i + 1][i]) == key(s[i]);
  }

  /** The page's filter keeps exactly what the reference pass keeps. */
  lemma {:induction false} UniqueFromIsFirstSeen<T, K>(s: seq<T>, key: T -> K, i: nat)
    requires i <= |s|
    ensures UniqueFrom(s, key, i) == FirstSeen(s[i..], key, KeysOf(s[..i], key))
    decreases |s| - i
  {
    if i < |s| {
      UniqueFromIsFirstSeen(s, key, i + 1);
      KeysOfSnoc(s, i, key);
      assert s[i..][0] == s[i] && s[i..][1..] == s[i + 1..];
      var k := key(s[i]);
      assert (i == FindIndex(s, key, k)) <==> k !in KeysOf(s[..i], key) by {
        if k in KeysOf(s[..i], key) {
          var j :| 0 <= j < i && key(s[..i][j]) == k;
          assert key(s[j]) == k;
        } else {
          forall j | 0 <= j < i ensures key(s[j]) != k {
            assert key(s[..i][j]) == key(s[j]);
          }
        }
      }
      if k in KeysOf(s[..i], key) {
        assert KeysOf(s[..i + 1], key) == KeysOf(s[..i], key);
      }
    }
  }

  lemma UniqueIsFirstSeen<T, K>(s: seq<T>, key: T -> K)
    ensures Unique(s, key) == FirstSeen(s, key, {})
  {
    UniqueFromIsFirstSeen(s, key, 0);
    assert s[..0] == [] && s[0..] == s;
    assert KeysOf(s[..0], key) == {};
  }

  lemma KeysOfCons<T, K>(s: seq<T>, key: T -> K)
    requires |s| > 0
    ensures KeysOf(s, key) == {key(s[0])} + KeysOf(s[1..], key)
  {
    forall x | x in KeysOf(s, key) ensures x in {key(s[0])} + KeysOf(s[1..], key) {
      var i :| 0 <= i < |s| && key(s[i]) == x;
      if i > 0 { assert key(s[1..][i - 1]) == x; }
    }
    forall x | x in KeysOf(s[1..], key) ensures x in KeysOf(s, key) {
      var i :| 0 <= i < |s[1..]| && key(s[1..][i]) == x;
      assert key(s[i + 1]) == x;
    }
  }

  /** The reference pass keeps each unseen key once, and nothing else. */
  lemma {:induction false} FirstSeenKeys<T, K>(s: seq<T>, key: T -> K, seen: set<K>)
    ensures KeysOf(FirstSeen(s, key, seen), key) == KeysOf(s, key) - seen
    ensures UniqueKeys(FirstSeen(s, key, seen), key)
  {
    if |s| > 0 {
      KeysOfCons(s, key);
      var k := key(s[0]);
      if k in seen {
        FirstSeenKeys(s[1..], key, seen);
      } else {
        FirstSeenKeys(s[1..], key, seen + {k});
        var rest := FirstSeen(s[1..], key, seen + {k});
        var r := [s[0]] + rest;
        KeysOfCons(r, key);
        assert r[1..] == rest;
        forall i, j | 0 <= i < j < |r| ensures key(r[i]) != key(r[j]) {
          if i == 0 {
            assert key(r[j]) in KeysOf(rest, key) by { assert key(rest[j - 1]) == key(r[j]); }
          } else {
            assert r[i] == rest[i - 1] && r[j] == rest[j - 1];
          }
        }
      }
    }
  }

  /** The pass over a concatenation is the pass over the first part, then
      the pass over the second with the first part's keys seen. */
  lemma {:induction false} FirstSeenAppend<T, K>(a: seq<T>, b: seq<T>, key: T -> K, seen: set<K>)
    ensures FirstSeen(a + b, key, seen) == FirstSeen(a, key, seen) + FirstSeen(b, key, seen + KeysOf(a, key))
  {
    if |a| == 0 {
      assert a + b == b;
      assert KeysOf(a, key) == {};
      assert seen + KeysOf(a, key) == seen;
      assert FirstSeen(a, key, seen) == [];
    } else {
      KeysOfCons(a, key);
      assert (a + b)[0] == a[0] && (a + b)[1..] == a[1..] + b;
      var k := key(a[0]);
      if k in seen {
        FirstSeenAppend(a[1..], b, key, seen);
        assert seen + KeysOf(a[1..], key) == seen + KeysOf(a, key);
      } else {
        FirstSeenAppend(a[1..], b, key, seen + {k});
        assert seen + {k} + KeysOf(a[1..], key) == seen + KeysOf(a, key);
      }
    }
  }

  /** Nothing is kept when every key has been seen. */
  lemma {:induction false} FirstSeenAllSeen<T, K>(a: seq<T>, key: T -> K, seen: set<K>)
    requires KeysOf(a, key) <= seen
    ensures FirstSeen(a, key, seen) == []
  {
    if |a| > 0 {
      KeysOfCons(a, key);
      FirstSeenAllSeen(a[1..], key, seen);
    }
  }

  /** Everything is kept when the keys are distinct and none is seen. */
  lemma {:induction false} FirstSeenFresh<T, K>(a: seq<T>, key: T -> K, seen: set<K>)
    requires UniqueKeys(a, key) && KeysOf(a, key) !! seen
    ensures FirstSeen(a, key, seen) == a
  {
    if |a| > 0 {
      KeysOfCons(a, key);
      var k := key(a[0]);
      assert k !in KeysOf(a[1..], key) by {
        forall i | 0 <= i < |a[1..]| ensures key(a[1..][i]) != k {
          assert a[1..][i] == a[i + 1];
        }
      }
      assert UniqueKeys(a[1..], key) by {
        forall i, j | 0 <= i < j < |a[1..]| ensures key(a[1..][i]) != key(a[1..][j]) {
          assert a[1..][i] == a[i + 1] && a[1..][j] == a[j + 1];
        }
      }
      FirstSeenFresh(a[1..], key, seen + {k});
      assert a == [a[0]] + a[1..];
    }
  }

  /** What the pass keeps is the first item of `s` with that key. */
  lemma {:induction false} FirstSeenKeepsFirst<T, K>(s: seq<T>, key: T -> K, seen: set<K>, x: T)
    requires x in FirstSeen(s, key, seen)
    ensures key(x) in KeysOf(s, key) && x == s[FindIndex(s, key, key(x))]
  {
    FirstSeenKeys(s, key, seen);
    var r := FirstSeen(s, key, seen);
    var n :| 0 <= n < |r| && r[n] == x;
    assert key(x) in KeysOf(r, key);
    KeysOfCons(s, key);
    var k := key(s[0]);
    if k in seen {
      FirstSeenKeys(s[1..], key, seen);
      FirstSeenKeepsFirst(s[1..], key, seen, x);
    } else if x != s[0] {
      assert x in FirstSeen(s[1..], key, seen + {k});
      FirstSeenKeys(s[1..], key, seen + {k});
      assert key(x) in KeysOf(FirstSeen(s[1..], key, seen + {k}), key) by {
        var m :| 0 <= m < |FirstSeen(s[1..], key, seen + {k})| && FirstSeen(s[1..], key, seen + {k})[m] == x;
      }
      FirstSeenKeepsFirst(s[1..], key, seen + {k}, x);
    }
  }

  // ---------------------------------------------------------------------------
  // The update
  // ---------------------------------------------------------------------------

  /** `[...incoming, ...prev]`, repeats dropped, cut to `cap`. */
  function Merge<T, K(==)>(incoming: seq<T>, prev: seq<T>, key: T -> K, cap: nat): (r: seq<T>)
    ensures |r| <= cap
    ensures UniqueKeys(r, key)
    ensures KeysOf(r, key) <= KeysOf(incoming, key) + KeysOf(prev, key)
  {
    var r := Take(Unique(incoming + prev, key), cap);
    UniqueIsFirstSeen(incoming + prev, key);
    FirstSeenKeys(incoming + prev, key, {});
    TakeKeeps(Unique(incoming + prev, key), cap, key);
    KeysOfAppend(incoming, prev, key);
    r
  }

  lemma TakeKeeps<T, K>(s: seq<T>, n: nat, key: T -> K)
    requires UniqueKeys(s, key)
    ensures UniqueKeys(Take(s, n), key)
    ensures KeysOf(Take(s, n), key) <= KeysOf(s, key)
  {
    var t := Take(s, n);
    forall x | x in KeysOf(t, key) ensures x in KeysOf(s, key) {
      var i :| 0 <= i < |t| && key(t[i]) == x;
      assert key(s[i]) == x;
    }
  }

  lemma KeysOfAppend<T, K>(a: seq<T>, b: seq<T>, key: T -> K)
    ensures KeysOf(a + b, key) == KeysOf(a, key) + KeysOf(b, key)
  {
    forall x | x in KeysOf(a + b, key) ensures x in KeysOf(a, key) + KeysOf(b, key) {
      var i :| 0 <= i < |a + b| && key((a + b)[i]) == x;
      if i < |a| { assert key(a[i]) == x; } else { assert key(b[i - |a|]) == x; }
    }
    forall x | x in KeysOf(a, key) ensures x in KeysOf(a + b, key) {
      var i :| 0 <= i < |a| && key(a[i]) == x;
      assert key((a + b)[i]) == x;
    }
    forall x | x in KeysOf(b, key) ensures x in KeysOf(a + b, key) {
      var i :| 0 <= i < |b| && key(b[i]) == x;
      assert key((a + b)[|a| + i]) == x;
    }
  }

  /** The merged list is the incoming items without repeats, then the
      earlier items whose key the incoming items do not have. */
  lemma MergeSplits<T, K>(incoming: seq<T>, prev: seq<T>, key: T -> K)
    ensures Unique(incoming + prev, key)
         == Unique(incoming, key) + FirstSeen(prev, key, KeysOf(incoming, key))
  {
    UniqueIsFirstSeen(incoming + prev, key);
    UniqueIsFirstSeen(incoming, key);
    FirstSeenAppend(incoming, prev, key, {});
    assert {} + KeysOf(incoming, key) == KeysOf(incoming, key);
  }

  /** The incoming items, without repeats and in their order, lead the list. */
  lemma IncomingLeads<T, K>(incoming: seq<T>, prev: seq<T>, key: T -> K, cap: nat)
    ensures var lead := Take(Unique(incoming, key), cap);
      |lead| <= |Merge(incoming, prev, key, cap)| && Merge(incoming, prev, key, cap)[..|lead|] == lead
  {
    MergeSplits(incoming, prev, key);
  }

  /** An item whose key the incoming items have is the incoming item: the
      message's copy wins over an earlier one. */
  lemma IncomingCopyWins<T, K>(incoming: seq<T>, prev: seq<T>, key: T -> K, cap: nat, x: T)
    requires x in Merge(incoming, prev, key, cap) && key(x) in KeysOf(incoming, key)
    ensures x == incoming[FindIndex(incoming, key, key(x))]
  {
    MergeSplits(incoming, prev, key);
    UniqueIsFirstSeen(incoming, key);
    var whole := Unique(incoming + prev, key);
    var m := Unique(incoming, key);
    var rest := FirstSeen(prev, key, KeysOf(incoming, key));
    var i :| 0 <= i < |Merge(incoming, prev, key, cap)| && Merge(incoming, prev, key, cap)[i] == x;
    assert whole[i] == x;
    if i < |m| {
      assert x in FirstSeen(incoming, key, {}) by { assert m[i] == x; }
      FirstSeenKeepsFirst(incoming, key, {}, x);
    } else {
      FirstSeenKeys(prev, key, KeysOf(incoming, key));
      assert false;
    }
  }

  /** Applying the same message twice gives the list applying it once gives. */
  lemma MergeIdempotent<T, K>(incoming: seq<T>, prev: seq<T>, key: T -> K, cap: nat)
    ensures Merge(incoming, Merge(incoming, prev, key, cap), key, cap) == Merge(incoming, prev, key, cap)
  {
    var once := Merge(incoming, prev, key, cap);
    var m := Unique(incoming, key);
    var rest := FirstSeen(prev, key, KeysOf(incoming, key));
    var kin := KeysOf(incoming, key);
    MergeSplits(incoming, prev, key);
    MergeSplits(incoming, once, key);
    UniqueIsFirstSeen(incoming, key);
    FirstSeenKeys(incoming, key, {});
    FirstSeenKeys(prev, key, kin);
    assert once == Take(m + rest, cap);
    if cap <= |m| {
      assert once == Take(m, cap);
      TakeKeeps(m, cap, key);
      FirstSeenAllSeen(once, key, kin);
      assert m + [] == m;
    } else {
      var tail := Take(rest, cap - |m|);
      assert once == m + tail;
      TakeKeeps(rest, cap - |m|, key);
      FirstSeenAppend(m, tail, key, kin);
      FirstSeenAllSeen(m, key, kin);
      FirstSeenFresh(tail, key, kin + KeysOf(m, key));
      assert FirstSeen(once, key, kin) == tail;
    }
  }

  // ---------------------------------------------------------------------------
  // The two lists
  // ---------------------------------------------------------------------------

  /** The key the lists compare: the item's `hash`. */
  function HashOf(item: Value): Option<Value> {
    Get(item, "hash")
  }

  /** `lastMessage?.type === 'update'`. */
  predicate IsUpdate(lastMessage: Option<Value>) {
    lastMessage.Some? && Get(lastMessage.value, "type") == Some(Str("update"))
  }

  /** The items of a message's member, when it is an array. */
  function ArrayMember(lastMessage: Option<Value>, member: string): Option<seq<Value>> {
    if lastMessage.Some? && Get(lastMessage.value, member).Some? && Get(lastMessage.value, member).value.Arr? then
      Some(Get(lastMessage.value, member).value.items)
    else None
  }

  /** The `lastMessage` effect of `BlockList`. */
  function BlockListUpdate(prev: seq<Value>, lastMessage: Option<Value>): (r: seq<Value>)
    ensures !IsUpdate(lastMessage) || ArrayMember(lastMessage, "blocks").None? ==> r == prev
    ensures IsUpdate(lastMessage) && ArrayMember(lastMessage, "blocks").Some? ==>
      r == Merge(ArrayMember(lastMessage, "blocks").value, prev, HashOf, BLOCK_LIST_CAP)
    ensures UniqueKeys(prev, HashOf) && |prev| <= BLOCK_LIST_CAP ==> UniqueKeys(r, HashOf) && |r| <= BLOCK_LIST_CAP
  {
    if IsUpdate(lastMessage) && ArrayMember(lastMessage, "blocks").Some? then
      Merge(ArrayMember(lastMessage, "blocks").value, prev, HashOf, BLOCK_LIST_CAP)
    else prev
  }

  /** The `lastMessage` effect of `TransactionList` (an empty array is an
      update too). */
  function TransactionListUpdate(prev: seq<Value>, lastMessage: Option<Value>): (r: seq<Value>)
    ensures !IsUpdate(lastMessage) || ArrayMember(lastMessage, "transactions").None? ==> r == prev
    ensures IsUpdate(lastMessage) && ArrayMember(lastMessage, "transactions").Some? ==>
      r == Merge(ArrayMember(lastMessage, "transactions").value, prev, HashOf, TRANSACTION_LIST_CAP)
    ensures UniqueKeys(prev, HashOf) && |prev| <= TRANSACTION_LIST_CAP ==>
      UniqueKeys(r, HashOf) && |r| <= TRANSACTION_LIST_CAP
  {
    if IsUpdate(lastMessage) && ArrayMember(lastMessage, "transactions").Some? then
      Merge(ArrayMember(lastMessage, "transactions").value, prev, HashOf, TRANSACTION_LIST_CAP)
    else prev
  }

  /** The same message seen twice changes nothing the second time. */
  lemma ListUpdatesIdempotent(prev: seq<Value>, lastMessage: Option<Value>)
    ensures BlockListUpdate(BlockListUpdate(prev, lastMessage), lastMessage) == BlockListUpdate(prev, lastMessage)
    ensures TransactionListUpdate(TransactionListUpdate(prev, lastMessage), lastMessage)
         == TransactionListUpdate(prev, lastMessage)
  {
    if IsUpdate(lastMessage) && ArrayMember(lastMessage, "blocks").Some? {
      MergeIdempotent(ArrayMember(lastMessage, "blocks").value, prev, HashOf, BLOCK_LIST_CAP);
    }
    if IsUpdate(lastMessage) && ArrayMember(lastMessage, "transactions").Some? {
      MergeIdempotent(ArrayMember(lastMessage, "transactions").value, prev, HashOf, TRANSACTION_LIST_CAP);
    }
  }

  /** The block cards shown: the first ten blocks, the first flagged
      latest. */
  function RenderedBlocks(list: seq<Value>): (r: seq<(Value, bool)>)
    ensures |r| == Min(RENDERED, |list|)
    ensures forall i :: 0 <= i < |r| ==> r[i] == (list[i], i == 0)
  {
    var shown := Take(list, RENDERED);
    seq(|shown|, i requires 0 <= i < |shown| => (shown[i], i == 0))
  }

  /** The transaction cards shown: the first ten transactions. */
  function RenderedTransactions(list: seq<Value>): (r: seq<Value>)
    ensures |r| == Min(RENDERED, |list|) && r <= list
  {
    Take(list, RENDERED)
  }
}

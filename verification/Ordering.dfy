/**
 Batches. The recovery sweeps and the claim call gather records in map order, sort them by one or two
 instants and then by identifier, and keep a prefix. `Batch` says which keys that is without
 mentioning the gathering order; `SelectBatch` is the loop.
 */
module Ordering {
  import opened Text
  import opened Revocations

  datatype SortKey = SortKey(first: Time, second: Time, id: string)

  predicate Precedes(a: SortKey, b: SortKey) {
    || a.first < b.first
    || (a.first == b.first && a.second < b.second)
    || (a.first == b.first && a.second == b.second && Less(a.id, b.id))
  }

  lemma PrecedesTotal(a: SortKey, b: SortKey)
    ensures Precedes(a, b) || a == b || Precedes(b, a)
    ensures !(Precedes(a, b) && Precedes(b, a))
  {
    LessTotal(a.id, b.id);
  }

  lemma PrecedesTransitive(a: SortKey, b: SortKey, c: SortKey)
    requires Precedes(a, b) && Precedes(b, c)
    ensures Precedes(a, c)
  {
    if Less(a.id, b.id) && Less(b.id, c.id) {
      LessTransitive(a.id, b.id, c.id);
    }
  }

  ghost predicate IsLeast(m: SortKey, keys: set<SortKey>) {
    m in keys && forall k | k in keys && k != m :: Precedes(m, k)
  }

  lemma {:induction false} LeastExists(keys: set<SortKey>) returns (m: SortKey)
    requires keys != {}
    ensures IsLeast(m, keys)
    decreases |keys|
  {
    var k :| k in keys;
    var rest := keys - {k};
    if rest == {} {
      m := k;
      assert keys == {k};
    } else {
      var l := LeastExists(rest);
      PrecedesTotal(k, l);
      if Precedes(k, l) {
        m := k;
        forall x | x in keys && x != k ensures Precedes(k, x) {
          if x != l { PrecedesTransitive(k, l, x); }
        }
      } else {
        m := l;
      }
    }
  }

  ghost function Least(keys: set<SortKey>): (m: SortKey)
    requires keys != {}
    ensures IsLeast(m, keys)
  {
    assert exists m :: IsLeast(m, keys) by { var m := LeastExists(keys); }
    var m :| IsLeast(m, keys);
    m
  }

  lemma LeastUnique(m: SortKey, keys: set<SortKey>)
    requires IsLeast(m, keys)
    ensures m == Least(keys)
  {
    PrecedesTotal(m, Least(keys));
  }

  /** The first `limit` keys in order. */
  ghost function Batch(keys: set<SortKey>, limit: nat): (chosen: seq<SortKey>)
    ensures |chosen| == if |keys| <= limit then |keys| else limit
    ensures forall k | k in chosen :: k in keys
    decreases limit
  {
    if keys == {} || limit == 0 then []
    else
      var m := Least(keys);
      var rest := keys - {m};
      assert |rest| == |keys| - 1;
      [m] + Batch(rest, limit - 1)
  }

  predicate Ascending(s: seq<SortKey>) {
    forall i, j | 0 <= i < j < |s| :: Precedes(s[i], s[j])
  }

  /** The batch is in order, repeats nothing, and whatever it leaves behind comes after all of it. */
  lemma {:induction false} BatchIsPrefix(keys: set<SortKey>, limit: nat)
    ensures Ascending(Batch(keys, limit))
    ensures forall k, i | k in keys && k !in Batch(keys, limit) && 0 <= i < |Batch(keys, limit)| ::
              Precedes(Batch(keys, limit)[i], k)
    decreases limit
  {
    if keys != {} && limit > 0 {
      var m := Least(keys);
      var rest := keys - {m};
      BatchIsPrefix(rest, limit - 1);
      var tail := Batch(rest, limit - 1);
      assert Batch(keys, limit) == [m] + tail;
      forall i | 0 <= i < |tail| ensures Precedes(m, tail[i]) {
        assert tail[i] in tail;
      }
    }
  }

  lemma AscendingDistinct(s: seq<SortKey>)
    requires Ascending(s)
    ensures forall i, j | 0 <= i < j < |s| :: s[i] != s[j]
  {
    forall i, j | 0 <= i < j < |s| ensures s[i] != s[j] {
      PrecedesTotal(s[i], s[j]);
    }
  }

  lemma AscendingHead(s: seq<SortKey>, keys: set<SortKey>)
    requires |s| > 0 && Ascending(s) && (set k | k in s) == keys
    ensures keys != {} && s[0] == Least(keys)
    ensures (set k | k in s[1..]) == keys - {s[0]}
  {
    assert s[0] in keys;
    AscendingDistinct(s);
    forall k | k in keys && k != s[0] ensures Precedes(s[0], k) {
      var i :| 0 <= i < |s| && s[i] == k;
    }
    LeastUnique(s[0], keys);
    forall k ensures k in s[1..] <==> k in keys - {s[0]} {
      if k in s[1..] {
        var i :| 0 <= i < |s| - 1 && s[1..][i] == k;
        assert s[i + 1] == k;
      }
    }
  }

  function Cut(s: seq<SortKey>, limit: nat): seq<SortKey> {
    if |s| <= limit then s else s[..limit]
  }

  lemma CutStep(s: seq<SortKey>, limit: nat)
    requires |s| > 0 && limit > 0
    ensures Cut(s, limit) == [s[0]] + Cut(s[1..], limit - 1)
  {
  }

  lemma BatchStep(keys: set<SortKey>, limit: nat)
    requires keys != {} && limit > 0
    ensures Batch(keys, limit) == [Least(keys)] + Batch(keys - {Least(keys)}, limit - 1)
  {
  }

  /** An ascending listing of the keys, cut at the limit, is the batch. */
  lemma {:induction false} AscendingIsBatch(s: seq<SortKey>, keys: set<SortKey>, limit: nat)
    requires Ascending(s) && (set k | k in s) == keys
    ensures Cut(s, limit) == Batch(keys, limit)
    decreases limit
  {
    hide *;
    if |s| == 0 || limit == 0 {
      NothingToBatch(s, keys, limit);
    } else {
      AscendingHead(s, keys);
      AscendingTail(s);
      AscendingIsBatch(s[1..], keys - {s[0]}, limit - 1);
      CutStep(s, limit);
      BatchStep(keys, limit);
    }
  }

  lemma NothingToBatch(s: seq<SortKey>, keys: set<SortKey>, limit: nat)
    requires (|s| == 0 || limit == 0) && (set k | k in s) == keys
    ensures Cut(s, limit) == Batch(keys, limit)
  {
  }

  lemma AscendingTail(s: seq<SortKey>)
    requires Ascending(s) && |s| > 0
    ensures Ascending(s[1..])
  {
    hide Precedes;
  }

  method Insert(s: seq<SortKey>, k: SortKey) returns (r: seq<SortKey>)
    requires Ascending(s) && k !in s
    ensures Ascending(r) && (set x | x in r) == (set x | x in s) + {k}
  {
    var i := 0;
    while i < |s| && Precedes(s[i], k)
      invariant 0 <= i <= |s|
      invariant forall j | 0 <= j < i :: Precedes(s[j], k)
    {
      i := i + 1;
    }
    r := s[..i] + [k] + s[i..];
    if i < |s| {
      PrecedesTotal(s[i], k);
      assert s[i] in s;
      forall j | i <= j < |s| ensures Precedes(k, s[j]) {
        if j > i { PrecedesTransitive(k, s[i], s[j]); }
      }
    }
    assert forall x :: x in r <==> x in s || x == k by {
      assert s == s[..i] + s[i..];
    }
  }

  /** Collects in whatever order the map yields, sorts, and truncates. */
  method SelectBatch(keys: set<SortKey>, limit: nat) returns (chosen: seq<SortKey>)
    ensures chosen == Batch(keys, limit)
  {
    var rest := keys;
    var sorted: seq<SortKey> := [];
    while rest != {}
      invariant rest <= keys
      invariant Ascending(sorted) && (set x | x in sorted) == keys - rest
      decreases |rest|
    {
      var k :| k in rest;
      assert forall x | x in sorted :: x in (set y | y in sorted);
      sorted := Insert(sorted, k);
      rest := rest - {k};
    }
    AscendingIsBatch(sorted, keys, limit);
    chosen := Cut(sorted, limit);
  }
}

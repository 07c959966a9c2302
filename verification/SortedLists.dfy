/** Sets written as lists of strings: ascending order, sorting, and membership by halving. */
module SortedLists {
  import opened Options
  import opened Text

  predicate AllValid(values: seq<string>, valid: string -> bool) {
    forall v | v in values :: valid(v)
  }

  predicate Ascending(xs: seq<string>) {
    forall i, j | 0 <= i < j < |xs| :: Less(xs[i], xs[j])
  }

  predicate NonDescending(xs: seq<string>) {
    forall i, j | 0 <= i < j < |xs| :: xs[i] == xs[j] || Less(xs[i], xs[j])
  }

  predicate SameElements(xs: seq<string>, ys: seq<string>) {
    (forall x | x in xs :: x in ys) && (forall y | y in ys :: y in xs)
  }

  lemma AscendingFirst(xs: seq<string>, ys: seq<string>)
    requires Ascending(xs) && Ascending(ys) && SameElements(xs, ys) && |xs| > 0
    ensures |ys| > 0 && xs[0] == ys[0]
  {
    assert xs[0] in ys;
    var i :| 0 <= i < |ys| && ys[i] == xs[0];
    assert ys[0] in xs;
    var j :| 0 <= j < |xs| && xs[j] == ys[0];
    LessTotal(xs[0], ys[0]);
  }

  lemma AscendingRest(xs: seq<string>, ys: seq<string>)
    requires Ascending(xs) && Ascending(ys) && SameElements(xs, ys) && |xs| > 0 && |ys| > 0 && xs[0] == ys[0]
    ensures SameElements(xs[1..], ys[1..])
  {
    forall x | x in xs[1..] ensures x in ys[1..] {
      RestIn(xs, ys, x);
    }
    forall y | y in ys[1..] ensures y in xs[1..] {
      RestIn(ys, xs, y);
    }
  }

  lemma RestIn(xs: seq<string>, ys: seq<string>, x: string)
    requires Ascending(xs) && |xs| > 0 && |ys| > 0 && xs[0] == ys[0] && (forall v | v in xs :: v in ys) && x in xs[1..]
    ensures x in ys[1..]
  {
    var i :| 0 <= i < |xs| - 1 && xs[1..][i] == x;
    assert xs[i + 1] == x;
    LessTotal(xs[0], x);
    assert x in xs;
    var j :| 0 <= j < |ys| && ys[j] == x;
    assert ys[1..][j - 1] == x;
  }

  /** A set has one ascending listing. */
  lemma {:induction false} AscendingUnique(xs: seq<string>, ys: seq<string>)
    requires Ascending(xs) && Ascending(ys) && SameElements(xs, ys)
    ensures xs == ys
    decreases |xs|
  {
    if |ys| > 0 { assert ys[0] in ys; }
    if |xs| > 0 {
      AscendingFirst(xs, ys);
      AscendingRest(xs, ys);
      AscendingUnique(xs[1..], ys[1..]);
      assert xs == [xs[0]] + xs[1..] && ys == [ys[0]] + ys[1..];
    }
  }

  /** Insertion of one more value; a value already there changes nothing. */
  function Inserted(xs: seq<string>, x: string): seq<string> {
    if |xs| == 0 then [x]
    else if xs[0] == x then xs
    else if Less(x, xs[0]) then [x] + xs
    else [xs[0]] + Inserted(xs[1..], x)
  }

  lemma {:induction false} InsertedFits(xs: seq<string>, x: string)
    requires Ascending(xs)
    ensures Ascending(Inserted(xs, x))
    ensures forall v :: v in Inserted(xs, x) <==> v in xs || v == x
    decreases |xs|
  {
    if |xs| > 0 {
      assert xs == [xs[0]] + xs[1..];
      LessTotal(x, xs[0]);
      if Less(x, xs[0]) {
        InsertedFront(xs, x);
      } else if xs[0] != x {
        InsertedFits(xs[1..], x);
        InsertedBehind(xs[0], xs[1..], x);
      }
    }
  }

  lemma InsertedFront(xs: seq<string>, x: string)
    requires Ascending(xs) && |xs| > 0 && Less(x, xs[0])
    ensures Ascending([x] + xs)
  {
    forall i | 0 <= i < |xs| ensures Less(x, xs[i]) {
      if i > 0 { LessTransitive(x, xs[0], xs[i]); }
    }
  }

  lemma InsertedBehind(first: string, rest: seq<string>, x: string)
    requires Ascending([first] + rest) && Ascending(Inserted(rest, x)) && Less(first, x)
    requires forall v :: v in Inserted(rest, x) <==> v in rest || v == x
    ensures Ascending([first] + Inserted(rest, x))
  {
    var ys := Inserted(rest, x);
    forall i | 0 <= i < |ys| ensures Less(first, ys[i]) {
      assert ys[i] in ys;
      if ys[i] != x {
        var j :| 0 <= j < |rest| && rest[j] == ys[i];
        assert ([first] + rest)[0] == first && ([first] + rest)[j + 1] == ys[i];
      }
    }
  }

  /** The set a list stands for, in ascending order. */
  function Normalized(values: seq<string>): (r: seq<string>)
    ensures Ascending(r) && SameElements(r, values)
  {
    if |values| == 0 then []
    else
      var rest := Normalized(values[1..]);
      InsertedFits(rest, values[0]);
      assert values == [values[0]] + values[1..];
      Inserted(rest, values[0])
  }

  lemma NormalizedExactly(xs: seq<string>, ys: seq<string>)
    ensures Normalized(xs) == Normalized(ys) <==> SameElements(xs, ys)
  {
    if SameElements(xs, ys) { AscendingUnique(Normalized(xs), Normalized(ys)); }
  }

  lemma {:induction false} InsertedSize(xs: seq<string>, x: string)
    ensures |Inserted(xs, x)| <= |xs| + 1
  {
    if |xs| > 0 { InsertedSize(xs[1..], x); }
  }

  lemma {:induction false} NormalizedSize(values: seq<string>)
    ensures |Normalized(values)| <= |values|
  {
    if |values| > 0 {
      NormalizedSize(values[1..]);
      InsertedSize(Normalized(values[1..]), values[0]);
    }
  }

  /** `normalizeSet`: check every value, sort, drop repetitions. */
  method NormalizeSet(values: seq<string>, valid: string -> bool) returns (r: Option<seq<string>>)
    ensures r.Some? <==> forall v | v in values :: valid(v)
    ensures r.Some? ==> r.value == Normalized(values)
  {
    var i := 0;
    while i < |values|
      invariant 0 <= i <= |values|
      invariant forall j | 0 <= j < i :: valid(values[j])
    {
      if !valid(values[i]) { return None; }
      i := i + 1;
    }
    var sorted := Sort(values);
    var compact := Compact(sorted);
    AscendingUnique(compact, Normalized(values));
    return Some(compact);
  }

  method Sort(values: seq<string>) returns (sorted: seq<string>)
    ensures NonDescending(sorted) && SameElements(sorted, values)
  {
    sorted := [];
    var i := 0;
    while i < |values|
      invariant 0 <= i <= |values|
      invariant NonDescending(sorted) && SameElements(sorted, values[..i])
    {
      ghost var before := sorted;
      sorted := InsertSorted(sorted, values[i]);
      assert values[..i + 1] == values[..i] + [values[i]];
      i := i + 1;
    }
    assert values[..i] == values;
  }

  method InsertSorted(xs: seq<string>, x: string) returns (ys: seq<string>)
    requires NonDescending(xs)
    ensures NonDescending(ys) && forall v :: v in ys <==> v in xs || v == x
  {
    var i := 0;
    while i < |xs| && Less(xs[i], x)
      invariant 0 <= i <= |xs|
      invariant forall j | 0 <= j < i :: Less(xs[j], x)
    {
      i := i + 1;
    }
    ys := xs[..i] + [x] + xs[i..];
    assert xs == xs[..i] + xs[i..];
    forall j | i <= j < |xs| ensures x == xs[j] || Less(x, xs[j]) {
      LessTotal(x, xs[i]);
      if j > i && xs[i] != xs[j] && x != xs[i] { LessTransitive(x, xs[i], xs[j]); }
    }
  }

  method Compact(xs: seq<string>) returns (ys: seq<string>)
    requires NonDescending(xs)
    ensures Ascending(ys) && SameElements(ys, xs)
  {
    ys := [];
    var i := 0;
    while i < |xs|
      invariant 0 <= i <= |xs|
      invariant Ascending(ys) && SameElements(ys, xs[..i])
      invariant i == 0 <==> |ys| == 0
      invariant i > 0 ==> ys[|ys| - 1] == xs[i - 1]
    {
      assert xs[..i + 1] == xs[..i] + [xs[i]];
      if i == 0 || xs[i] != xs[i - 1] {
        forall j | 0 <= j < |ys| ensures Less(ys[j], xs[i]) {
          if j < |ys| - 1 { LessTransitive(ys[j], ys[|ys| - 1], xs[i]); }
        }
        ys := ys + [xs[i]];
      }
      i := i + 1;
    }
    assert xs[..i] == xs;
  }

  /** `slices.BinarySearch` on an ascending list decides membership. */
  method BinarySearch(xs: seq<string>, x: string) returns (found: bool)
    requires Ascending(xs)
    ensures found <==> x in xs
  {
    var low, high := 0, |xs|;
    while low < high
      invariant 0 <= low <= high <= |xs|
      invariant forall i | 0 <= i < low :: Less(xs[i], x)
      invariant forall i | high <= i < |xs| :: !Less(xs[i], x)
    {
      var middle := (low + high) / 2;
      LessTotal(xs[middle], x);
      if Less(xs[middle], x) {
        forall i | low <= i < middle ensures Less(xs[i], x) {
          LessTransitive(xs[i], xs[middle], x);
        }
        low := middle + 1;
      } else {
        forall i | middle < i < |xs| ensures !Less(xs[i], x) {
          AboveStaysAbove(xs[middle], xs[i], x);
        }
        high := middle;
      }
    }
    found := low < |xs| && xs[low] == x;
    forall i | 0 <= i < |xs| && xs[i] == x ensures i == low {
      LessTotal(x, x);
    }
  }

  lemma AboveStaysAbove(a: string, b: string, x: string)
    requires !Less(a, x) && Less(a, b)
    ensures !Less(b, x)
  {
    if Less(b, x) { LessTransitive(a, b, x); }
  }

  /** `validSortedUniqueStrings`: within the bounds, strictly ascending, every value valid. */
  method ValidSortedUnique(values: seq<string>, minimum: nat, maximum: nat, valid: string -> bool) returns (ok: bool)
    ensures ok <==> minimum <= |values| <= maximum && Ascending(values) && forall v | v in values :: valid(v)
  {
    var sorted := IsSorted(values);
    if |values| < minimum || |values| > maximum || !sorted {
      if |values| > 0 && !sorted { AscendingIsSorted(values); }
      return false;
    }
    var i := 0;
    while i < |values|
      invariant 0 <= i <= |values|
      invariant forall j | 0 <= j < i :: valid(values[j])
      invariant forall j | 0 < j < i :: values[j - 1] != values[j]
    {
      if !valid(values[i]) { return false; }
      if i > 0 && values[i - 1] == values[i] {
        LessTotal(values[i - 1], values[i]);
        return false;
      }
      i := i + 1;
    }
    SortedWithoutRepeats(values);
    return true;
  }

  lemma AscendingIsSorted(xs: seq<string>)
    ensures Ascending(xs) ==> NonDescending(xs)
  {
  }

  method IsSorted(xs: seq<string>) returns (sorted: bool)
    ensures sorted <==> NonDescending(xs)
  {
    var i := 1;
    while i < |xs|
      invariant 1 <= i && (i <= |xs| || |xs| == 0)
      invariant NonDescending(xs[..if i <= |xs| then i else 0])
    {
      if xs[i] != xs[i - 1] && Less(xs[i], xs[i - 1]) {
        LessTotal(xs[i], xs[i - 1]);
        return false;
      }
      LessTotal(xs[i], xs[i - 1]);
      SortedExtend(xs, i);
      i := i + 1;
    }
    if |xs| > 0 { assert xs[..|xs|] == xs; }
    return true;
  }

  lemma SortedExtend(xs: seq<string>, i: nat)
    requires 0 < i < |xs| && NonDescending(xs[..i]) && (xs[i - 1] == xs[i] || Less(xs[i - 1], xs[i]))
    ensures NonDescending(xs[..i + 1])
  {
    forall j | 0 <= j < i ensures xs[j] == xs[i] || Less(xs[j], xs[i]) {
      assert xs[..i][j] == xs[j] && xs[..i][i - 1] == xs[i - 1];
      if j < i - 1 && xs[j] != xs[i - 1] && xs[i - 1] != xs[i] { LessTransitive(xs[j], xs[i - 1], xs[i]); }
    }
    forall j, k | 0 <= j < k < i ensures xs[j] == xs[k] || Less(xs[j], xs[k]) {
      assert xs[..i][j] == xs[j] && xs[..i][k] == xs[k];
    }
  }

  lemma {:induction false} SortedWithoutRepeats(xs: seq<string>)
    requires NonDescending(xs) && forall j | 0 < j < |xs| :: xs[j - 1] != xs[j]
    ensures Ascending(xs)
  {
    forall i, j | 0 <= i < j < |xs| ensures Less(xs[i], xs[j]) {
      assert xs[i] == xs[i + 1] || Less(xs[i], xs[i + 1]);
      if i + 1 < j && xs[i + 1] != xs[j] { LessTransitive(xs[i], xs[i + 1], xs[j]); }
    }
  }
}

/**
 The digest of an asset list query. Filters are sets written as lists; the digest must not depend on
 their order or repetitions, and two different queries must never feed the same bytes to the hash.
 */
module QueryDigests {
  import opened Options
  import opened Text
  import opened SortedLists
  import opened Framing

  datatype Access = Access(unrestricted: bool, serviceIDs: seq<string>)

  datatype AssetQuery = AssetQuery(
    tenantID: string, workspaceID: string, environmentID: string, search: string, serviceID: string, sort: string,
    kinds: seq<string>, sourceIDs: seq<string>, lifecycles: seq<string>, mappings: seq<string>,
    criticalities: seq<string>, classifications: seq<string>, access: Access, limit: int)

  /** The text predicates of the catalogue. They are patterns and enumerations; only their bounded length matters here. */
  datatype Rules = Rules(
    uuid: string -> bool, search: string -> bool, sort: string -> bool, kind: string -> bool, lifecycle: string -> bool,
    mapping: string -> bool, criticality: string -> bool, classification: string -> bool)

  ghost predicate Bounded(rules: Rules) {
    forall v: string ::
      (rules.uuid(v) || rules.search(v) || rules.sort(v) || rules.kind(v) || rules.lifecycle(v) || rules.mapping(v)
       || rules.criticality(v) || rules.classification(v)) ==> |v| < Wide
  }

  // ---------------------------------------------------------------- the query

  /** `appendQuerySet`. */
  function QuerySet(values: seq<string>): seq<string> {
    [Decimal(|values|)] + values
  }

  const Domain := "asset-list-query.v1"

  function Mode(a: Access): string {
    if a.unrestricted then "unrestricted" else "restricted"
  }

  /** The six filters, in the order the digest takes them. */
  function Filters(q: AssetQuery): seq<seq<string>> {
    [q.kinds, q.sourceIDs, q.lifecycles, q.mappings, q.criticalities, q.classifications]
  }

  function Header(q: AssetQuery): seq<string> {
    [Domain, q.tenantID, q.workspaceID, q.environmentID, q.search, q.serviceID, q.sort]
  }

  function FilterFields(lists: seq<seq<string>>): seq<string> {
    if |lists| == 0 then [] else QuerySet(Normalized(lists[0])) + FilterFields(lists[1..])
  }

  function AccessFields(a: Access): seq<string> {
    [Mode(a)] + QuerySet(a.serviceIDs)
  }

  function Fields(q: AssetQuery): seq<string> {
    Header(q) + (FilterFields(Filters(q)) + AccessFields(q.access))
  }

  /** What the digest is taken of. */
  function QueryBytes(q: AssetQuery): string {
    EncodeAll(Tuple(Fields(q)))
  }

  predicate ValidAccess(a: Access, rules: Rules) {
    && (a.unrestricted ==> a.serviceIDs == []) && |a.serviceIDs| <= 5000
    && Ascending(a.serviceIDs) && AllValid(a.serviceIDs, rules.uuid)
  }

  predicate ValidQuery(q: AssetQuery, rules: Rules) {
    && rules.uuid(q.tenantID) && rules.uuid(q.workspaceID) && rules.uuid(q.environmentID) && ValidAccess(q.access, rules)
    && rules.sort(q.sort) && 1 <= q.limit <= 100 && (q.search == "" || rules.search(q.search))
    && (q.serviceID == "" || rules.uuid(q.serviceID))
    && AllValid(q.kinds, rules.kind) && AllValid(q.sourceIDs, rules.uuid) && AllValid(q.lifecycles, rules.lifecycle)
    && AllValid(q.mappings, rules.mapping) && AllValid(q.criticalities, rules.criticality)
    && AllValid(q.classifications, rules.classification)
  }

  /** The same question, whatever the order and repetitions in its filters; the page size is not part of it. */
  predicate SameQuery(a: AssetQuery, b: AssetQuery) {
    && Header(a) == Header(b) && a.access == b.access
    && SameElements(a.kinds, b.kinds) && SameElements(a.sourceIDs, b.sourceIDs) && SameElements(a.lifecycles, b.lifecycles)
    && SameElements(a.mappings, b.mappings) && SameElements(a.criticalities, b.criticalities)
    && SameElements(a.classifications, b.classifications)
  }

  // ---------------------------------------------------------------- the fields determine the query

  lemma SetsSplit(xs: seq<string>, r: seq<string>, ys: seq<string>, t: seq<string>)
    requires QuerySet(xs) + r == QuerySet(ys) + t
    ensures xs == ys && r == t
  {
    var l, m := QuerySet(xs) + r, QuerySet(ys) + t;
    assert l[0] == Decimal(|xs|) && m[0] == Decimal(|ys|);
    DecimalInjective(|xs|, |ys|);
    assert xs == l[1..|xs| + 1] && ys == m[1..|ys| + 1];
    assert r == l[|xs| + 1..] && t == m[|ys| + 1..];
  }

  lemma {:induction false} FiltersSplit(xs: seq<seq<string>>, r: seq<string>, ys: seq<seq<string>>, t: seq<string>)
    requires |xs| == |ys| && FilterFields(xs) + r == FilterFields(ys) + t
    ensures r == t && forall i | 0 <= i < |xs| :: Normalized(xs[i]) == Normalized(ys[i])
    decreases |xs|
  {
    if |xs| > 0 {
      var x, y := QuerySet(Normalized(xs[0])), QuerySet(Normalized(ys[0]));
      assert FilterFields(xs) + r == x + (FilterFields(xs[1..]) + r);
      assert FilterFields(ys) + t == y + (FilterFields(ys[1..]) + t);
      SetsSplit(Normalized(xs[0]), FilterFields(xs[1..]) + r, Normalized(ys[0]), FilterFields(ys[1..]) + t);
      FiltersSplit(xs[1..], r, ys[1..], t);
      forall i | 0 <= i < |xs| ensures Normalized(xs[i]) == Normalized(ys[i]) {
        if i > 0 { assert xs[i] == xs[1..][i - 1] && ys[i] == ys[1..][i - 1]; }
      }
    } else {
      assert FilterFields(xs) + r == r && FilterFields(ys) + t == t;
    }
  }

  lemma AccessExactly(a: Access, b: Access)
    requires AccessFields(a) == AccessFields(b)
    ensures a == b
  {
    var l, m := AccessFields(a), AccessFields(b);
    assert l[0] == Mode(a) && m[0] == Mode(b);
    assert |Mode(a)| == (if a.unrestricted then 12 else 10) && |Mode(b)| == (if b.unrestricted then 12 else 10);
    assert l[1..] == QuerySet(a.serviceIDs) + [] && m[1..] == QuerySet(b.serviceIDs) + [];
    SetsSplit(a.serviceIDs, [], b.serviceIDs, []);
  }

  lemma HeaderSplit(h: seq<string>, r: seq<string>, k: seq<string>, t: seq<string>)
    requires |h| == |k| && h + r == k + t
    ensures h == k && r == t
  {
    assert h == (h + r)[..|h|] && r == (h + r)[|h|..];
    assert k == (k + t)[..|k|] && t == (k + t)[|k|..];
  }

  lemma FieldsExactly(a: AssetQuery, b: AssetQuery)
    requires Fields(a) == Fields(b)
    ensures SameQuery(a, b)
  {
    hide FilterFields, AccessFields, Normalized, SameElements;
    HeaderSplit(Header(a), FilterFields(Filters(a)) + AccessFields(a.access), Header(b), FilterFields(Filters(b)) + AccessFields(b.access));
    FiltersSplit(Filters(a), AccessFields(a.access), Filters(b), AccessFields(b.access));
    AccessExactly(a.access, b.access);
    SameFilters(a, b);
  }

  lemma SameFilters(a: AssetQuery, b: AssetQuery)
    requires forall i | 0 <= i < 6 :: Normalized(Filters(a)[i]) == Normalized(Filters(b)[i])
    ensures SameElements(a.kinds, b.kinds) && SameElements(a.sourceIDs, b.sourceIDs) && SameElements(a.lifecycles, b.lifecycles)
    ensures SameElements(a.mappings, b.mappings) && SameElements(a.criticalities, b.criticalities)
    ensures SameElements(a.classifications, b.classifications)
  {
    hide SameElements, Normalized;
    var x, y := Filters(a), Filters(b);
    assert Normalized(x[0]) == Normalized(y[0]) && Normalized(x[1]) == Normalized(y[1]) && Normalized(x[2]) == Normalized(y[2]);
    assert Normalized(x[3]) == Normalized(y[3]) && Normalized(x[4]) == Normalized(y[4]) && Normalized(x[5]) == Normalized(y[5]);
    NormalizedExactly(a.kinds, b.kinds);
    NormalizedExactly(a.sourceIDs, b.sourceIDs);
    NormalizedExactly(a.lifecycles, b.lifecycles);
    NormalizedExactly(a.mappings, b.mappings);
    NormalizedExactly(a.criticalities, b.criticalities);
    NormalizedExactly(a.classifications, b.classifications);
  }

  lemma SameQuerySameFields(a: AssetQuery, b: AssetQuery)
    requires SameQuery(a, b)
    ensures Fields(a) == Fields(b)
  {
    hide SameElements, Normalized, FilterFields, AccessFields;
    NormalizedExactly(a.kinds, b.kinds);
    NormalizedExactly(a.sourceIDs, b.sourceIDs);
    NormalizedExactly(a.lifecycles, b.lifecycles);
    NormalizedExactly(a.mappings, b.mappings);
    NormalizedExactly(a.criticalities, b.criticalities);
    NormalizedExactly(a.classifications, b.classifications);
    forall i | 0 <= i < 6 ensures Normalized(Filters(a)[i]) == Normalized(Filters(b)[i]) {
    }
    SameFilterFields(Filters(a), Filters(b));
  }

  lemma {:induction false} SameFilterFields(xs: seq<seq<string>>, ys: seq<seq<string>>)
    requires |xs| == |ys| && forall i | 0 <= i < |xs| :: Normalized(xs[i]) == Normalized(ys[i])
    ensures FilterFields(xs) == FilterFields(ys)
  {
    if |xs| > 0 {
      forall i | 0 <= i < |xs| - 1 ensures Normalized(xs[1..][i]) == Normalized(ys[1..][i]) {
        assert xs[1..][i] == xs[i + 1] && ys[1..][i] == ys[i + 1];
      }
      SameFilterFields(xs[1..], ys[1..]);
    }
  }

  // ---------------------------------------------------------------- lengths fit the frames

  predicate ShortFields(fields: seq<string>) {
    forall i | 0 <= i < |fields| :: |fields[i]| < Wide
  }

  /** No list is longer than Go can make one. */
  predicate Sized(q: AssetQuery) {
    forall i | 0 <= i < 6 :: |Filters(q)[i]| < 0x8000_0000_0000_0000
  }

  lemma SetIsShort(values: seq<string>)
    requires |values| < 0x8000_0000_0000_0000 && forall v | v in values :: |v| < Wide
    ensures ShortFields(QuerySet(values))
  {
    DecimalIsShort(|values|);
    hide Decimal;
    var fields := QuerySet(values);
    forall i | 0 <= i < |fields| ensures |fields[i]| < Wide {
      if i > 0 { assert fields[i] == values[i - 1] && values[i - 1] in values; }
    }
  }

  lemma {:induction false} FiltersAreShort(lists: seq<seq<string>>)
    requires forall i | 0 <= i < |lists| :: |lists[i]| < 0x8000_0000_0000_0000 && forall v | v in lists[i] :: |v| < Wide
    ensures ShortFields(FilterFields(lists))
    decreases |lists|
  {
    if |lists| > 0 {
      var first := Normalized(lists[0]);
      NormalizedSize(lists[0]);
      SetIsShort(first);
      assert forall i | 0 <= i < |lists| - 1 :: lists[1..][i] == lists[i + 1];
      FiltersAreShort(lists[1..]);
    }
  }

  lemma ValuesAreShort(q: AssetQuery, rules: Rules)
    requires ValidQuery(q, rules) && Bounded(rules)
    ensures forall i, v | 0 <= i < 6 && v in Filters(q)[i] :: |v| < Wide
    ensures ShortFields(Header(q)) && forall v | v in q.access.serviceIDs :: |v| < Wide
  {
    var f := Filters(q);
    assert forall v | v in f[0] :: rules.kind(v);
    assert forall v | v in f[1] :: rules.uuid(v);
    assert forall v | v in f[2] :: rules.lifecycle(v);
    assert forall v | v in f[3] :: rules.mapping(v);
    assert forall v | v in f[4] :: rules.criticality(v);
    assert forall v | v in f[5] :: rules.classification(v);
  }

  lemma FieldsAreShort(q: AssetQuery, rules: Rules)
    requires ValidQuery(q, rules) && Bounded(rules) && Sized(q)
    ensures ShortFields(Fields(q))
  {
    ValuesAreShort(q, rules);
    assert |q.access.serviceIDs| <= 5000;
    hide ValidQuery, Bounded, FilterFields, Header, QuerySet;
    FiltersAreShort(Filters(q));
    SetIsShort(q.access.serviceIDs);
  }

  /** Two valid queries feed the hash the same bytes exactly if they ask the same question. */
  lemma SameBytesExactly(a: AssetQuery, b: AssetQuery, rules: Rules)
    requires ValidQuery(a, rules) && ValidQuery(b, rules) && Bounded(rules) && Sized(a) && Sized(b)
    ensures QueryBytes(a) == QueryBytes(b) <==> SameQuery(a, b)
  {
    hide ValidQuery, Bounded, Sized, SameQuery, Fields, EncodeAll;
    FieldsAreShort(a, rules);
    FieldsAreShort(b, rules);
    if QueryBytes(a) == QueryBytes(b) {
      TupleInjective(Fields(a), Fields(b));
      FieldsExactly(a, b);
    }
    if SameQuery(a, b) { SameQuerySameFields(a, b); }
  }

  /** `QueryDigest`: the normalized filters are appended one after the other, then the access, then all is framed. */
  method QueryDigest(q: AssetQuery, rules: Rules, sha: string -> string, cursorFits: string -> bool) returns (digest: Option<string>)
    ensures digest.Some? <==> ValidQuery(q, rules) && cursorFits(sha(QueryBytes(q)))
    ensures digest.Some? ==> digest.value == sha(QueryBytes(q))
  {
    hide ValidAccess, Normalized, EncodeAll;
    if !rules.uuid(q.tenantID) || !rules.uuid(q.workspaceID) || !rules.uuid(q.environmentID) || !ValidAccess(q.access, rules)
       || !rules.sort(q.sort) || q.limit < 1 || q.limit > 100 || (q.search != "" && !rules.search(q.search))
       || (q.serviceID != "" && !rules.uuid(q.serviceID)) {
      return None;
    }
    var lists := Filters(q);
    var valids := Valids(rules);
    var fields: seq<string> := [];
    var i := 0;
    while i < 6
      invariant 0 <= i <= 6
      invariant forall j | 0 <= j < i :: AllValid(lists[j], valids[j])
      invariant fields == FilterFields(lists[..i])
    {
      var normal := NormalizeSet(lists[i], valids[i]);
      if normal.None? {
        assert !AllValid(lists[i], valids[i]);
        return None;
      }
      FilterFieldsNext(lists, i);
      fields := fields + QuerySet(normal.value);
      i := i + 1;
    }
    assert lists[..6] == lists;
    assert forall j | 0 <= j < 6 :: AllValid(lists[j], valids[j]);
    AllListsValid(q, rules);
    var written := WriteFrames(Tuple(Header(q) + (fields + AccessFields(q.access))));
    if !cursorFits(sha(written)) { return None; }
    return Some(sha(written));
  }

  function Valids(rules: Rules): seq<string -> bool> {
    [rules.kind, rules.uuid, rules.lifecycle, rules.mapping, rules.criticality, rules.classification]
  }

  lemma AllListsValid(q: AssetQuery, rules: Rules)
    requires forall j | 0 <= j < 6 :: AllValid(Filters(q)[j], Valids(rules)[j])
    ensures AllValid(q.kinds, rules.kind) && AllValid(q.sourceIDs, rules.uuid) && AllValid(q.lifecycles, rules.lifecycle)
    ensures AllValid(q.mappings, rules.mapping) && AllValid(q.criticalities, rules.criticality)
    ensures AllValid(q.classifications, rules.classification)
  {
    hide AllValid;
    assert AllValid(Filters(q)[0], Valids(rules)[0]) && AllValid(Filters(q)[1], Valids(rules)[1]);
    assert AllValid(Filters(q)[2], Valids(rules)[2]) && AllValid(Filters(q)[3], Valids(rules)[3]);
    assert AllValid(Filters(q)[4], Valids(rules)[4]) && AllValid(Filters(q)[5], Valids(rules)[5]);
  }

  lemma {:induction false} FilterFieldsNext(lists: seq<seq<string>>, i: nat)
    requires i < |lists|
    ensures FilterFields(lists[..i + 1]) == FilterFields(lists[..i]) + QuerySet(Normalized(lists[i]))
    decreases i
  {
    hide QuerySet, Normalized;
    if i == 0 {
      assert lists[..1][1..] == [];
    } else {
      FilterFieldsNext(lists[1..], i - 1);
      assert lists[..i + 1][1..] == lists[1..][..i] && lists[..i][1..] == lists[1..][..i - 1];
    }
  }

  // ---------------------------------------------------------------- kinds of queries

  /** The domains of the five list queries, each the first frame of its digest. */
  const Domains := [Domain, "relationship-list-query.v1", "binding-list-query.v1", "conflict-list-query.v1", "source-list-query.v1"]

  /** Whatever their other fields, queries of different kinds never feed the same bytes to the hash. */
  lemma KindsAreSeparate(i: nat, j: nat, xs: seq<string>, ys: seq<string>)
    requires i < j < |Domains|
    requires (forall x | x in xs :: |x| < Wide) && (forall y | y in ys :: |y| < Wide)
    ensures EncodeAll(Tuple([Domains[i]] + xs)) != EncodeAll(Tuple([Domains[j]] + ys))
  {
    var a, b := [Domains[i]] + xs, [Domains[j]] + ys;
    DomainsDiffer(i, j);
    assert a[0] != b[0];
    if EncodeAll(Tuple(a)) == EncodeAll(Tuple(b)) { TupleInjective(a, b); }
  }

  lemma DomainsDiffer(i: nat, j: nat)
    requires i < j < |Domains|
    ensures Domains[i] != Domains[j] && |Domains[i]| < Wide && |Domains[j]| < Wide
  {
    assert forall k | 0 <= k < |Domains| :: |Domains[k]| > 0;
    assert Domains[0][0] == 'a' && Domains[1][0] == 'r' && Domains[2][0] == 'b' && Domains[3][0] == 'c' && Domains[4][0] == 's';
  }
}

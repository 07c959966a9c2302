/**
 Validation of discovered facts. Identities are compared through NUL-joined keys kept in a map, and
 environments are looked up by halving; both are proved to decide what pairwise comparison and plain
 membership say. Checks of JSON documents, fingerprints and Unicode text are opaque predicates.
 */
module Facts {
  import opened Options
  import opened Text
  import opened SortedLists

  const MaxFactItems := 10_000
  const MaxFactRelations := 50_000

  datatype FactError =
    | InvalidPolicy | InvalidPolicyAuthority | InvalidPolicyPaths | InvalidPolicyRelationships | InvalidPolicyDocumentFields
    | ItemLimitExceeded | RelationLimitExceeded | DuplicateItemIdentity | DuplicateRelationIdentity
    | ItemAuthorityMismatch | ItemProviderMismatch | InvalidItemIdentity | InvalidItemContent | InvalidFieldProvenance
    | RelationAuthorityMismatch | InvalidRelationIdentity | InvalidRelationPolicyReference | RelationTypeNotAllowed
    | InvalidRelationProvenance | InvalidFreshness

  datatype FieldProvenance = FieldProvenance(fieldCode: string, providerPathCode: string, sourceOwned: bool, confidence: int)

  /** `content` stands for freshness, kind, names, document and fingerprints. */
  datatype Item = Item(environmentID: string, providerKind: string, externalID: string, tombstone: bool, provenance: seq<FieldProvenance>, content: string)

  datatype Relation = Relation(
    sourceEnvironmentID: string, targetEnvironmentID: string, fromExternalID: string, toExternalID: string,
    relationType: string, providerPathCode: string, crossPolicyReference: string, confidence: int, freshness: string)

  datatype Policy = Policy(
    providerKind: string, freshnessKind: string, mappingValid: bool, single: bool, environmentIDs: seq<string>,
    trustedPathCodes: seq<string>, relationshipTypes: seq<string>, documentFields: map<string, seq<string>>)

  /** The text predicates of the package. */
  datatype Rules = Rules(
    safeText: string -> bool, sensitiveValue: string -> bool, sensitiveName: string -> bool, trustedPath: string -> bool,
    relationType: string -> bool, policyReference: string -> bool, kind: string -> bool, documentField: string -> bool,
    freshnessKind: string -> bool, freshness: (string, string) -> bool, content: (Item, Policy) -> bool)

  /** The only thing the keys need: no accepted identifier holds a NUL. */
  ghost predicate NulFreeRules(rules: Rules) {
    forall v: string :: rules.safeText(v) || rules.trustedPath(v) || rules.relationType(v) ==> NulFree(v)
  }

  // ---------------------------------------------------------------- what is valid

  predicate ValidPolicy(p: Policy, rules: Rules) {
    && ProviderKind(p.providerKind) && rules.freshnessKind(p.freshnessKind) && p.mappingValid
    && 1 <= |p.environmentIDs| <= 100 && Ascending(p.environmentIDs) && AllValid(p.environmentIDs, ValidUUID)
    && (p.single ==> |p.environmentIDs| == 1)
    && 1 <= |p.trustedPathCodes| <= 128 && Ascending(p.trustedPathCodes) && AllValid(p.trustedPathCodes, rules.trustedPath)
    && |p.relationshipTypes| <= 128 && Ascending(p.relationshipTypes) && AllValid(p.relationshipTypes, rules.relationType)
    && |p.documentFields| <= 128
    && forall kind | kind in p.documentFields ::
         && rules.kind(kind) && |p.documentFields[kind]| <= 128 && Ascending(p.documentFields[kind])
         && AllValid(p.documentFields[kind], rules.documentField)
  }

  /** An environment the policy speaks for. */
  predicate Authorized(p: Policy, environmentID: string) {
    environmentID in p.environmentIDs
  }

  function CatalogFieldCodes(): set<string> {
    {
      "provider_kind", "external_id", "kind", "display_name", "owner_group", "criticality", "data_classification",
      "labels", "environment_id", "lifecycle", "mapping_status", "type_details"
    }
  }

  const ItemFields := ["display_name", "environment_id", "external_id", "kind", "provider_kind", "type_details"]

  const TombstoneFields := ["environment_id", "external_id", "provider_kind"]

  predicate ValidProvenance(v: FieldProvenance, p: Policy, rules: Rules) {
    && v.fieldCode in CatalogFieldCodes() && !rules.sensitiveName(v.fieldCode) && rules.trustedPath(v.providerPathCode)
    && v.providerPathCode in p.trustedPathCodes && v.sourceOwned && 0 <= v.confidence <= 100
  }

  predicate DistinctCodes(values: seq<FieldProvenance>) {
    forall i, j | 0 <= i < j < |values| :: values[i].fieldCode != values[j].fieldCode
  }

  predicate Covers(values: seq<FieldProvenance>, required: seq<string>) {
    forall f | f in required :: exists i :: 0 <= i < |values| && values[i].fieldCode == f
  }

  /** Valid entries for distinct catalogue fields, every required field among them. */
  predicate ProvenanceOk(values: seq<FieldProvenance>, p: Policy, rules: Rules, required: seq<string>) {
    && |required| <= |values| <= |CatalogFieldCodes()| && DistinctCodes(values) && Covers(values, required)
    && forall i | 0 <= i < |values| :: ValidProvenance(values[i], p, rules)
  }

  predicate ValidItem(item: Item, p: Policy, rules: Rules) {
    && ValidUUID(item.environmentID) && Authorized(p, item.environmentID)
    && item.providerKind == p.providerKind && ProviderKind(item.providerKind)
    && rules.safeText(item.externalID) && !rules.sensitiveValue(item.externalID)
    && rules.content(item, p)
    && ProvenanceOk(item.provenance, p, rules, if item.tombstone then TombstoneFields else ItemFields)
  }

  predicate ValidRelation(r: Relation, p: Policy, rules: Rules) {
    var cross := r.sourceEnvironmentID != r.targetEnvironmentID;
    && ValidUUID(r.sourceEnvironmentID) && ValidUUID(r.targetEnvironmentID)
    && Authorized(p, r.sourceEnvironmentID) && Authorized(p, r.targetEnvironmentID)
    && rules.safeText(r.fromExternalID) && rules.safeText(r.toExternalID)
    && !rules.sensitiveValue(r.fromExternalID) && !rules.sensitiveValue(r.toExternalID)
    && (cross || r.fromExternalID != r.toExternalID)
    && cross == (r.crossPolicyReference != "") && (r.crossPolicyReference != "" ==> rules.policyReference(r.crossPolicyReference))
    && rules.relationType(r.relationType) && r.relationType in p.relationshipTypes
    && rules.trustedPath(r.providerPathCode) && r.providerPathCode in p.trustedPathCodes && 0 <= r.confidence <= 100
    && rules.freshness(r.freshness, p.freshnessKind)
  }

  function ItemIdentity(item: Item): seq<string> {
    [item.providerKind, item.externalID]
  }

  function RelationIdentity(r: Relation): seq<string> {
    [r.sourceEnvironmentID, r.targetEnvironmentID, r.fromExternalID, r.toExternalID, r.relationType, r.providerPathCode]
  }

  predicate DistinctItems(items: seq<Item>) {
    forall i, j | 0 <= i < j < |items| :: ItemIdentity(items[i]) != ItemIdentity(items[j])
  }

  predicate DistinctRelations(rs: seq<Relation>) {
    forall i, j | 0 <= i < j < |rs| :: RelationIdentity(rs[i]) != RelationIdentity(rs[j])
  }

  /** The whole contract, without keys, maps or search. */
  predicate ValidFacts(items: seq<Item>, relations: seq<Relation>, p: Policy, rules: Rules) {
    && ValidPolicy(p, rules) && |items| <= MaxFactItems && |relations| <= MaxFactRelations
    && (forall i | 0 <= i < |items| :: ValidItem(items[i], p, rules)) && DistinctItems(items)
    && (forall i | 0 <= i < |relations| :: ValidRelation(relations[i], p, rules)) && DistinctRelations(relations)
  }

  // ---------------------------------------------------------------- checks

  method EnvironmentAllowed(p: Policy, environmentID: string) returns (allowed: bool)
    requires Ascending(p.environmentIDs) && (p.single ==> |p.environmentIDs| == 1)
    ensures allowed <==> Authorized(p, environmentID)
  {
    if p.single { return |p.environmentIDs| == 1 && p.environmentIDs[0] == environmentID; }
    allowed := BinarySearch(p.environmentIDs, environmentID);
  }

  method ValidatePolicy(p: Policy, rules: Rules) returns (error: Option<FactError>)
    ensures error.None? <==> ValidPolicy(p, rules)
  {
    if !ProviderKind(p.providerKind) || !rules.freshnessKind(p.freshnessKind) || !p.mappingValid { return Some(InvalidPolicy); }
    var authority := ValidSortedUnique(p.environmentIDs, 1, 100, ValidUUID);
    if !authority { return Some(InvalidPolicyAuthority); }
    if p.single && |p.environmentIDs| != 1 { return Some(InvalidPolicyAuthority); }
    var paths := ValidSortedUnique(p.trustedPathCodes, 1, 128, rules.trustedPath);
    if !paths { return Some(InvalidPolicyPaths); }
    var types := ValidSortedUnique(p.relationshipTypes, 0, 128, rules.relationType);
    if !types { return Some(InvalidPolicyRelationships); }
    if |p.documentFields| > 128 { return Some(InvalidPolicyDocumentFields); }
    var kinds := p.documentFields.Keys;
    while kinds != {}
      invariant kinds <= p.documentFields.Keys
      invariant forall kind | kind in p.documentFields && kind !in kinds ::
                  && rules.kind(kind) && |p.documentFields[kind]| <= 128 && Ascending(p.documentFields[kind])
                  && AllValid(p.documentFields[kind], rules.documentField)
      decreases |kinds|
    {
      var kind :| kind in kinds;
      var fields := ValidSortedUnique(p.documentFields[kind], 0, 128, rules.documentField);
      if !rules.kind(kind) || !fields { return Some(InvalidPolicyDocumentFields); }
      kinds := kinds - {kind};
    }
    return None;
  }

  method ValidateProvenance(values: seq<FieldProvenance>, p: Policy, rules: Rules, required: seq<string>) returns (error: Option<FactError>)
    ensures error.None? <==> ProvenanceOk(values, p, rules, required)
    ensures error.Some? ==> error.value == InvalidFieldProvenance
  {
    hide ValidProvenance, CatalogFieldCodes;
    if |values| < |required| || |values| > |CatalogFieldCodes()| { return Some(InvalidFieldProvenance); }
    var seen: set<string> := {};
    var i := 0;
    while i < |values|
      invariant 0 <= i <= |values|
      invariant forall j | 0 <= j < i :: ValidProvenance(values[j], p, rules)
      invariant DistinctCodes(values[..i])
      invariant forall f :: f in seen <==> exists j :: 0 <= j < i && values[j].fieldCode == f
    {
      if !ValidProvenance(values[i], p, rules) { return Some(InvalidFieldProvenance); }
      if values[i].fieldCode in seen {
        var j :| 0 <= j < i && values[j].fieldCode == values[i].fieldCode;
        return Some(InvalidFieldProvenance);
      }
      seen := seen + {values[i].fieldCode};
      i := i + 1;
    }
    assert values[..i] == values;
    var k := 0;
    while k < |required|
      invariant 0 <= k <= |required|
      invariant forall j | 0 <= j < k :: required[j] in seen
    {
      if required[k] !in seen {
        assert required[k] in required;
        return Some(InvalidFieldProvenance);
      }
      k := k + 1;
    }
    return None;
  }

  method ValidateItem(item: Item, p: Policy, rules: Rules) returns (error: Option<FactError>)
    requires Ascending(p.environmentIDs) && (p.single ==> |p.environmentIDs| == 1)
    ensures error.None? <==> ValidItem(item, p, rules)
  {
    hide ValidUUID, ProviderKind, ProvenanceOk;
    var allowed := EnvironmentAllowed(p, item.environmentID);
    if !ValidUUID(item.environmentID) || !allowed { return Some(ItemAuthorityMismatch); }
    if item.providerKind != p.providerKind || !ProviderKind(item.providerKind) { return Some(ItemProviderMismatch); }
    if !rules.safeText(item.externalID) || rules.sensitiveValue(item.externalID) { return Some(InvalidItemIdentity); }
    if !rules.content(item, p) { return Some(InvalidItemContent); }
    error := ValidateProvenance(item.provenance, p, rules, if item.tombstone then TombstoneFields else ItemFields);
  }

  method ValidateRelation(r: Relation, p: Policy, rules: Rules) returns (error: Option<FactError>)
    requires Ascending(p.environmentIDs) && (p.single ==> |p.environmentIDs| == 1)
    ensures error.None? <==> ValidRelation(r, p, rules)
  {
    hide ValidUUID;
    var source := EnvironmentAllowed(p, r.sourceEnvironmentID);
    var target := EnvironmentAllowed(p, r.targetEnvironmentID);
    if !ValidUUID(r.sourceEnvironmentID) || !ValidUUID(r.targetEnvironmentID) || !source || !target { return Some(RelationAuthorityMismatch); }
    var cross := r.sourceEnvironmentID != r.targetEnvironmentID;
    if !rules.safeText(r.fromExternalID) || !rules.safeText(r.toExternalID) || rules.sensitiveValue(r.fromExternalID)
       || rules.sensitiveValue(r.toExternalID) || (!cross && r.fromExternalID == r.toExternalID) {
      return Some(InvalidRelationIdentity);
    }
    if cross != (r.crossPolicyReference != "") || (r.crossPolicyReference != "" && !rules.policyReference(r.crossPolicyReference)) {
      return Some(InvalidRelationPolicyReference);
    }
    if !rules.relationType(r.relationType) || r.relationType !in p.relationshipTypes { return Some(RelationTypeNotAllowed); }
    if !rules.trustedPath(r.providerPathCode) || r.providerPathCode !in p.trustedPathCodes || r.confidence < 0 || r.confidence > 100 {
      return Some(InvalidRelationProvenance);
    }
    if !rules.freshness(r.freshness, p.freshnessKind) { return Some(InvalidFreshness); }
    return None;
  }

  // ---------------------------------------------------------------- keys stand for identities

  lemma UUIDIsNulFree(v: string)
    requires ValidUUID(v)
    ensures NulFree(v)
  {
    forall i | 0 <= i < |v| ensures v[i] != Nul {
      assert v[i] == '-' || LowerHex(v[i]);
    }
  }

  lemma ItemKeyExact(a: Item, b: Item, p: Policy, rules: Rules)
    requires NulFreeRules(rules) && ValidItem(a, p, rules) && ValidItem(b, p, rules)
    ensures Join(ItemIdentity(a)) == Join(ItemIdentity(b)) <==> ItemIdentity(a) == ItemIdentity(b)
  {
    hide ProvenanceOk, Join;
    assert NulFree(a.externalID) && NulFree(b.externalID);
    if Join(ItemIdentity(a)) == Join(ItemIdentity(b)) { JoinInjective(ItemIdentity(a), ItemIdentity(b)); }
  }

  lemma RelationKeyExact(a: Relation, b: Relation, p: Policy, rules: Rules)
    requires NulFreeRules(rules) && ValidRelation(a, p, rules) && ValidRelation(b, p, rules)
    ensures Join(RelationIdentity(a)) == Join(RelationIdentity(b)) <==> RelationIdentity(a) == RelationIdentity(b)
  {
    hide Join;
    RelationNulFree(a, p, rules);
    RelationNulFree(b, p, rules);
    hide ValidRelation;
    if Join(RelationIdentity(a)) == Join(RelationIdentity(b)) { JoinInjective(RelationIdentity(a), RelationIdentity(b)); }
  }

  lemma RelationNulFree(r: Relation, p: Policy, rules: Rules)
    requires NulFreeRules(rules) && ValidRelation(r, p, rules)
    ensures forall i | 0 <= i < 6 :: NulFree(RelationIdentity(r)[i])
  {
    UUIDIsNulFree(r.sourceEnvironmentID);
    UUIDIsNulFree(r.targetEnvironmentID);
    assert NulFree(r.fromExternalID) && NulFree(r.toExternalID) && NulFree(r.relationType) && NulFree(r.providerPathCode);
    hide ValidUUID, NulFree;
  }

  // ---------------------------------------------------------------- the whole validation

  method ValidateItems(items: seq<Item>, p: Policy, rules: Rules) returns (error: Option<FactError>)
    requires NulFreeRules(rules) && Ascending(p.environmentIDs) && (p.single ==> |p.environmentIDs| == 1)
    ensures error.None? <==> (forall i | 0 <= i < |items| :: ValidItem(items[i], p, rules)) && DistinctItems(items)
  {
    hide ValidItem, ItemIdentity, Join, NulFreeRules;
    var keys: set<string> := {};
    var i := 0;
    while i < |items|
      invariant 0 <= i <= |items|
      invariant forall j | 0 <= j < i :: ValidItem(items[j], p, rules)
      invariant DistinctItems(items[..i])
      invariant forall k :: k in keys <==> exists j :: 0 <= j < i && Join(ItemIdentity(items[j])) == k
    {
      error := ValidateItem(items[i], p, rules);
      if error.Some? { return; }
      var key := Join(ItemIdentity(items[i]));
      forall j | 0 <= j < i ensures Join(ItemIdentity(items[j])) == key <==> ItemIdentity(items[j]) == ItemIdentity(items[i]) {
        ItemKeyExact(items[j], items[i], p, rules);
      }
      if key in keys { return Some(DuplicateItemIdentity); }
      keys := keys + {key};
      i := i + 1;
    }
    assert items[..i] == items;
    return None;
  }

  method ValidateRelations(rs: seq<Relation>, p: Policy, rules: Rules) returns (error: Option<FactError>)
    requires NulFreeRules(rules) && Ascending(p.environmentIDs) && (p.single ==> |p.environmentIDs| == 1)
    ensures error.None? <==> (forall i | 0 <= i < |rs| :: ValidRelation(rs[i], p, rules)) && DistinctRelations(rs)
  {
    hide ValidRelation, RelationIdentity, Join, NulFreeRules;
    var keys: set<string> := {};
    var i := 0;
    while i < |rs|
      invariant 0 <= i <= |rs|
      invariant forall j | 0 <= j < i :: ValidRelation(rs[j], p, rules)
      invariant DistinctRelations(rs[..i])
      invariant forall k :: k in keys <==> exists j :: 0 <= j < i && Join(RelationIdentity(rs[j])) == k
    {
      error := ValidateRelation(rs[i], p, rules);
      if error.Some? { return; }
      var key := Join(RelationIdentity(rs[i]));
      forall j | 0 <= j < i ensures Join(RelationIdentity(rs[j])) == key <==> RelationIdentity(rs[j]) == RelationIdentity(rs[i]) {
        RelationKeyExact(rs[j], rs[i], p, rules);
      }
      if key in keys { return Some(DuplicateRelationIdentity); }
      keys := keys + {key};
      i := i + 1;
    }
    assert rs[..i] == rs;
    return None;
  }

  /** `ValidateFacts` succeeds exactly on valid facts, for lists of any size. */
  method ValidateFacts(items: seq<Item>, relations: seq<Relation>, p: Policy, rules: Rules) returns (error: Option<FactError>)
    requires NulFreeRules(rules)
    ensures error.None? <==> ValidFacts(items, relations, p, rules)
    ensures ValidPolicy(p, rules) && |items| > MaxFactItems ==> error == Some(ItemLimitExceeded)
    ensures ValidPolicy(p, rules) && |items| <= MaxFactItems && |relations| > MaxFactRelations ==> error == Some(RelationLimitExceeded)
  {
    hide ValidItem, ValidRelation, DistinctItems, DistinctRelations, NulFreeRules;
    error := ValidatePolicy(p, rules);
    if error.Some? { return; }
    if |items| > MaxFactItems { return Some(ItemLimitExceeded); }
    if |relations| > MaxFactRelations { return Some(RelationLimitExceeded); }
    error := ValidateItems(items, p, rules);
    if error.Some? { return; }
    error := ValidateRelations(relations, p, rules);
  }
}

/**
 The checkpoint envelope. The cipher, the key derivation and the MAC are abstract: an AEAD whose Open
 undoes its Seal and whose ciphertext is 16 bytes longer than the plaintext (sections 2.1 and 2.2 of
 RFC 5116), and HKDF as a function of secret and info (section 2 of RFC 5869).
 */
module Checkpoints {
  import opened Options
  import opened Text
  import opened Framing

  datatype CodecError = InvalidInput | Unavailable | Authentication

  datatype CodecResult<+T> = Ok(value: T) | Err(error: CodecError)

  const MaxCheckpointCanonicalBytes := 65507
  const NonceSize := 12
  const EnvelopeOverhead := 1 + NonceSize + 16
  const EnvelopeMaximum := 65536
  const EnvelopeVersion: char := '\U{1}'
  const AADDomain := "asset-source-checkpoint.v1"
  const ReplayDomain := "asset-source-checkpoint-replay.v1"
  const AEADKeyDomain := "asset-source-checkpoint-aead-key.v1"
  const ReplayKeyInfo := "asset-source-checkpoint-replay-key.v1"

  datatype Crypto = Crypto(
    seal: (string, string, string, string) -> string,
    open: (string, string, string, string) -> Option<string>,
    hkdf: (string, string) -> string,
    mac: (string, string) -> string,
    sha: Hash,
    validProfile: string -> bool)

  /** Opening with the same key, nonce and associated data gives the plaintext back. */
  ghost predicate Correct(x: Crypto) {
    && (forall key, nonce, plaintext, aad ::
          && x.open(key, nonce, x.seal(key, nonce, plaintext, aad), aad) == Some(plaintext)
          && |x.seal(key, nonce, plaintext, aad)| == |plaintext| + 16)
    && (forall p :: x.validProfile(p) ==> |p| <= 128)
  }

  datatype AAD = AAD(
    tenantID: string, workspaceID: string, sourceID: string, providerKind: string, checkpointRevision: int,
    canonicalRevisionDigest: string, sourceDefinitionDigest: string, checkpointKeyID: string, checkpointVersion: int)

  datatype Checkpoint = Checkpoint(profile: string, canonical: string)

  /** What `NewCheckpoint` accepts. */
  predicate ValidCheckpoint(x: Crypto, c: Checkpoint) {
    x.validProfile(c.profile) && |c.canonical| <= MaxCheckpointCanonicalBytes
  }

  datatype Sealed = Sealed(envelope: string, checkpointKeyID: string, checkpointSHA256: string, checkpointVersion: int)

  // ---------------------------------------------------------------- associated data

  predicate KeyIDChar(c: char) {
    IdentifierChar(c) || c == '+'
  }

  predicate ValidKeyID(v: string) {
    1 <= |v| <= 256 && AlphaNumeric(v[0]) && forall i | 1 <= i < |v| :: KeyIDChar(v[i])
  }

  method CheckKeyID(v: string) returns (valid: bool)
    ensures valid == ValidKeyID(v)
  {
    if |v| == 0 || |v| > 256 || !AlphaNumeric(v[0]) { return false; }
    var i := 1;
    while i < |v|
      invariant 1 <= i <= |v|
      invariant forall j | 1 <= j < i :: KeyIDChar(v[j])
    {
      if !KeyIDChar(v[i]) { return false; }
      i := i + 1;
    }
    return true;
  }

  predicate ValidAAD(a: AAD) {
    && ValidUUID(a.tenantID) && ValidUUID(a.workspaceID) && ValidUUID(a.sourceID) && ProviderKind(a.providerKind)
    && a.checkpointRevision > 0 && ValidSHA256(a.canonicalRevisionDigest) && ValidSHA256(a.sourceDefinitionDigest)
    && ValidKeyID(a.checkpointKeyID) && a.checkpointVersion > 0
  }

  function HexValue(c: char): nat
    requires LowerHex(c)
  {
    if c <= '9' then c as int - '0' as int else c as int - 'a' as int + 10
  }

  /** `hex.DecodeString` on lower-case digits. */
  function Unhex(s: string): (bytes: string)
    requires |s| % 2 == 0 && forall i | 0 <= i < |s| :: LowerHex(s[i])
    ensures |bytes| == |s| / 2
  {
    if |s| == 0 then "" else [(HexValue(s[0]) * 16 + HexValue(s[1])) as char] + Unhex(s[2..])
  }

  lemma {:induction false} UnhexInjective(s: string, t: string)
    requires |s| % 2 == 0 && (forall i | 0 <= i < |s| :: LowerHex(s[i]))
    requires |t| % 2 == 0 && (forall i | 0 <= i < |t| :: LowerHex(t[i]))
    requires Unhex(s) == Unhex(t)
    ensures s == t
    decreases |s|
  {
    if |s| > 0 {
      assert Unhex(s)[0] == Unhex(t)[0] && Unhex(s)[1..] == Unhex(s[2..]) && Unhex(t)[1..] == Unhex(t[2..]);
      UnhexInjective(s[2..], t[2..]);
      assert s == [s[0], s[1]] + s[2..] && t == [t[0], t[1]] + t[2..];
    }
  }

  function AADFields(a: AAD, domain: string, trailing: seq<string>): seq<string>
    requires ValidAAD(a)
  {
    [domain, a.tenantID, a.workspaceID, a.sourceID, a.providerKind, Decimal(a.checkpointRevision),
     Unhex(a.canonicalRevisionDigest), Unhex(a.sourceDefinitionDigest), a.checkpointKeyID, Decimal(a.checkpointVersion)] + trailing
  }

  function Framed(a: AAD, domain: string, trailing: seq<string>): string
    requires ValidAAD(a)
  {
    EncodeAll(Tuple(AADFields(a, domain, trailing)))
  }

  function AssociatedData(a: AAD): string
    requires ValidAAD(a)
  {
    Framed(a, AADDomain, [])
  }

  function ReplayMessage(a: AAD, canonical: string): string
    requires ValidAAD(a)
  {
    Framed(a, ReplayDomain, [canonical])
  }

  function AEADKeyInfo(profile: string): string {
    EncodeAll(Tuple([AEADKeyDomain, profile]))
  }

  // ---------------------------------------------------------------- keyring and codec

  datatype Keys = Keys(activeKeyID: string, masters: map<string, string>, destroyed: bool)

  predicate AllZero(s: string) {
    forall i | 0 <= i < |s| :: s[i] == '\0'
  }

  predicate Authenticates(x: Crypto, s: Sealed, a: AAD) {
    && s.checkpointKeyID == a.checkpointKeyID && s.checkpointVersion == a.checkpointVersion
    && ValidSHA256(s.checkpointSHA256) && EnvelopeOverhead <= |s.envelope| <= EnvelopeMaximum
    && s.envelope[0] == EnvelopeVersion && !AllZero(s.envelope[1..1 + NonceSize])
    && x.sha(s.envelope) == s.checkpointSHA256
  }

  /** What the entropy source gives: a nonce that is not all zero, or nothing. */
  predicate ProperNonce(entropy: Option<string>) {
    entropy.Some? ==> |entropy.value| == NonceSize && !AllZero(entropy.value)
  }

  function SealWith(k: Keys, x: Crypto, a: AAD, c: Checkpoint, entropy: Option<string>): CodecResult<Sealed> {
    if !ValidAAD(a) || !x.validProfile(c.profile) then Err(InvalidInput)
    else if k.destroyed then Err(Unavailable)
    else if k.activeKeyID != a.checkpointKeyID then Err(InvalidInput)
    else if k.activeKeyID !in k.masters || |k.masters[k.activeKeyID]| != 32 then Err(Unavailable)
    else if entropy.None? then Err(Unavailable)
    else
      var nonce := entropy.value;
      var key := x.hkdf(k.masters[k.activeKeyID], AEADKeyInfo(c.profile));
      var envelope := [EnvelopeVersion] + nonce + x.seal(key, nonce, c.canonical, AssociatedData(a));
      Ok(Sealed(envelope, a.checkpointKeyID, x.sha(envelope), a.checkpointVersion))
  }

  function OpenWith(k: Keys, x: Crypto, a: AAD, profile: string, s: Sealed): CodecResult<Checkpoint> {
    if !ValidAAD(a) || !x.validProfile(profile) || !Authenticates(x, s, a) then Err(Authentication)
    else if k.destroyed then Err(Unavailable)
    else if a.checkpointKeyID !in k.masters || |k.masters[a.checkpointKeyID]| != 32 then Err(Authentication)
    else DecryptWith(k.masters[a.checkpointKeyID], x, a, profile, s)
  }

  function DecryptWith(master: string, x: Crypto, a: AAD, profile: string, s: Sealed): CodecResult<Checkpoint>
    requires ValidAAD(a) && |s.envelope| >= EnvelopeOverhead
  {
    var key := x.hkdf(master, AEADKeyInfo(profile));
    var plaintext := x.open(key, s.envelope[1..13], s.envelope[13..], AssociatedData(a));
    if plaintext.None? || |plaintext.value| > MaxCheckpointCanonicalBytes then Err(Authentication)
    else Ok(Checkpoint(profile, plaintext.value))
  }

  class Keyring {
    var activeKeyID: string
    var masters: map<string, string>
    var destroyed: bool

    ghost function View(): (k: Keys)
      reads this
      ensures k == Keys(activeKeyID, masters, destroyed)
    {
      Keys(activeKeyID, masters, destroyed)
    }

    constructor (activeKeyID: string, retained: map<string, string>)
      ensures View() == Keys(activeKeyID, retained, false)
    {
      this.activeKeyID, masters, destroyed := activeKeyID, retained, false;
    }

    /** A keyring needs an active key among the retained ones and well-formed key identifiers; master keys are 32-byte arrays. */
    static method New(activeKeyID: string, retained: map<string, string>) returns (r: CodecResult<Keyring>)
      requires forall k | k in retained :: |retained[k]| == 32
      ensures r.Ok? <==> activeKeyID in retained && forall k | k in retained :: ValidKeyID(k)
      ensures r.Ok? ==> fresh(r.value) && r.value.View() == Keys(activeKeyID, retained, false)
      ensures r.Err? ==> r.error == InvalidInput
    {
      var valid := CheckKeyID(activeKeyID);
      if !valid || |retained| == 0 { return Err(InvalidInput); }
      if activeKeyID !in retained { return Err(InvalidInput); }
      var left := retained.Keys;
      while left != {}
        invariant left <= retained.Keys && forall k | k in retained && k !in left :: ValidKeyID(k)
        decreases |left|
      {
        var k :| k in left;
        valid := CheckKeyID(k);
        if !valid { return Err(InvalidInput); }
        left := left - {k};
      }
      var keyring := new Keyring(activeKeyID, retained);
      return Ok(keyring);
    }

    /** Forgets every key; a second call changes nothing. */
    method Destroy()
      modifies this
      ensures destroyed && (old(destroyed) ==> View() == old(View())) && (!old(destroyed) ==> masters == map[] && activeKeyID == "")
    {
      if destroyed { return; }
      while masters != map[]
        invariant destroyed == old(destroyed)
        decreases |masters|
      {
        var keyID :| keyID in masters;
        ghost var before := masters;
        masters := masters - {keyID};
        assert masters.Keys == before.Keys - {keyID};
        assert |masters.Keys| == |before.Keys| - 1;
      }
      activeKeyID := "";
      destroyed := true;
    }
  }

  class CheckpointCodec {
    const keys: Keyring
    const x: Crypto

    constructor (keys: Keyring, x: Crypto)
      ensures this.keys == keys && this.x == x
    {
      this.keys, this.x := keys, x;
    }

    method Seal(a: AAD, c: Checkpoint, entropy: Option<string>) returns (r: CodecResult<Sealed>)
      requires ProperNonce(entropy)
      ensures r == SealWith(keys.View(), x, a, c, entropy)
    {
      hide ValidAAD, AADFields, EncodeAll;
      if !ValidAAD(a) || !x.validProfile(c.profile) { return Err(InvalidInput); }
      if keys.destroyed { return Err(Unavailable); }
      if keys.activeKeyID != a.checkpointKeyID { return Err(InvalidInput); }
      if keys.activeKeyID !in keys.masters || |keys.masters[keys.activeKeyID]| != 32 { return Err(Unavailable); }
      var info := WriteFrames(Tuple([AEADKeyDomain, c.profile]));
      var derived := x.hkdf(keys.masters[keys.activeKeyID], info);
      if entropy.None? { return Err(Unavailable); }
      var nonce := entropy.value;
      var data := WriteFrames(Tuple(AADFields(a, AADDomain, [])));
      var envelope := [EnvelopeVersion];
      envelope := envelope + nonce;
      envelope := envelope + x.seal(derived, nonce, c.canonical, data);
      return Ok(Sealed(envelope, a.checkpointKeyID, x.sha(envelope), a.checkpointVersion));
    }

    method Open(a: AAD, profile: string, s: Sealed) returns (r: CodecResult<Checkpoint>)
      ensures r == OpenWith(keys.View(), x, a, profile, s)
    {
      hide ValidAAD, Authenticates, DecryptWith;
      AuthenticatedLength(x, s, a);
      if !ValidAAD(a) || !x.validProfile(profile) || !Authenticates(x, s, a) { return Err(Authentication); }
      if keys.destroyed { return Err(Unavailable); }
      if a.checkpointKeyID !in keys.masters || |keys.masters[a.checkpointKeyID]| != 32 { return Err(Authentication); }
      r := Decrypt(keys.masters[a.checkpointKeyID], a, profile, s);
    }

    method Decrypt(master: string, a: AAD, profile: string, s: Sealed) returns (r: CodecResult<Checkpoint>)
      requires ValidAAD(a) && |s.envelope| >= EnvelopeOverhead
      ensures r == DecryptWith(master, x, a, profile, s)
    {
      hide ValidAAD, AADFields, EncodeAll;
      var info := WriteFrames(Tuple([AEADKeyDomain, profile]));
      var derived := x.hkdf(master, info);
      var data := WriteFrames(Tuple(AADFields(a, AADDomain, [])));
      var plaintext := x.open(derived, s.envelope[1..13], s.envelope[13..], data);
      if plaintext.None? { return Err(Authentication); }
      if |plaintext.value| > MaxCheckpointCanonicalBytes { return Err(Authentication); }
      return Ok(Checkpoint(profile, plaintext.value));
    }
  }

  lemma AuthenticatedLength(x: Crypto, s: Sealed, a: AAD)
    ensures Authenticates(x, s, a) ==> |s.envelope| >= EnvelopeOverhead
  {
  }

  // ---------------------------------------------------------------- round trip

  lemma EnvelopeParts(nonce: string, ciphertext: string)
    requires |nonce| == NonceSize
    ensures var e := [EnvelopeVersion] + nonce + ciphertext;
            e[0] == EnvelopeVersion && e[1..13] == nonce && e[13..] == ciphertext && |e| == 13 + |ciphertext|
  {
  }

  predicate Retains(later: Keys, k: Keys, id: string) {
    !later.destroyed && id in later.masters && id in k.masters && later.masters[id] == k.masters[id]
  }

  /**
   A sealed checkpoint opens to itself under any keyring that still retains the key it was sealed with,
   whichever key is active by then. Sealing fails only for a bad input, a lost key or lack of entropy.
   */
  lemma RoundTrip(k: Keys, later: Keys, x: Crypto, a: AAD, c: Checkpoint, entropy: Option<string>)
    requires Correct(x) && ValidCheckpoint(x, c) && ProperNonce(entropy)
    requires SealWith(k, x, a, c, entropy).Ok?
    requires Retains(later, k, a.checkpointKeyID)
    ensures OpenWith(later, x, a, c.profile, SealWith(k, x, a, c, entropy).value) == Ok(c)
  {
    hide ValidAAD, AssociatedData, AEADKeyInfo, Authenticates, Correct, OpenWith, SealWith;
    SealedParts(k, x, a, c, entropy);
    var s, nonce := SealWith(k, x, a, c, entropy).value, entropy.value;
    var key := x.hkdf(k.masters[a.checkpointKeyID], AEADKeyInfo(c.profile));
    var ciphertext := x.seal(key, nonce, c.canonical, AssociatedData(a));
    EnvelopeParts(nonce, ciphertext);
    CorrectAt(x, key, nonce, c.canonical, AssociatedData(a));
    SealedAuthenticates(x, s, a, nonce, ciphertext, c.canonical);
    OpensTo(later, x, a, c, s, key, ciphertext);
  }

  lemma SealedParts(k: Keys, x: Crypto, a: AAD, c: Checkpoint, entropy: Option<string>)
    requires SealWith(k, x, a, c, entropy).Ok?
    ensures ValidAAD(a) && entropy.Some? && a.checkpointKeyID in k.masters && |k.masters[a.checkpointKeyID]| == 32
    ensures var key := x.hkdf(k.masters[a.checkpointKeyID], AEADKeyInfo(c.profile));
            var envelope := [EnvelopeVersion] + entropy.value + x.seal(key, entropy.value, c.canonical, AssociatedData(a));
            SealWith(k, x, a, c, entropy).value == Sealed(envelope, a.checkpointKeyID, x.sha(envelope), a.checkpointVersion)
  {
    hide ValidAAD, AssociatedData, AEADKeyInfo;
  }

  lemma CorrectAt(x: Crypto, key: string, nonce: string, plaintext: string, aad: string)
    requires Correct(x)
    ensures x.open(key, nonce, x.seal(key, nonce, plaintext, aad), aad) == Some(plaintext)
    ensures |x.seal(key, nonce, plaintext, aad)| == |plaintext| + 16
  {
  }

  lemma SealedAuthenticates(x: Crypto, s: Sealed, a: AAD, nonce: string, ciphertext: string, plaintext: string)
    requires |nonce| == NonceSize && !AllZero(nonce) && |ciphertext| == |plaintext| + 16 && |plaintext| <= MaxCheckpointCanonicalBytes
    requires s == Sealed([EnvelopeVersion] + nonce + ciphertext, a.checkpointKeyID, x.sha([EnvelopeVersion] + nonce + ciphertext), a.checkpointVersion)
    ensures Authenticates(x, s, a)
  {
    hide AllZero, ValidSHA256;
    EnvelopeParts(nonce, ciphertext);
  }

  lemma OpensTo(k: Keys, x: Crypto, a: AAD, c: Checkpoint, s: Sealed, key: string, ciphertext: string)
    requires ValidAAD(a) && ValidCheckpoint(x, c) && Authenticates(x, s, a) && |s.envelope| >= EnvelopeOverhead
    requires !k.destroyed && a.checkpointKeyID in k.masters && |k.masters[a.checkpointKeyID]| == 32
    requires key == x.hkdf(k.masters[a.checkpointKeyID], AEADKeyInfo(c.profile)) && s.envelope[13..] == ciphertext
    requires x.open(key, s.envelope[1..13], ciphertext, AssociatedData(a)) == Some(c.canonical)
    ensures OpenWith(k, x, a, c.profile, s) == Ok(c)
  {
    hide ValidAAD, AssociatedData, AEADKeyInfo, Authenticates;
  }

  /** The bound on a checkpoint is exactly what the bound on envelopes leaves room for. */
  lemma LargestEnvelope(k: Keys, x: Crypto, a: AAD, c: Checkpoint, entropy: Option<string>)
    requires Correct(x) && ProperNonce(entropy) && SealWith(k, x, a, c, entropy).Ok?
    ensures var s := SealWith(k, x, a, c, entropy).value;
            && |s.envelope| == |c.canonical| + EnvelopeOverhead
            && (|s.envelope| <= EnvelopeMaximum <==> |c.canonical| <= MaxCheckpointCanonicalBytes)
            && (|c.canonical| == MaxCheckpointCanonicalBytes <==> |s.envelope| == EnvelopeMaximum)
  {
    hide ValidAAD, AssociatedData, AEADKeyInfo, Correct;
    var nonce := entropy.value;
    var key := x.hkdf(k.masters[a.checkpointKeyID], AEADKeyInfo(c.profile));
    CorrectAt(x, key, nonce, c.canonical, AssociatedData(a));
    EnvelopeParts(nonce, x.seal(key, nonce, c.canonical, AssociatedData(a)));
  }

  // ---------------------------------------------------------------- domain separation

  /** The fields of valid associated data fit their frames. */
  lemma AADFieldsFit(a: AAD, domain: string, trailing: seq<string>)
    requires ValidAAD(a) && |domain| < Wide && (forall i | 0 <= i < |trailing| :: |trailing[i]| < Wide)
    requires a.checkpointRevision < 0x8000_0000_0000_0000 && a.checkpointVersion < 0x8000_0000_0000_0000
    ensures forall i | 0 <= i < |AADFields(a, domain, trailing)| :: |AADFields(a, domain, trailing)[i]| < Wide
  {
    DecimalIsShort(a.checkpointRevision);
    DecimalIsShort(a.checkpointVersion);
    hide Decimal, Unhex, ValidUUID, ValidSHA256;
    FieldLengths(a);
    var fields := AADFields(a, domain, trailing);
    forall i | 0 <= i < |fields| ensures |fields[i]| < Wide {
      if i >= 10 { assert fields[i] == trailing[i - 10]; }
    }
  }

  lemma FieldLengths(a: AAD)
    requires ValidAAD(a)
    ensures |a.tenantID| == 36 && |a.workspaceID| == 36 && |a.sourceID| == 36
    ensures |a.canonicalRevisionDigest| == 64 && |a.sourceDefinitionDigest| == 64
  {
  }

  /** The fields determine the associated data: every coordinate is authenticated. */
  lemma FieldsDetermineAAD(a: AAD, b: AAD, d: string, e: string, t: seq<string>, u: seq<string>)
    requires ValidAAD(a) && ValidAAD(b) && AADFields(a, d, t) == AADFields(b, e, u)
    ensures a == b && d == e && t == u
  {
    var l, m := AADFields(a, d, t), AADFields(b, e, u);
    assert l[0] == m[0] && l[1] == m[1] && l[2] == m[2] && l[3] == m[3] && l[4] == m[4];
    assert l[5] == m[5] && l[6] == m[6] && l[7] == m[7] && l[8] == m[8] && l[9] == m[9];
    DecimalInjective(a.checkpointRevision, b.checkpointRevision);
    DecimalInjective(a.checkpointVersion, b.checkpointVersion);
    UnhexInjective(a.canonicalRevisionDigest, b.canonicalRevisionDigest);
    UnhexInjective(a.sourceDefinitionDigest, b.sourceDefinitionDigest);
    assert t == l[10..] && u == m[10..];
  }

  /** Both numbers are Go int64 values. */
  predicate Representable(a: AAD) {
    a.checkpointRevision < 0x8000_0000_0000_0000 && a.checkpointVersion < 0x8000_0000_0000_0000
  }

  lemma FramedInjective(a: AAD, b: AAD, d: string, e: string, t: seq<string>, u: seq<string>)
    requires ValidAAD(a) && ValidAAD(b) && Representable(a) && Representable(b) && |d| < Wide && |e| < Wide
    requires (forall i | 0 <= i < |t| :: |t[i]| < Wide) && (forall i | 0 <= i < |u| :: |u[i]| < Wide)
    requires Framed(a, d, t) == Framed(b, e, u)
    ensures a == b && d == e && t == u
  {
    AADFieldsFit(a, d, t);
    AADFieldsFit(b, e, u);
    hide ValidAAD, AADFields, EncodeAll;
    TupleInjective(AADFields(a, d, t), AADFields(b, e, u));
    FieldsDetermineAAD(a, b, d, e, t, u);
  }

  /**
   Inputs of the two schemes never coincide: distinct associated data differ, no associated data is a
   replay message, replay messages determine what they identify, and the two derived keys have
   different infos, as do the AEAD keys of different profiles.
   */
  lemma DomainsAreSeparate(a: AAD, b: AAD, c: string, d: string, p: string, q: string)
    requires ValidAAD(a) && ValidAAD(b) && Representable(a) && Representable(b)
    requires |c| <= MaxCheckpointCanonicalBytes && |d| <= MaxCheckpointCanonicalBytes && |p| <= 128 && |q| <= 128
    ensures AssociatedData(a) == AssociatedData(b) <==> a == b
    ensures AssociatedData(a) != ReplayMessage(b, d)
    ensures ReplayMessage(a, c) == ReplayMessage(b, d) <==> a == b && c == d
    ensures AEADKeyInfo(p) == AEADKeyInfo(q) <==> p == q
    ensures AEADKeyInfo(p) != ReplayKeyInfo
  {
    hide ValidAAD, Framed, EncodeAll, Representable;
    if Framed(a, AADDomain, []) == Framed(b, AADDomain, []) { FramedInjective(a, b, AADDomain, AADDomain, [], []); }
    if Framed(a, AADDomain, []) == Framed(b, ReplayDomain, [d]) { FramedInjective(a, b, AADDomain, ReplayDomain, [], [d]); }
    if Framed(a, ReplayDomain, [c]) == Framed(b, ReplayDomain, [d]) {
      FramedInjective(a, b, ReplayDomain, ReplayDomain, [c], [d]);
      assert [c][0] == [d][0];
    }
    if AEADKeyInfo(p) == AEADKeyInfo(q) {
      TupleInjective([AEADKeyDomain, p], [AEADKeyDomain, q]);
      assert [AEADKeyDomain, p][1] == [AEADKeyDomain, q][1];
    }
    InfoStartsFramed(p);
  }

  lemma InfoStartsFramed(p: string)
    ensures AEADKeyInfo(p) != ReplayKeyInfo
  {
    var t := Tuple([AEADKeyDomain, p]);
    assert EncodeAll(t)[0] == Encode(t[0])[0] == '\U{1}';
    assert ReplayKeyInfo[0] == 'a';
  }
}

/**
 Length-prefixed framing: a missing frame is one zero byte, a present one is a one byte, its length as
 four big-endian bytes, and its content. A byte is a character below 256.
 */
module Framing {
  import opened Options
  import opened Text

  datatype Frame = Missing | Present(content: string)

  const Wide: int := 0x1_0000_0000

  /** `binary.BigEndian.PutUint32(length, uint32(n))`: the conversion keeps the low 32 bits. */
  function LengthPrefix(n: nat): (p: string)
    ensures |p| == 4
  {
    var m := n % Wide;
    [(m / 0x100_0000) as char, (m / 0x1_0000 % 0x100) as char, (m / 0x100 % 0x100) as char, (m % 0x100) as char]
  }

  function PrefixValue(p: string): (n: nat)
    requires |p| == 4
  {
    p[0] as int * 0x100_0000 + p[1] as int * 0x1_0000 + p[2] as int * 0x100 + p[3] as int
  }

  lemma PrefixRoundTrip(n: nat)
    requires n < Wide
    ensures PrefixValue(LengthPrefix(n)) == n
  {
    FourDigits(n);
    assert n % Wide == n;
    var p := LengthPrefix(n);
    assert p[0] as int == n / 0x100_0000 && p[1] as int == n / 0x1_0000 % 0x100;
    assert p[2] as int == n / 0x100 % 0x100 && p[3] as int == n % 0x100;
  }

  /** The four digits of a number to base 256. */
  lemma FourDigits(n: nat)
    requires n < Wide
    ensures n == n / 0x100_0000 * 0x100_0000 + n / 0x1_0000 % 0x100 * 0x1_0000 + n / 0x100 % 0x100 * 0x100 + n % 0x100
  {
    assert n / 0x100 == n / 0x1_0000 * 0x100 + n / 0x100 % 0x100;
    assert n / 0x1_0000 == n / 0x100_0000 * 0x100 + n / 0x1_0000 % 0x100;
    assert n == n / 0x100 * 0x100 + n % 0x100;
  }

  function Encode(f: Frame): string {
    match f
    case Missing => ['\0']
    case Present(content) => ['\U{1}'] + LengthPrefix(|content|) + content
  }

  function EncodeAll(fs: seq<Frame>): string {
    if |fs| == 0 then "" else Encode(fs[0]) + EncodeAll(fs[1..])
  }

  /** Frames whose length fits the prefix. */
  predicate Short(fs: seq<Frame>) {
    forall i | 0 <= i < |fs| :: fs[i].Present? ==> |fs[i].content| < Wide
  }

  /** Reads frames back; `None` for bytes that are no sequence of frames. */
  function Decode(s: string): Option<seq<Frame>>
    decreases |s|
  {
    if |s| == 0 then Some([])
    else if s[0] == '\0' then
      var rest := Decode(s[1..]);
      if rest.None? then None else Some([Missing] + rest.value)
    else if s[0] == '\U{1}' && |s| >= 5 && |s| >= 5 + PrefixValue(s[1..5]) then
      var n := 5 + PrefixValue(s[1..5]);
      var rest := Decode(s[n..]);
      if rest.None? then None else Some([Present(s[5..n])] + rest.value)
    else None
  }

  lemma DecodePresent(content: string, rest: string)
    requires |content| < Wide
    ensures var s := ['\U{1}'] + LengthPrefix(|content|) + content + rest;
            Decode(s) == if Decode(rest).None? then None else Some([Present(content)] + Decode(rest).value)
  {
    var p := LengthPrefix(|content|);
    var s := ['\U{1}'] + p + content + rest;
    PrefixRoundTrip(|content|);
    assert s[1..5] == p;
    assert s[5..5 + |content|] == content && s[5 + |content|..] == rest;
  }

  lemma DecodeMissing(rest: string)
    ensures Decode(['\0'] + rest) == if Decode(rest).None? then None else Some([Missing] + Decode(rest).value)
  {
    assert (['\0'] + rest)[1..] == rest;
  }

  /** Decoding undoes encoding, for any number of frames and missing ones among them. */
  lemma {:induction false} FramesRoundTrip(fs: seq<Frame>)
    requires Short(fs)
    ensures Decode(EncodeAll(fs)) == Some(fs)
    decreases |fs|
  {
    if |fs| > 0 {
      FramesRoundTrip(fs[1..]);
      var rest := EncodeAll(fs[1..]);
      assert fs == [fs[0]] + fs[1..];
      match fs[0] {
        case Missing => DecodeMissing(rest);
        case Present(content) => DecodePresent(content, rest);
      }
    }
  }

  /** Equal bytes come from equal frames. */
  lemma FramesInjective(fs: seq<Frame>, gs: seq<Frame>)
    requires Short(fs) && Short(gs) && EncodeAll(fs) == EncodeAll(gs)
    ensures fs == gs
  {
    FramesRoundTrip(fs);
    FramesRoundTrip(gs);
  }

  lemma {:induction false} EncodeAllSplit(fs: seq<Frame>, gs: seq<Frame>)
    ensures EncodeAll(fs + gs) == EncodeAll(fs) + EncodeAll(gs)
    decreases |fs|
  {
    hide Encode;
    if |fs| == 0 {
      assert fs + gs == gs;
    } else {
      EncodeAllSplit(fs[1..], gs);
      assert (fs + gs)[0] == fs[0] && (fs + gs)[1..] == fs[1..] + gs;
    }
  }

  lemma EncodeAllNext(fs: seq<Frame>, i: nat)
    requires i < |fs|
    ensures EncodeAll(fs[..i + 1]) == EncodeAll(fs[..i]) + Encode(fs[i])
  {
    hide Encode;
    EncodeAllSplit(fs[..i], [fs[i]]);
    assert fs[..i + 1] == fs[..i] + [fs[i]];
    assert [fs[i]][1..] == [];
    assert EncodeAll([fs[i]]) == Encode(fs[i]) + "";
  }

  /** What `framedDigest` feeds to the hash, frame by frame. */
  method WriteFrames(fs: seq<Frame>) returns (written: string)
    ensures written == EncodeAll(fs)
  {
    hide Encode;
    written := "";
    var i := 0;
    while i < |fs|
      invariant 0 <= i <= |fs|
      invariant written == EncodeAll(fs[..i])
    {
      EncodeAllNext(fs, i);
      written := WriteFrame(written, fs[i]);
      i := i + 1;
    }
    assert fs[..i] == fs;
  }

  method WriteFrame(before: string, f: Frame) returns (written: string)
    ensures written == before + Encode(f)
  {
    if f.Missing? { return before + ['\0']; }
    written := before + ['\U{1}'];
    written := written + LengthPrefix(|f.content|);
    written := written + f.content;
    assert written == before + (['\U{1}'] + LengthPrefix(|f.content|) + f.content);
  }

  /** `framedTuple` and `framedTupleV1`: every field is present. */
  function Tuple(fields: seq<string>): (fs: seq<Frame>)
    ensures |fs| == |fields| && forall i | 0 <= i < |fs| :: fs[i] == Present(fields[i])
  {
    if |fields| == 0 then [] else [Present(fields[0])] + Tuple(fields[1..])
  }

  lemma TupleInjective(a: seq<string>, b: seq<string>)
    requires (forall i | 0 <= i < |a| :: |a[i]| < Wide) && (forall i | 0 <= i < |b| :: |b[i]| < Wide)
    requires EncodeAll(Tuple(a)) == EncodeAll(Tuple(b))
    ensures a == b
  {
    FramesInjective(Tuple(a), Tuple(b));
    assert forall i | 0 <= i < |a| :: Tuple(a)[i] == Present(a[i]) && Tuple(b)[i] == Present(b[i]);
  }

  // ---------------------------------------------------------------- numbers are short frames

  function Power10(k: nat): nat {
    if k == 0 then 1 else 10 * Power10(k - 1)
  }

  lemma {:induction false} DigitsAtMost(n: nat, k: nat)
    requires k > 0 && n < Power10(k)
    ensures |Digits(n)| <= k
  {
    if n >= 10 { DigitsAtMost(n / 10, k - 1); }
  }

  /** A Go int has at most 19 digits. */
  lemma DecimalIsShort(n: nat)
    requires n < 0x8000_0000_0000_0000
    ensures |Decimal(n)| < Wide
  {
    assert Power10(5) == 100_000 && Power10(10) == 10_000_000_000 && Power10(15) == 1_000_000_000_000_000;
    assert Power10(19) == 10_000_000_000_000_000_000;
    DigitsAtMost(n, 19);
  }
}

/**
 Go strings and byte slices. Both are finite sequences of bytes, written here as `string` with one
 `char` standing for one byte, so `|value|` is Go's `len(value)` and comparison is bytewise.
 */
module Text {

  const Nul: char := '\0'

  predicate AlphaNumeric(c: char) {
    'A' <= c <= 'Z' || 'a' <= c <= 'z' || '0' <= c <= '9'
  }

  predicate LowerHex(c: char) {
    'a' <= c <= 'f' || '0' <= c <= '9'
  }

  predicate IdentifierChar(c: char) {
    AlphaNumeric(c) || c == '.' || c == '_' || c == ':' || c == '/' || c == '@' || c == '-'
  }

  /** `identifierPattern` with the length bound. */
  predicate ValidIdentifier(value: string, maximum: nat) {
    && 1 <= |value| <= maximum
    && AlphaNumeric(value[0])
    && forall i | 0 <= i < |value| :: IdentifierChar(value[i])
  }

  /** `uuidPattern`: lower-case RFC 4122 text of version 1 to 5. */
  predicate ValidUUID(value: string) {
    && |value| == 36
    && (forall i | 0 <= i < 36 ::
          if i == 8 || i == 13 || i == 18 || i == 23 then value[i] == '-' else LowerHex(value[i]))
    && '1' <= value[14] <= '5'
    && (value[19] == '8' || value[19] == '9' || value[19] == 'a' || value[19] == 'b')
  }

  /** `providerKindPattern`. */
  predicate ProviderKind(v: string) {
    && 1 <= |v| <= 64 && 'A' <= v[0] <= 'Z'
    && forall i | 0 <= i < |v| :: 'A' <= v[i] <= 'Z' || '0' <= v[i] <= '9' || v[i] == '_'
  }

  /** `hashPattern`: 64 lower-case hexadecimal digits. */
  predicate ValidSHA256(value: string) {
    |value| == 64 && forall i | 0 <= i < 64 :: LowerHex(value[i])
  }

  /** A hash renders as 64 lower-case hexadecimal digits; nothing else about it is used. */
  type Hash = f: string -> string | forall x :: ValidSHA256(f(x))
    witness (x: string) => seq(64, i => '0')

  /** A byte that `unicode.IsControl` rejects on its own. */
  predicate ControlByte(c: char) {
    c < ' ' || c == '\U{7F}'
  }

  /** The C1 control characters U+0080 to U+009F are the byte pairs C2 80 to C2 9F. */
  predicate HasControl(value: string) {
    || (exists i :: 0 <= i < |value| && ControlByte(value[i]))
    || (exists i :: 0 <= i < |value| - 1 && value[i] == '\U{C2}' && '\U{80}' <= value[i + 1] <= '\U{9F}')
  }

  predicate Space1(a: char) {
    a == ' ' || '\t' <= a <= '\r'
  }

  predicate Space2(a: char, b: char) {
    a == '\U{C2}' && (b == '\U{85}' || b == '\U{A0}')
  }

  predicate Space3(a: char, b: char, c: char) {
    || (a == '\U{E1}' && b == '\U{9A}' && c == '\U{80}')
    || (a == '\U{E2}' && b == '\U{80}' &&
        ('\U{80}' <= c <= '\U{8A}' || c == '\U{A8}' || c == '\U{A9}' || c == '\U{AF}'))
    || (a == '\U{E2}' && b == '\U{81}' && c == '\U{9F}')
    || (a == '\U{E3}' && b == '\U{80}' && c == '\U{80}')
  }

  predicate StartsWithSpace(v: string) {
    || (|v| >= 1 && Space1(v[0]))
    || (|v| >= 2 && Space2(v[0], v[1]))
    || (|v| >= 3 && Space3(v[0], v[1], v[2]))
  }

  predicate EndsWithSpace(v: string) {
    var n := |v|;
    || (n >= 1 && Space1(v[n - 1]))
    || (n >= 2 && Space2(v[n - 2], v[n - 1]))
    || (n >= 3 && Space3(v[n - 3], v[n - 2], v[n - 1]))
  }

  /** Non-empty, bounded, equal to its own `strings.TrimSpace`, and free of control characters. */
  predicate ValidOpaqueText(value: string, maximum: nat) {
    1 <= |value| <= maximum && !StartsWithSpace(value) && !EndsWithSpace(value) && !HasControl(value)
  }

  predicate ValidSubject(subject: string) {
    |subject| > 5 && subject[..5] == "oidc:" && ValidOpaqueText(subject, 512)
  }

  predicate NulFree(value: string) {
    forall i | 0 <= i < |value| :: value[i] != Nul
  }

  /** Identifiers hold no spaces or control bytes, so they are opaque texts of the same bound. */
  lemma IdentifierIsOpaqueText(value: string, maximum: nat, wider: nat)
    requires ValidIdentifier(value, maximum) && maximum <= wider
    ensures ValidOpaqueText(value, wider)
    ensures NulFree(value)
  {
    var n := |value|;
    assert forall i | 0 <= i < n :: IdentifierChar(value[i]) && value[i] < '\U{7F}' && value[i] > ' ';
    assert IdentifierChar(value[0]) && IdentifierChar(value[n - 1]);
    if n >= 2 { assert IdentifierChar(value[n - 2]) && IdentifierChar(value[1]); }
    if n >= 3 { assert IdentifierChar(value[n - 3]) && IdentifierChar(value[2]); }
  }

  // ---------------------------------------------------------------- bytewise order

  /** Go's `<` on strings. */
  predicate Less(a: string, b: string)
    decreases |a|
  {
    |b| > 0 && (|a| == 0 || a[0] < b[0] || (a[0] == b[0] && Less(a[1..], b[1..])))
  }

  lemma {:induction false} LessTotal(a: string, b: string)
    ensures Less(a, b) || a == b || Less(b, a)
    ensures !(Less(a, b) && Less(b, a))
    decreases |a|
  {
    if |a| > 0 && |b| > 0 && a[0] == b[0] {
      LessTotal(a[1..], b[1..]);
      assert a == [a[0]] + a[1..] && b == [b[0]] + b[1..];
    }
  }

  lemma {:induction false} LessTransitive(a: string, b: string, c: string)
    requires Less(a, b) && Less(b, c)
    ensures Less(a, c)
    decreases |a|
  {
    if |a| > 0 && a[0] == b[0] && b[0] == c[0] {
      LessTransitive(a[1..], b[1..], c[1..]);
    }
  }

  // ---------------------------------------------------------------- decimal numbers

  function Digit(n: nat): (c: char)
    requires n < 10
    ensures '0' <= c <= '9' && c as int == '0' as int + n
  {
    (n + '0' as int) as char
  }

  function Digits(n: nat): (r: string)
    ensures |r| >= 1
    ensures forall i | 0 <= i < |r| :: '0' <= r[i] <= '9'
  {
    if n < 10 then [Digit(n)] else Digits(n / 10) + [Digit(n % 10)]
  }

  /** `strconv.FormatInt(n, 10)` and `strconv.Itoa(n)`. */
  function Decimal(n: int): (r: string)
    ensures |r| >= 1
    ensures NulFree(r)
  {
    if n < 0 then "-" + Digits(-n) else Digits(n)
  }

  function DigitsValue(s: string): (n: nat)
    requires forall i | 0 <= i < |s| :: '0' <= s[i] <= '9'
  {
    if |s| == 0 then 0 else DigitsValue(s[..|s| - 1]) * 10 + (s[|s| - 1] as int - '0' as int)
  }

  lemma {:induction false} DigitsRoundTrip(n: nat)
    ensures DigitsValue(Digits(n)) == n
  {
    var r := Digits(n);
    if n >= 10 {
      DigitsRoundTrip(n / 10);
      assert r[..|r| - 1] == Digits(n / 10);
    } else {
      assert r[..|r| - 1] == [];
    }
  }

  function Magnitude(n: int): nat {
    if n < 0 then -n else n
  }

  lemma DecimalParts(n: int)
    ensures Decimal(n)[0] == '-' <==> n < 0
    ensures Digits(Magnitude(n)) == if n < 0 then Decimal(n)[1..] else Decimal(n)
  {
    assert n >= 0 ==> '0' <= Digits(n)[0] <= '9';
  }

  lemma DecimalInjective(m: int, n: int)
    requires Decimal(m) == Decimal(n)
    ensures m == n
  {
    DecimalParts(m);
    DecimalParts(n);
    DigitsRoundTrip(Magnitude(m));
    DigitsRoundTrip(Magnitude(n));
  }

  // ---------------------------------------------------------------- hexadecimal

  function HexDigit(n: nat): (c: char)
    requires n < 16
    ensures LowerHex(c)
  {
    if n < 10 then Digit(n) else (n - 10 + 'a' as int) as char
  }

  /** `hex.EncodeToString`. */
  function Hex(bytes: string): (r: string)
    ensures |r| == 2 * |bytes|
    ensures forall i | 0 <= i < |r| :: LowerHex(r[i])
  {
    if |bytes| == 0 then ""
    else [HexDigit(bytes[0] as int / 16 % 16), HexDigit(bytes[0] as int % 16)] + Hex(bytes[1..])
  }

  // ---------------------------------------------------------------- NUL-joined keys

  /** `strings.Join(fields, "\x00")`. */
  function Join(fields: seq<string>): string {
    if |fields| == 0 then ""
    else if |fields| == 1 then fields[0]
    else fields[0] + [Nul] + Join(fields[1..])
  }

  /** A NUL-free head is determined by the position of the first NUL. */
  lemma NulSplit(a: string, x: string, b: string, y: string)
    requires NulFree(a) && NulFree(b)
    requires a + [Nul] + x == b + [Nul] + y
    ensures a == b && x == y
  {
    var l, r := a + [Nul] + x, b + [Nul] + y;
    assert l[|a|] == Nul && r[|b|] == Nul;
    assert forall i | 0 <= i < |a| :: l[i] == a[i];
    assert forall i | 0 <= i < |b| :: r[i] == b[i];
    assert a == l[..|a|] && b == r[..|b|];
    assert x == l[|a| + 1..] && y == r[|b| + 1..];
  }

  /** Joining NUL-free fields loses nothing: equal keys come from equal tuples. */
  lemma {:induction false} JoinInjective(a: seq<string>, b: seq<string>)
    requires |a| == |b|
    requires forall i | 0 <= i < |a| :: NulFree(a[i]) && NulFree(b[i])
    requires Join(a) == Join(b)
    ensures a == b
  {
    if |a| >= 2 {
      NulSplit(a[0], Join(a[1..]), b[0], Join(b[1..]));
      JoinInjective(a[1..], b[1..]);
      assert a == [a[0]] + a[1..] && b == [b[0]] + b[1..];
    }
  }
}

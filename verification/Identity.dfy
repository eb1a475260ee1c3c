/** Canonical UUID text and the monotone version-7 generator (src/shared/id). */
module Identity {
  import opened Wrappers

  // ----- hexadecimal text -----

  const DIGITS := "0123456789abcdef"

  // Number.prototype.toString(16)
  function ToHex(n: nat): string {
    if n < 16 then [DIGITS[n]] else ToHex(n / 16) + [DIGITS[n % 16]]
  }

  function Zeros(k: nat): (s: string)
    ensures |s| == k && forall i | 0 <= i < k :: s[i] == '0'
  {
    seq(k, _ => '0')
  }

  // String.prototype.padStart(width, '0')
  function PadStart(s: string, width: nat): string {
    if |s| >= width then s else Zeros(width - |s|) + s
  }

  // The value of one hexadecimal digit of either case, or -1.
  function DigitValue(c: char): int {
    if '0' <= c <= '9' then c as int - '0' as int
    else if 'a' <= c <= 'f' then c as int - 'a' as int + 10
    else if 'A' <= c <= 'F' then c as int - 'A' as int + 10
    else -1
  }

  predicate IsHex(s: string) {
    forall i | 0 <= i < |s| :: DigitValue(s[i]) >= 0
  }

  // Number.parseInt(s, 16) on text made of hexadecimal digits
  function ParseHex(s: string): nat
    requires IsHex(s)
  {
    if s == "" then 0 else 16 * ParseHex(s[..|s| - 1]) + DigitValue(s[|s| - 1])
  }

  function Pow16(w: nat): (p: nat)
    ensures p > 0
  {
    if w == 0 then 1 else 16 * Pow16(w - 1)
  }

  // The w low hexadecimal digits of n, most significant first.
  function Fixed(n: nat, w: nat): (s: string)
    ensures |s| == w
  {
    if w == 0 then "" else Fixed(n / 16, w - 1) + [DIGITS[n % 16]]
  }

  lemma {:induction false} PaddedHexIsFixed(n: nat, w: nat)
    requires w > 0 && n < Pow16(w)
    ensures |ToHex(n)| <= w && PadStart(ToHex(n), w) == Fixed(n, w)
  {
    if n < 16 {
      FixedDigit(n, w);
    } else {
      assert Pow16(w) == 16 * Pow16(w - 1) && w > 1;
      PaddedHexIsFixed(n / 16, w - 1);
      hide Fixed, Pow16, Zeros;
      assert PadStart(ToHex(n), w) == PadStart(ToHex(n / 16), w - 1) + [DIGITS[n % 16]];
      assert Fixed(n, w) == Fixed(n / 16, w - 1) + [DIGITS[n % 16]] by { FixedStep(n, w); }
    }
  }

  lemma FixedStep(n: nat, w: nat)
    requires w > 0
    ensures Fixed(n, w) == Fixed(n / 16, w - 1) + [DIGITS[n % 16]]
  {
  }

  lemma {:induction false} FixedZeros(w: nat)
    ensures Fixed(0, w) == Zeros(w)
  {
    if w == 0 {
      assert Zeros(0) == "";
    } else {
      FixedZeros(w - 1);
      FixedStep(0, w);
      hide Fixed;
      assert Zeros(w) == Zeros(w - 1) + "0";
    }
  }

  lemma FixedDigit(n: nat, w: nat)
    requires w > 0 && n < 16
    ensures PadStart([DIGITS[n]], w) == Fixed(n, w)
  {
    FixedStep(n, w);
    FixedZeros(w - 1);
    assert n / 16 == 0 && n % 16 == n;
    hide Fixed;
    var digit := [DIGITS[n]];
    if w == 1 {
      assert Zeros(0) == "" && "" + digit == digit;
    } else {
      assert PadStart(digit, w) == Zeros(w - 1) + digit;
    }
  }

  lemma DigitsCount(d: nat)
    requires d < 16
    ensures DigitValue(DIGITS[d]) == d
  {
  }

  lemma ParseSnoc(s: string, d: nat)
    requires IsHex(s) && d < 16
    ensures IsHex(s + [DIGITS[d]]) && ParseHex(s + [DIGITS[d]]) == 16 * ParseHex(s) + d
  {
    DigitsCount(d);
    hide DigitValue, DIGITS;
    var t := s + [DIGITS[d]];
    assert t[..|t| - 1] == s && t[|t| - 1] == DIGITS[d];
  }

  lemma {:induction false} FixedParses(n: nat, w: nat)
    requires n < Pow16(w)
    ensures IsHex(Fixed(n, w)) && ParseHex(Fixed(n, w)) == n
  {
    if w == 0 {
    } else {
      FixedStep(n, w);
      FixedParses(n / 16, w - 1);
      hide Fixed, IsHex, ParseHex;
      ParseSnoc(Fixed(n / 16, w - 1), n % 16);
    }
  }

  // Fixed-width hexadecimal keeps numeric order: the first differing digit decides.
  lemma {:induction false} FixedFirstDifference(m: nat, n: nat, w: nat) returns (k: nat)
    requires m < n < Pow16(w)
    ensures k < w && Fixed(m, w)[..k] == Fixed(n, w)[..k] && Fixed(m, w)[k] < Fixed(n, w)[k]
  {
    assert w > 0;
    FixedStep(m, w);
    FixedStep(n, w);
    var a, b := Fixed(m / 16, w - 1), Fixed(n / 16, w - 1);
    if m / 16 < n / 16 {
      assert Pow16(w) == 16 * Pow16(w - 1);
      k := FixedFirstDifference(m / 16, n / 16, w - 1);
      hide Fixed, Pow16;
      assert (a + [DIGITS[m % 16]])[..k] == a[..k] && (b + [DIGITS[n % 16]])[..k] == b[..k];
    } else {
      hide Fixed, Pow16;
      k := w - 1;
      DigitOrder(m % 16, n % 16);
      assert (a + [DIGITS[m % 16]])[..k] == a && (b + [DIGITS[n % 16]])[..k] == b;
    }
  }

  lemma DigitOrder(a: nat, b: nat)
    requires a < b < 16
    ensures DIGITS[a] < DIGITS[b]
  {
  }

  // ----- order of texts: the `<` of strings, code unit by code unit -----

  predicate Less(a: string, b: string) {
    b != "" && (a == "" || a[0] < b[0] || (a[0] == b[0] && Less(a[1..], b[1..])))
  }

  lemma {:induction false} LessAt(a: string, b: string, k: nat)
    requires k < |a| && k < |b| && a[..k] == b[..k] && a[k] < b[k]
    ensures Less(a, b)
  {
    if k == 0 {
    } else {
      assert a[0] == a[..k][0] == b[..k][0] == b[0];
      assert a[1..][..k - 1] == a[..k][1..] && b[1..][..k - 1] == b[..k][1..];
      LessAt(a[1..], b[1..], k - 1);
    }
  }

  lemma {:induction false} LessTransitive(a: string, b: string, c: string)
    requires Less(a, b) && Less(b, c)
    ensures Less(a, c)
  {
    if a != "" && a[0] == b[0] == c[0] {
      LessTransitive(a[1..], b[1..], c[1..]);
    }
  }

  lemma {:induction false} LessIrreflexive(a: string)
    ensures !Less(a, a)
  {
    if a == "" {
    } else {
      LessIrreflexive(a[1..]);
    }
  }

  lemma {:induction false} LessTotal(a: string, b: string)
    ensures a == b || Less(a, b) || Less(b, a)
  {
    if a != "" && b != "" && a[0] == b[0] {
      LessTotal(a[1..], b[1..]);
      assert a == [a[0]] + a[1..] && b == [b[0]] + b[1..];
    }
  }

  // ----- parsing -----

  predicate Canonical(s: string) {
    && |s| == 36
    && (forall i | 0 <= i < 36 ::
          if i in {8, 13, 18, 23} then s[i] == '-' else DigitValue(s[i]) >= 0)
    && s[19] in "89abAB"
  }

  function LowerChar(c: char): char {
    if 'A' <= c <= 'Z' then (c as int + 32) as char else c
  }

  function Lower(s: string): (r: string)
    ensures |r| == |s| && forall i | 0 <= i < |s| :: r[i] == LowerChar(s[i])
  {
    seq(|s|, i requires 0 <= i < |s| => LowerChar(s[i]))
  }

  function ParseId(s: string): Option<string> {
    if Canonical(s) then Some(Lower(s)) else None
  }

  // An ID is text that parses to itself.
  predicate ValidId(s: string) {
    ParseId(s) == Some(s)
  }

  type ID = string

  lemma ParsedIsValid(s: string)
    requires ParseId(s).Some?
    ensures ValidId(ParseId(s).value)
  {
    var t := Lower(s);
    assert forall i | 0 <= i < 36 :: DigitValue(t[i]) == DigitValue(s[i]);
    assert Lower(t) == t;
  }

  // Five hyphenated groups of hexadecimal digits, 8-4-4-4-12, of the standard variant.
  predicate Grouped(s: string, a: string, b: string, c: string, d: string, e: string) {
    && |a| == 8 && |b| == |c| == |d| == 4 && |e| == 12
    && IsHex(a) && IsHex(b) && IsHex(c) && IsHex(d) && IsHex(e)
    && 8 <= DigitValue(d[0]) < 12
    && s == a + "-" + b + "-" + c + "-" + d + "-" + e
  }

  /** A text is accepted exactly when it is five such groups; the id is then the same number in lower case. */
  lemma ParseAnswers(s: string)
    ensures ParseId(s).Some? <==> exists a, b, c, d, e :: Grouped(s, a, b, c, d, e)
    ensures ParseId(s).Some? ==>
              var id := ParseId(s).value;
              && |id| == |s|
              && forall i | 0 <= i < |s| :: DigitValue(id[i]) == DigitValue(s[i]) && !('A' <= id[i] <= 'Z')
  {
    if ParseId(s).Some? {
      GroupsOf(s);
    }
    if a, b, c, d, e :| Grouped(s, a, b, c, d, e) {
      CanonicalGroups(s, a, b, c, d, e);
    }
  }

  lemma GroupsOf(s: string)
    requires Canonical(s)
    ensures Grouped(s, s[..8], s[9..13], s[14..18], s[19..23], s[24..])
  {
  }

  lemma CanonicalGroups(s: string, a: string, b: string, c: string, d: string, e: string)
    requires Grouped(s, a, b, c, d, e)
    ensures Canonical(s)
  {
    Template(a, b, c, d, e);
    forall i | 0 <= i < 36 && i !in {8, 13, 18, 23} ensures DigitValue(s[i]) >= 0 {
      hide DigitValue;
      if i < 8 { assert s[i] == s[..8][i] == a[i]; }
      else if i < 13 { assert s[i] == s[9..13][i - 9] == b[i - 9]; }
      else if i < 18 { assert s[i] == s[14..18][i - 14] == c[i - 14]; }
      else if i < 23 { assert s[i] == s[19..23][i - 19] == d[i - 19]; }
      else { assert s[i] == s[24..][i - 24] == e[i - 24]; }
    }
    assert s[19] == s[19..23][0] == d[0];
  }

  function Version(id: string): int
    requires |id| == 36
  {
    DigitValue(id[14])
  }

  // The generator's timestamp, absent for versions other than 7.
  function UnixMillis(id: string): Option<nat>
    requires ValidId(id)
  {
    if Version(id) == 7 then
      assert IsHex(id[..8] + id[9..13]);
      Some(ParseHex(id[..8] + id[9..13]))
    else None
  }

  // ----- the version-7 text (sections 5.7 and 6.2 of RFC 9562) -----

  const MAX_MS := 281474976710655
  const MAX_COUNTER := 4095

  // Ten bytes of entropy.
  type Ten = t: seq<nat> | |t| == 10 && forall i | 0 <= i < 10 :: t[i] < 256
    witness seq(10, _ => 0)

  function ByteText(b: nat): (s: string)
    requires b < 256
    ensures |s| == 2 && IsHex(s)
  {
    PaddedHexIsFixed(b, 2);
    FixedParses(b, 2);
    PadStart(ToHex(b), 2)
  }

  // The eight suffix bytes; the first carries the variant bits 10: (b & 0x3f) | 0x80.
  function Tail(ten: Ten): (s: string)
    ensures |s| == 16 && IsHex(s)
  {
    ByteText(ten[2] % 64 + 128) + ByteText(ten[3]) + ByteText(ten[4]) + ByteText(ten[5])
    + ByteText(ten[6]) + ByteText(ten[7]) + ByteText(ten[8]) + ByteText(ten[9])
  }

  // 0x7000 | counter, the counter having twelve bits.
  function EncodeV7(ms: nat, counter: nat, ten: Ten): string
    requires ms <= MAX_MS && counter <= MAX_COUNTER
  {
    PaddedHexIsFixed(ms, 12);
    var stamp := PadStart(ToHex(ms), 12);
    var tail := Tail(ten);
    stamp[..8] + "-" + stamp[8..] + "-" + ToHex(0x7000 + counter) + "-" + tail[..4] + "-" + tail[4..]
  }

  lemma WordLeads(counter: nat)
    requires counter <= MAX_COUNTER
    ensures Fixed(0x7000 + counter, 4)[0] == '7'
  {
    var n := 0x7000 + counter;
    assert Fixed(n, 4)[0] == Fixed(n / 16, 3)[0];
    assert Fixed(n / 16, 3)[0] == Fixed(n / 16 / 16, 2)[0];
    assert Fixed(n / 16 / 16, 2)[0] == Fixed(n / 16 / 16 / 16, 1)[0];
    assert n / 16 / 16 / 16 == 7;
  }

  // The text by position, which is what the proofs below use instead of the template.
  lemma Layout(ms: nat, counter: nat, ten: Ten)
    requires ms <= MAX_MS && counter <= MAX_COUNTER
    ensures var id, stamp, word, tail := EncodeV7(ms, counter, ten), Fixed(ms, 12), Fixed(0x7000 + counter, 4),
            Tail(ten);
            && |id| == 36
            && id[..8] == stamp[..8] && id[8] == '-'
            && id[9..13] == stamp[8..] && id[13] == '-'
            && id[14..18] == word && id[18] == '-'
            && id[19..23] == tail[..4] && id[23] == '-'
            && id[24..] == tail[4..]
  {
    PaddedHexIsFixed(ms, 12);
    PaddedHexIsFixed(0x7000 + counter, 4);
    ToHexWidth(counter);
    var id, stamp, word, tail := EncodeV7(ms, counter, ten), Fixed(ms, 12), Fixed(0x7000 + counter, 4), Tail(ten);
    hide *;
    Template(stamp[..8], stamp[8..], word, tail[..4], tail[4..]);
  }

  lemma ToHexWidth(counter: nat)
    requires counter <= MAX_COUNTER
    ensures ToHex(0x7000 + counter) == Fixed(0x7000 + counter, 4)
  {
    var n := 0x7000 + counter;
    PaddedHexIsFixed(n, 4);
    assert |ToHex(n)| == 1 + |ToHex(n / 16)|;
    assert |ToHex(n / 16)| == 1 + |ToHex(n / 16 / 16)|;
    assert |ToHex(n / 16 / 16)| == 1 + |ToHex(n / 16 / 16 / 16)|;
  }

  lemma Template(a: string, b: string, c: string, d: string, e: string)
    requires |a| == 8 && |b| == |c| == |d| == 4 && |e| == 12
    ensures var id := a + "-" + b + "-" + c + "-" + d + "-" + e;
            && |id| == 36
            && id[..8] == a && id[8] == '-' && id[9..13] == b && id[13] == '-'
            && id[14..18] == c && id[18] == '-' && id[19..23] == d && id[23] == '-' && id[24..] == e
  {
  }

  /** Every encoded id parses to itself, is version 7 and gives its millisecond back. */
  lemma EncodedRoundTrip(ms: nat, counter: nat, ten: Ten)
    requires ms <= MAX_MS && counter <= MAX_COUNTER
    ensures var id := EncodeV7(ms, counter, ten);
            ValidId(id) && Version(id) == 7 && UnixMillis(id) == Some(ms)
  {
    var id := EncodeV7(ms, counter, ten);
    Layout(ms, counter, ten);
    var stamp, word, tail := Fixed(ms, 12), Fixed(0x7000 + counter, 4), Tail(ten);
    WordLeads(counter);
    VariantDigit(ten);
    LowerHex(ms, 12);
    LowerHex(0x7000 + counter, 4);
    LowerTail(ten);
    assert ms < Pow16(12);
    FixedParses(ms, 12);
    hide EncodeV7, Fixed, Tail, ParseHex;
    assert id[..8] + id[9..13] == stamp;
    assert id[14] == id[14..18][0] && id[19] == id[19..23][0];
    forall i | 0 <= i < 36 && i !in {8, 13, 18, 23}
      ensures DigitValue(id[i]) >= 0 && LowerChar(id[i]) == id[i]
    {
      hide DigitValue, LowerChar;
      if i < 8 { assert id[i] == id[..8][i] == stamp[i]; }
      else if i < 13 { assert id[i] == id[9..13][i - 9] == stamp[i - 1]; }
      else if i < 18 { assert id[i] == id[14..18][i - 14] == word[i - 14]; }
      else if i < 23 { assert id[i] == id[19..23][i - 19] == tail[i - 19]; }
      else { assert id[i] == id[24..][i - 24] == tail[i - 20]; }
    }
    assert Lower(id) == id;
  }

  predicate IsLowerHex(s: string) {
    forall i | 0 <= i < |s| :: DigitValue(s[i]) >= 0 && LowerChar(s[i]) == s[i]
  }

  lemma {:induction false} LowerHex(n: nat, w: nat)
    ensures IsLowerHex(Fixed(n, w))
  {
    if w == 0 {
    } else {
      LowerHex(n / 16, w - 1);
    }
  }

  lemma LowerByte(b: nat)
    requires b < 256
    ensures IsLowerHex(ByteText(b))
  {
    PaddedHexIsFixed(b, 2);
    LowerHex(b, 2);
  }

  lemma LowerTail(ten: Ten)
    ensures IsLowerHex(Tail(ten))
  {
    forall i | 2 <= i < 10 { LowerByte(ten[i]); }
    LowerByte(ten[2] % 64 + 128);
  }

  lemma VariantDigit(ten: Ten)
    ensures Tail(ten)[0] in "89ab"
  {
    var b := ten[2] % 64 + 128;
    PaddedHexIsFixed(b, 2);
    assert Fixed(b, 2)[0] == Fixed(b / 16, 1)[0] == DIGITS[b / 16 % 16];
  }

  /** The text order of two ids is the order of their (millisecond, counter) stamps. */
  lemma StampOrder(ms: nat, counter: nat, ten: Ten, ms': nat, counter': nat, ten': Ten)
    requires ms <= MAX_MS && counter <= MAX_COUNTER && ms' <= MAX_MS && counter' <= MAX_COUNTER
    requires ms < ms' || (ms == ms' && counter < counter')
    ensures Less(EncodeV7(ms, counter, ten), EncodeV7(ms', counter', ten'))
  {
    assert counter' < 4096;
    Layout(ms, counter, ten);
    Layout(ms', counter', ten');
    hide *;
    var a, b := EncodeV7(ms, counter, ten), EncodeV7(ms', counter', ten');
    if ms < ms' {
      LaterStamp(a, b, ms, ms');
    } else {
      SameStampLaterWord(a, b, ms, counter, counter');
    }
  }

  lemma LaterStamp(a: string, b: string, ms: nat, ms': nat)
    requires ms < ms' <= MAX_MS && |a| == |b| == 36
    requires a[..8] == Fixed(ms, 12)[..8] && a[8] == '-' && a[9..13] == Fixed(ms, 12)[8..]
    requires b[..8] == Fixed(ms', 12)[..8] && b[8] == '-' && b[9..13] == Fixed(ms', 12)[8..]
    ensures Less(a, b)
  {
    Widths();
    assert ms' < Pow16(12);
    hide *;
    var k := FixedFirstDifference(ms, ms', 12);
    StampPrefix(a, Fixed(ms, 12), k);
    StampPrefix(b, Fixed(ms', 12), k);
    LessAt(a, b, if k < 8 then k else k + 1);
  }

  lemma SameStampLaterWord(a: string, b: string, ms: nat, c: nat, c': nat)
    requires c < c' < 4096 && |a| == |b| == 36 && a[13] == b[13]
    requires a[..8] == b[..8] == Fixed(ms, 12)[..8] && a[8] == b[8] == '-' && a[9..13] == b[9..13] == Fixed(ms, 12)[8..]
    requires a[14..18] == Fixed(0x7000 + c, 4) && b[14..18] == Fixed(0x7000 + c', 4)
    ensures Less(a, b)
  {
    Widths();
    hide *;
    var k := FixedFirstDifference(0x7000 + c, 0x7000 + c', 4);
    StampPrefix(a, Fixed(ms, 12), 12);
    StampPrefix(b, Fixed(ms, 12), 12);
    WordOrder(a, b, k);
  }

  lemma Widths()
    ensures Pow16(12) == MAX_MS + 1 && Pow16(4) == 65536 && Pow16(3) == 4096
  {
  }

  lemma WordOrder(a: string, b: string, k: nat)
    requires |a| == |b| == 36 && a[..13] == b[..13] && a[13] == b[13]
    requires k < 4 && a[14..18][..k] == b[14..18][..k] && a[14..18][k] < b[14..18][k]
    ensures Less(a, b)
  {
    hide Less;
    forall i | 0 <= i < 14 + k
      ensures a[i] == b[i]
    {
      if i < 13 { assert a[i] == a[..13][i] == b[..13][i]; }
      else if i > 13 { assert a[i] == a[14..18][..k][i - 14] == b[14..18][..k][i - 14]; }
    }
    LessAt(a, b, 14 + k);
  }

  // The first k stamp digits, hyphen included, fix the text up to digit k.
  lemma StampPrefix(id: string, stamp: string, k: nat)
    requires |id| == 36 && |stamp| == 12 && k <= 12
    requires id[..8] == stamp[..8] && id[8] == '-' && id[9..13] == stamp[8..]
    ensures var at := if k < 8 then k else k + 1;
            && id[..at] == (if k < 8 then stamp[..k] else stamp[..k][..8] + "-" + stamp[..k][8..])
            && (k < 12 ==> id[at] == stamp[k])
  {
    if k < 8 {
      assert id[..k] == id[..8][..k];
      assert id[k] == id[..8][k];
    } else {
      assert id[..k + 1] == id[..8] + "-" + id[9..13][..k - 8];
      assert stamp[..k][8..] == stamp[8..][..k - 8];
      assert k < 12 ==> id[k + 1] == id[9..13][k - 8];
    }
  }

  // ----- what a text says -----

  // The twelve counter bits and the eight suffix bytes of a version-7 text.
  function Counter(id: ID): nat
    requires ValidId(id)
  {
    assert IsHex(id[15..18]);
    ParseHex(id[15..18])
  }

  function SuffixByte(id: ID, k: nat): nat
    requires ValidId(id) && k < 8
  {
    var at := if k < 2 then 19 + 2 * k else 20 + 2 * k;
    assert IsHex(id[at..at + 2]);
    ParseHex(id[at..at + 2])
  }

  lemma SevenSplits(n: nat, p: nat)
    ensures (n + 7 * (16 * p)) / 16 == n / 16 + 7 * p && (n + 7 * (16 * p)) % 16 == n % 16
  {
  }

  lemma LastDigitApart(a: string, b: string, d: char)
    requires |a| > 0 && a[1..] == b
    ensures (a + [d])[1..] == b + [d]
  {
  }

  // A leading seven is all that 7 * 16^w adds.
  lemma {:induction false} FixedBehindSeven(n: nat, w: nat)
    requires n < Pow16(w)
    ensures Fixed(n + 7 * Pow16(w), w + 1)[1..] == Fixed(n, w)
  {
    var all := n + 7 * Pow16(w);
    FixedStep(all, w + 1);
    if w == 0 {
      assert Fixed(all, 1)[1..] == "";
    } else {
      FixedStep(n, w);
      assert Pow16(w) == 16 * Pow16(w - 1);
      hide Fixed, Pow16;
      SevenSplits(n, Pow16(w - 1));
      FixedBehindSeven(n / 16, w - 1);
      LastDigitApart(Fixed(all / 16, w), Fixed(n / 16, w - 1), DIGITS[n % 16]);
    }
  }

  // The k-th suffix byte that ten bytes of entropy give: the first keeps six of its bits, under the variant.
  function AskedByte(ten: Ten, k: nat): nat
    requires k < 8
  {
    if k == 0 then 128 + ten[2] % 64 else ten[2 + k]
  }

  lemma TailBytes(ten: Ten, k: nat)
    requires k < 8
    ensures IsHex(Tail(ten)[2 * k..2 * k + 2]) && ParseHex(Tail(ten)[2 * k..2 * k + 2]) == AskedByte(ten, k)
  {
    var b := AskedByte(ten, k);
    PaddedHexIsFixed(b, 2);
    FixedParses(b, 2);
    hide ParseHex, IsHex, PadStart, ToHex, Fixed;
    assert Tail(ten)[2 * k..2 * k + 2] == ByteText(b) by { hide ByteText; TailAt(ten, k); }
  }

  lemma TailAt(ten: Ten, k: nat)
    requires k < 8
    ensures Tail(ten)[2 * k..2 * k + 2] == ByteText(AskedByte(ten, k))
  {
    hide ByteText;
  }

  lemma SliceOfSlice(s: string, a: nat, b: nat, c: nat, d: nat)
    requires a <= c <= d <= b <= |s|
    ensures s[a..b][c - a..d - a] == s[c..d]
  {
    forall i | 0 <= i < d - c ensures s[a..b][c - a..d - a][i] == s[c..d][i] {
      assert s[a..b][c - a..d - a][i] == s[a..b][c - a + i] == s[c + i];
    }
  }

  // The text between its hyphens.
  lemma TextParts(id: string, word: string, tail: string, k: nat)
    requires |id| == 36 && |word| == 4 && |tail| == 16 && k < 8
    requires id[14..18] == word && id[19..23] == tail[0..4] && id[24..36] == tail[4..16]
    ensures id[15..18] == word[1..4]
    ensures var at := if k < 2 then 19 + 2 * k else 20 + 2 * k; id[at..at + 2] == tail[2 * k..2 * k + 2]
  {
    SliceOfSlice(id, 14, 18, 15, 18);
    var c := 2 * k;
    if k < 2 {
      SliceOfSlice(id, 19, 23, 19 + c, 21 + c);
      SliceOfSlice(tail, 0, 4, c, c + 2);
      assert (19 + c) - 19 == c && (21 + c) - 19 == c + 2;
    } else {
      SliceOfSlice(id, 24, 36, 20 + c, 22 + c);
      SliceOfSlice(tail, 4, 16, c, c + 2);
      assert (20 + c) - 24 == c - 4 && (22 + c) - 24 == c - 2;
    }
  }

  lemma EncodedSlices(ms: nat, counter: nat, ten: Ten, k: nat)
    requires ms <= MAX_MS && counter <= MAX_COUNTER && k < 8
    ensures var id, at := EncodeV7(ms, counter, ten), if k < 2 then 19 + 2 * k else 20 + 2 * k;
            && |id| == 36 && id[15..18] == Fixed(0x7000 + counter, 4)[1..]
            && id[at..at + 2] == Tail(ten)[2 * k..2 * k + 2]
  {
    Layout(ms, counter, ten);
    hide *;
    var id, word, tail := EncodeV7(ms, counter, ten), Fixed(0x7000 + counter, 4), Tail(ten);
    assert id[24..] == id[24..36] && tail[4..] == tail[4..16] && tail[..4] == tail[0..4] && word[1..] == word[1..4];
    TextParts(id, word, tail, k);
  }

  lemma EncodedCounter(ms: nat, counter: nat, ten: Ten)
    requires ms <= MAX_MS && counter <= MAX_COUNTER
    ensures ValidId(EncodeV7(ms, counter, ten)) && Counter(EncodeV7(ms, counter, ten)) == counter
  {
    EncodedRoundTrip(ms, counter, ten);
    EncodedSlices(ms, counter, ten, 0);
    Widths();
    hide EncodeV7, Fixed, ParseHex, ValidId, IsHex, Tail, Pow16;
    FixedBehindSeven(counter, 3);
    FixedParses(counter, 3);
  }

  lemma EncodedSuffix(ms: nat, counter: nat, ten: Ten, k: nat)
    requires ms <= MAX_MS && counter <= MAX_COUNTER && k < 8
    ensures ValidId(EncodeV7(ms, counter, ten)) && SuffixByte(EncodeV7(ms, counter, ten), k) == AskedByte(ten, k)
  {
    EncodedRoundTrip(ms, counter, ten);
    EncodedSlices(ms, counter, ten, k);
    TailBytes(ten, k);
    hide EncodeV7, Fixed, ParseHex, ValidId, IsHex, Tail, AskedByte;
  }

  // ----- the generator -----

  // The clock's getTime(): a safe integer, or anything else (NaN, fractions, out of range).
  datatype Reading = Millis(ms: int) | Unsafe

  datatype IdError = TimeRange | Exhausted | Entropy

  datatype Generator = Generator(last: Option<nat>, counter: nat) {
    predicate Valid() {
      counter <= MAX_COUNTER && (last.Some? ==> last.value <= MAX_MS)
    }
  }

  const INITIAL := Generator(None, 0)

  function Seed(ten: Ten): (c: nat)
    ensures c < 2048
  {
    (ten[0] * 256 + ten[1]) % 2048
  }

  predicate InRange(r: Reading) {
    r.Millis? && 0 <= r.ms <= MAX_MS
  }

  predicate Fresh(g: Generator, r: Reading) {
    r.Millis? && (g.last.None? || r.ms > g.last.value)
  }

  // One newId call as a function of the generator, its clock reading and its entropy.
  function Mint(g: Generator, r: Reading, entropy: Option<Ten>): (res: (Generator, Result<ID, IdError>))
    requires g.Valid()
    ensures res.0.Valid()
  {
    if !InRange(r) then (g, Err(TimeRange))
    else if !Fresh(g, r) && g.counter == MAX_COUNTER then (g, Err(Exhausted))
    else if entropy.None? then (g, Err(Entropy))
    else
      var ms: nat := if Fresh(g, r) then r.ms else g.last.value;
      var counter := if Fresh(g, r) then Seed(entropy.value) else g.counter + 1;
      (Generator(Some(ms), counter), Ok(EncodeV7(ms, counter, entropy.value)))
  }

  // The stamp that a call gives out, read from its text: the later of the clock and the last millisecond,
  // and the next count in it, which a later millisecond seeds with eleven bits of entropy.
  predicate Stamped(g: Generator, ms: int, ten: Ten, id: ID)
    requires ValidId(id)
  {
    if g.last.Some? && ms <= g.last.value then UnixMillis(id) == g.last && Counter(id) == g.counter + 1
    else UnixMillis(id) == Some(ms) && Counter(id) == ten[0] % 8 * 256 + ten[1]
  }

  // The suffix bytes of a version-7 text are eight bytes of entropy, the first of them under the variant bits.
  predicate Suffixed(id: ID, ten: Ten)
    requires ValidId(id)
  {
    && Version(id) == 7 && SuffixByte(id, 0) == 128 + ten[2] % 64
    && forall k | 1 <= k < 8 :: SuffixByte(id, k) == ten[2 + k]
  }

  lemma StampedText(ms: nat, counter: nat, ten: Ten)
    requires ms <= MAX_MS && counter <= MAX_COUNTER
    ensures var id := EncodeV7(ms, counter, ten);
            ValidId(id) && UnixMillis(id) == Some(ms) && Counter(id) == counter && Suffixed(id, ten)
  {
    EncodedRoundTrip(ms, counter, ten);
    hide EncodeV7, ValidId, UnixMillis, Version, Counter, SuffixByte;
    EncodedCounter(ms, counter, ten);
    EncodedSuffix(ms, counter, ten, 0);
    forall k | 1 <= k < 8 ensures SuffixByte(EncodeV7(ms, counter, ten), k) == ten[2 + k] {
      EncodedSuffix(ms, counter, ten, k);
    }
  }

  lemma SeedBits(ten: Ten)
    ensures Seed(ten) == ten[0] % 8 * 256 + ten[1]
  {
    assert ten[0] * 256 + ten[1] == ten[0] / 8 * 2048 + (ten[0] % 8 * 256 + ten[1]);
  }

  /** Exactly when a call fails, with which error, and what every digit of the text of any other call says. */
  lemma MintAnswers(g: Generator, r: Reading, entropy: Option<Ten>)
    requires g.Valid()
    ensures var (g', res) := Mint(g, r, entropy);
            if r.Unsafe? || r.ms < 0 || r.ms > 281474976710655 then (g', res) == (g, Err(TimeRange))
            else if g.last.Some? && r.ms <= g.last.value && g.counter == 4095 then (g', res) == (g, Err(Exhausted))
            else if entropy.None? then (g', res) == (g, Err(Entropy))
            else
              && res.Ok? && ValidId(res.value)
              && Stamped(g, r.ms, entropy.value, res.value) && Suffixed(res.value, entropy.value)
              && g' == Generator(UnixMillis(res.value), Counter(res.value))
  {
    hide EncodeV7, ValidId, UnixMillis, Counter, Suffixed, Seed;
    var g' := Mint(g, r, entropy).0;
    if Mint(g, r, entropy).1.Ok? {
      SeedBits(entropy.value);
      StampedText(g'.last.value, g'.counter, entropy.value);
    }
  }

  /** The stateful generator. */
  class V7 {
    var last: Option<nat>
    var counter: nat

    function View(): Generator
      reads this
    {
      Generator(last, counter)
    }

    constructor ()
      ensures View() == INITIAL
    {
      last := None;
      counter := 0;
    }

    method NewId(r: Reading, entropy: Option<Ten>) returns (res: Result<ID, IdError>)
      requires View().Valid()
      modifies this
      ensures (View(), res) == Mint(old(View()), r, entropy)
    {
      hide EncodeV7;
      if r.Unsafe? || r.ms < 0 || r.ms > MAX_MS {
        return Err(TimeRange);
      }
      var ms: nat := r.ms;
      var reseed := last.None? || ms > last.value;
      var next: nat := 0;
      if !reseed {
        ms := last.value;
        if counter == MAX_COUNTER {
          return Err(Exhausted);
        }
        next := counter + 1;
      }
      if entropy.None? {
        return Err(Entropy);
      }
      var random := new nat[10](i requires 0 <= i < 10 => entropy.value[i]);
      if reseed {
        next := (random[0] * 256 + random[1]) % 2048;
      }
      assert random[..] == entropy.value;
      var value := EncodeV7(ms, next, random[..]);
      last := Some(ms);
      counter := next;
      return Ok(value);
    }
  }

  // ----- whole runs -----

  type Call = (Reading, Option<Ten>)

  function AfterCalls(g: Generator, calls: seq<Call>): (g': Generator)
    requires g.Valid()
    ensures g'.Valid()
    decreases |calls|
  {
    if calls == [] then g else AfterCalls(Mint(g, calls[0].0, calls[0].1).0, calls[1..])
  }

  // The texts of the successful calls, in order.
  function Minted(g: Generator, calls: seq<Call>): seq<ID>
    requires g.Valid()
    decreases |calls|
  {
    if calls == [] then []
    else
      var (g', res) := Mint(g, calls[0].0, calls[0].1);
      (if res.Ok? then [res.value] else []) + Minted(g', calls[1..])
  }

  // The calls of a run that succeed.
  function Successful(g: Generator, calls: seq<Call>): seq<Call>
    requires g.Valid()
    decreases |calls|
  {
    if calls == [] then []
    else
      var (g', res) := Mint(g, calls[0].0, calls[0].1);
      (if res.Ok? then [calls[0]] else []) + Successful(g', calls[1..])
  }

  ghost predicate Increasing(ids: seq<ID>) {
    forall i, j | 0 <= i < j < |ids| :: Less(ids[i], ids[j])
  }

  // Everything minted after g is above every text that g's own stamp can have.
  lemma {:induction false} MintedAbove(g: Generator, calls: seq<Call>, ten: Ten)
    requires g.Valid() && g.last.Some?
    ensures forall i | 0 <= i < |Minted(g, calls)| ::
              Less(EncodeV7(g.last.value, g.counter, ten), Minted(g, calls)[i])
    decreases |calls|
  {
    hide EncodeV7, Less;
    if calls == [] {
    } else {
      var (r, entropy) := calls[0];
      var (g', res) := Mint(g, r, entropy);
      if res.Ok? {
        StampOrder(g.last.value, g.counter, ten, g'.last.value, g'.counter, entropy.value);
        MintedAbove(g', calls[1..], entropy.value);
        forall i | 0 <= i < |Minted(g', calls[1..])|
          ensures Less(EncodeV7(g.last.value, g.counter, ten), Minted(g', calls[1..])[i])
        {
          LessTransitive(EncodeV7(g.last.value, g.counter, ten), res.value, Minted(g', calls[1..])[i]);
        }
      } else {
        MintedAbove(g, calls[1..], ten);
      }
    }
  }

  /** Over any clock (rollbacks, out-of-range values) and any entropy (failures included),
      the texts of one generator strictly increase, so no two are equal. */
  lemma {:induction false} RunIncreases(g: Generator, calls: seq<Call>)
    requires g.Valid()
    ensures Increasing(Minted(g, calls))
    ensures forall i, j | 0 <= i < j < |Minted(g, calls)| :: Minted(g, calls)[i] != Minted(g, calls)[j]
    decreases |calls|
  {
    hide EncodeV7, Less;
    if calls == [] {
    } else {
      var (g', res) := Mint(g, calls[0].0, calls[0].1);
      RunIncreases(g', calls[1..]);
      if res.Ok? {
        MintedAbove(g', calls[1..], calls[0].1.value);
      }
    }
    forall i, j | 0 <= i < j < |Minted(g, calls)|
      ensures Minted(g, calls)[i] != Minted(g, calls)[j]
    {
      LessIrreflexive(Minted(g, calls)[i]);
    }
  }

  /** Every id of a run is a version-7 id carrying a millisecond the clock once showed, or the
      one held at the start of the run. */
  lemma {:induction false} RunParses(g: Generator, calls: seq<Call>, i: nat)
    requires g.Valid() && i < |Minted(g, calls)|
    ensures ValidId(Minted(g, calls)[i]) && Version(Minted(g, calls)[i]) == 7
    ensures var ms := UnixMillis(Minted(g, calls)[i]);
            ms.Some? && (ms == g.last || exists k | 0 <= k < |calls| :: calls[k].0 == Millis(ms.value))
    decreases |calls|
  {
    hide EncodeV7, ValidId, UnixMillis, Version;
    var (r, entropy) := calls[0];
    var (g', res) := Mint(g, r, entropy);
    if res.Ok? && i == 0 {
      EncodedRoundTrip(g'.last.value, g'.counter, entropy.value);
    } else {
      var rest := if res.Ok? then i - 1 else i;
      RunParses(g', calls[1..], rest);
      var ms := UnixMillis(Minted(g', calls[1..])[rest]);
      if ms != g.last {
        if ms != g'.last {
          var k :| 0 <= k < |calls[1..]| && calls[1..][k].0 == Millis(ms.value);
          assert calls[k + 1].0 == Millis(ms.value);
        } else {
          assert calls[0].0 == Millis(ms.value);
        }
      }
    }
  }

  /** Failure atomicity: erasing the failed calls of a run changes neither its ids nor the
      generator it leaves, so a failure moves only the clock and the entropy source. */
  lemma {:induction false} FailuresLeaveNoTrace(g: Generator, calls: seq<Call>)
    requires g.Valid()
    ensures Minted(g, calls) == Minted(g, Successful(g, calls))
    ensures AfterCalls(g, calls) == AfterCalls(g, Successful(g, calls))
    ensures |Minted(g, calls)| == |Successful(g, calls)|
    decreases |calls|
  {
    hide EncodeV7;
    if calls == [] {
    } else {
      var (g', res) := Mint(g, calls[0].0, calls[0].1);
      FailuresLeaveNoTrace(g', calls[1..]);
      if res.Ok? {
        var kept := Successful(g, calls);
        assert kept[0] == calls[0] && kept[1..] == Successful(g', calls[1..]);
        assert Minted(g, kept) == [res.value] + Minted(g', kept[1..]);
        assert AfterCalls(g, kept) == AfterCalls(g', kept[1..]);
      } else {
        assert Successful(g, calls) == Successful(g', calls[1..]);
      }
    }
  }

  // Readings that are in range but do not pass ms, with entropy that never fails.
  predicate Stalled(calls: seq<Call>, ms: nat) {
    forall i | 0 <= i < |calls| :: InRange(calls[i].0) && calls[i].0.ms <= ms && calls[i].1.Some?
  }

  lemma {:induction false} StalledRun(g: Generator, calls: seq<Call>)
    requires g.Valid() && g.last.Some? && Stalled(calls, g.last.value)
    ensures AfterCalls(g, calls).last == g.last
    ensures |Minted(g, calls)| == if |calls| <= MAX_COUNTER - g.counter then |calls| else MAX_COUNTER - g.counter
    ensures AfterCalls(g, calls).counter == g.counter + |Minted(g, calls)|
    decreases |calls|
  {
    hide EncodeV7;
    if calls == [] {
    } else {
      var (g', res) := Mint(g, calls[0].0, calls[0].1);
      StalledRun(g', calls[1..]);
    }
  }

  /** Capacity of one millisecond: exactly 4096 minus the seed ids succeed, between 2049 and
      4096, all of them before the first refusal, and every later call is refused. */
  lemma Capacity(g: Generator, r: Reading, ten: Ten, rest: seq<Call>)
    requires g.Valid() && InRange(r) && Fresh(g, r) && Stalled(rest, r.ms)
    ensures var calls := [(r, Some(ten))] + rest;
            var most := 4096 - Seed(ten);
            && 2049 <= most <= 4096
            && |Minted(g, calls)| == (if |calls| <= most then |calls| else most)
            && (|calls| >= most ==>
                  forall r', e' | InRange(r') && r'.ms <= r.ms ::
                    Mint(AfterCalls(g, calls), r', e').1 == Err(Exhausted))
  {
    hide EncodeV7, Seed;
    var calls := [(r, Some(ten))] + rest;
    var (g', res) := Mint(g, r, Some(ten));
    assert calls[1..] == rest;
    StalledRun(g', rest);
    hide Mint;
    if |calls| >= 4096 - Seed(ten) { Refuses(AfterCalls(g, calls), r.ms); }
  }

  // A generator whose counter is used up refuses every reading that does not pass its millisecond.
  lemma Refuses(g: Generator, ms: nat)
    requires g.Valid() && g.last == Some(ms) && g.counter == MAX_COUNTER
    ensures forall r, e | InRange(r) && r.ms <= ms :: Mint(g, r, e).1 == Err(Exhausted)
  {
    hide EncodeV7;
  }
}

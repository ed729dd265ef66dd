/** Base58 (draft-msporny-base58, sections 3 and 4) by big-number division, and the
    did:key form of an agent's public key (pkg/identity/did.go). */
module Base58 {
  import opened Bytes

  // ----- Positional numerals, most significant digit first -----

  ghost predicate Digital(ds: seq<nat>, base: nat) {
    forall k :: 0 <= k < |ds| ==> ds[k] < base
  }

  function Val(ds: seq<nat>, base: nat): nat {
    if ds == [] then 0 else Val(ds[..|ds| - 1], base) * base + ds[|ds| - 1]
  }

  /** The numeral of n without leading zeros; zero is the empty numeral. */
  function Digits(n: nat, base: nat): (ds: seq<nat>)
    requires base >= 2
    ensures Digital(ds, base)
    ensures ds != [] ==> ds[0] != 0
    ensures ds == [] <==> n == 0
  {
    if n == 0 then []
    else
      Smaller(n, base);
      Digits(n / base, base) + [n % base]
  }

  lemma Smaller(n: nat, base: nat)
    requires n > 0 && base >= 2
    ensures n / base < n && 0 <= n / base
    ensures n == n / base * base + n % base
  {
  }

  lemma {:induction false} ValOfDigits(n: nat, base: nat)
    requires base >= 2
    ensures Val(Digits(n, base), base) == n
  {
    if n > 0 {
      Smaller(n, base);
      ValOfDigits(n / base, base);
      var ds := Digits(n, base);
      assert ds[..|ds| - 1] == Digits(n / base, base);
    }
  }

  lemma ProductAtLeast(k: nat, base: nat)
    requires k >= 1
    ensures k * base >= base
  {
  }

  lemma QuotientIsUnique(q: nat, r: nat, v: nat, d: nat, base: nat)
    requires q * base + r == v * base + d && r < base && d < base
    ensures q == v && r == d
  {
    if q > v {
      ProductAtLeast(q - v, base);
    } else if q < v {
      ProductAtLeast(v - q, base);
    }
  }

  lemma DivStep(v: nat, d: nat, base: nat)
    requires d < base && base >= 2
    ensures (v * base + d) / base == v && (v * base + d) % base == d
  {
    var n := v * base + d;
    if n > 0 {
      Smaller(n, base);
      QuotientIsUnique(n / base, n % base, v, d, base);
    }
  }

  lemma {:induction false} DigitsOfVal(ds: seq<nat>, base: nat)
    requires base >= 2 && Digital(ds, base)
    requires ds != [] ==> ds[0] != 0
    ensures Digits(Val(ds, base), base) == ds
  {
    if ds != [] {
      var init, d := ds[..|ds| - 1], ds[|ds| - 1];
      DigitsOfVal(init, base);
      DivStep(Val(init, base), d, base);
      assert Val(ds, base) > 0 by {
        if init != [] {
          assert Val(init, base) > 0;
          ProductAtLeast(Val(init, base), base);
        }
      }
      assert ds == init + [d];
    }
  }

  function Leading(ds: seq<nat>): (n: nat)
    ensures n <= |ds|
    ensures forall k :: 0 <= k < n ==> ds[k] == 0
    ensures n < |ds| ==> ds[n] != 0
  {
    if ds == [] || ds[0] != 0 then 0 else 1 + Leading(ds[1..])
  }

  function ZeroDigits(n: nat): (z: seq<nat>)
    ensures |z| == n && forall k :: 0 <= k < n ==> z[k] == 0
  {
    seq(n, _ => 0)
  }

  lemma {:induction false} LeadingZerosAdd(n: nat, ds: seq<nat>, base: nat)
    requires ds != [] ==> ds[0] != 0
    ensures Leading(ZeroDigits(n) + ds) == n
    ensures Val(ZeroDigits(n) + ds, base) == Val(ds, base)
  {
    var all := ZeroDigits(n) + ds;
    assert ds != [] ==> all[n] == ds[0];
    ZerosValue(n, ds, base);
  }

  lemma {:induction false} ZerosValue(n: nat, ds: seq<nat>, base: nat)
    ensures Val(ZeroDigits(n) + ds, base) == Val(ds, base)
    decreases n + |ds|
  {
    var all := ZeroDigits(n) + ds;
    if ds != [] {
      assert all[..|all| - 1] == ZeroDigits(n) + ds[..|ds| - 1];
      ZerosValue(n, ds[..|ds| - 1], base);
    } else if n > 0 {
      assert all[..|all| - 1] == ZeroDigits(n - 1) + ds;
      ZerosValue(n - 1, ds, base);
    }
  }

  /** The same number in another base, with the leading zeros carried over one for one. */
  function Convert(ds: seq<nat>, base: nat, to: nat): (r: seq<nat>)
    requires to >= 2
    ensures Digital(r, to)
  {
    ZeroDigits(Leading(ds)) + Digits(Val(ds, base), to)
  }

  /** Conversion between any two bases is undone by the conversion back. */
  lemma ConvertRoundTrip(ds: seq<nat>, base: nat, to: nat)
    requires base >= 2 && to >= 2 && Digital(ds, base)
    ensures Convert(Convert(ds, base, to), to, base) == ds
  {
    var n := Leading(ds);
    var core := ds[n..];
    assert ds == ZeroDigits(n) + core;
    LeadingZerosAdd(n, core, base);
    var v := Val(ds, base);
    LeadingZerosAdd(n, Digits(v, to), to);
    ValOfDigits(v, to);
    DigitsOfVal(core, base);
  }

  // ----- Leading digits -----

  function Pow(base: nat, n: nat): nat {
    if n == 0 then 1 else base * Pow(base, n - 1)
  }

  lemma {:induction false} PowAdds(base: nat, m: nat, n: nat)
    ensures Pow(base, m + n) == Pow(base, m) * Pow(base, n)
  {
    if m > 0 {
      PowAdds(base, m - 1, n);
      Associates(base, Pow(base, m - 1), Pow(base, n));
    }
  }

  lemma Associates(a: nat, b: nat, c: nat)
    ensures a * (b * c) == a * b * c
  {
  }

  lemma Below(q: nat, r: nat, low: nat, base: nat)
    requires q < low && r < base
    ensures q * base + r < low * base
  {
    ProductAtLeast(low - q, base);
    assert low * base == q * base + (low - q) * base;
  }

  lemma NotBelow(high: nat, q: nat, base: nat)
    requires high <= q
    ensures high * base <= q * base
  {
  }

  lemma Between(low: nat, high: nat, n: nat, base: nat)
    requires base >= 2 && low * base <= n < high * base
    ensures low <= n / base < high
  {
    var q, r := n / base, n % base;
    assert n == q * base + r && r < base;
    if q < low {
      Below(q, r, low, base);
      assert false;
    }
    if q >= high {
      NotBelow(high, q, base);
      assert false;
    }
  }

  lemma {:induction false} PowPositive(base: nat, n: nat)
    requires base > 0
    ensures Pow(base, n) > 0
  {
    if n > 0 {
      PowPositive(base, n - 1);
      ProductAtLeast(base, Pow(base, n - 1));
    }
  }

  lemma Shifted(q: nat, p: nat, base: nat)
    ensures q * (base * p) == q * p * base
  {
  }

  lemma OneDigitMore(n: nat, base: nat)
    requires base >= 2 && n / base > 0
    ensures Digits(n, base) == Digits(n / base, base) + [n % base]
  {
  }

  /** n is at least q and less than q + 1 in units of m digits. */
  ghost predicate StartsWith(n: nat, base: nat, q: nat, m: nat) {
    q * Pow(base, m) <= n < (q + 1) * Pow(base, m)
  }

  lemma OneDigitLess(n: nat, base: nat, q: nat, m: nat)
    requires base >= 2 && q > 0 && m > 0 && StartsWith(n, base, q, m)
    ensures n / base > 0 && StartsWith(n / base, base, q, m - 1)
  {
    var p := Pow(base, m - 1);
    Shifted(q, p, base);
    Shifted(q + 1, p, base);
    assert Pow(base, m) == base * p;
    Between(q * p, (q + 1) * p, n, base);
    PowPositive(base, m - 1);
    ProductAtLeast(q, p);
  }

  lemma StartsWithAll(n: nat, base: nat, q: nat)
    requires StartsWith(n, base, q, 0)
    ensures n == q
  {
  }

  /** Such a number has the digits of q and then m more. */
  lemma {:induction false} LeadingDigits(n: nat, base: nat, q: nat, m: nat)
    requires base >= 2 && q > 0 && StartsWith(n, base, q, m)
    ensures |Digits(n, base)| == |Digits(q, base)| + m
    ensures Digits(n, base)[..|Digits(q, base)|] == Digits(q, base)
  {
    hide Digits, StartsWith, Pow;
    if m == 0 {
      StartsWithAll(n, base, q);
    } else {
      OneDigitLess(n, base, q, m);
      LeadingDigits(n / base, base, q, m - 1);
      OneDigitMore(n, base);
    }
  }

  lemma {:induction false} ValSplits(a: seq<nat>, b: seq<nat>, base: nat)
    requires Digital(b, base)
    ensures Val(b, base) < Pow(base, |b|)
    ensures Val(a + b, base) == Val(a, base) * Pow(base, |b|) + Val(b, base)
    decreases |b|
  {
    if b == [] {
      assert a + b == a;
    } else {
      var n := |b| - 1;
      ValSplits(a, b[..n], base);
      assert (a + b)[..|a| + n] == a + b[..n];
      Associates(Val(a, base), Pow(base, n), base);
      OneMoreDigit(Val(b[..n], base), Pow(base, n), b[n], base);
      Carried(Val(a, base) * Pow(base, n), Val(b[..n], base), base);
    }
  }

  lemma OneMoreDigit(v: nat, p: nat, d: nat, base: nat)
    requires v < p && d < base
    ensures v * base + d < base * p
  {
    assert base * p == v * base + (p - v) * base;
    ProductAtLeast(p - v, base);
  }

  lemma Carried(x: nat, y: nat, base: nat)
    ensures (x + y) * base == x * base + y * base
  {
  }

  // ----- The alphabet -----

  const NUMERALS := "123456789"
  const UPPER := "ABCDEFGHJKLMNPQRSTUVWXYZ"
  const LOWER := "abcdefghijkmnopqrstuvwxyz"
  const ALPHABET: string := NUMERALS + UPPER + LOWER

  ghost predicate IsAlphabet(a: string) {
    |a| == 58 && forall i, j :: 0 <= i < j < 58 ==> a[i] != a[j]
  }

  lemma AlphabetAscends(k: nat)
    ensures |ALPHABET| == 58
    ensures k < 57 ==> ALPHABET[k] < ALPHABET[k + 1]
  {
    hide NUMERALS, UPPER, LOWER;
    NumeralsAscend(k);
    UpperAscends(if 9 <= k < 33 then k - 9 else 0);
    LowerAscends(if 33 <= k < 58 then k - 33 else 0);
  }

  lemma NumeralsAscend(k: nat)
    ensures |NUMERALS| == 9 && NUMERALS[8] < 'A'
    ensures k < 8 ==> NUMERALS[k] < NUMERALS[k + 1]
  {
  }

  lemma UpperAscends(k: nat)
    ensures |UPPER| == 24 && UPPER[0] == 'A' && UPPER[23] < 'a'
    ensures k < 23 ==> UPPER[k] < UPPER[k + 1]
  {
  }

  lemma LowerAscends(k: nat)
    ensures |LOWER| == 25 && LOWER[0] == 'a'
    ensures k < 24 ==> LOWER[k] < LOWER[k + 1]
  {
  }

  lemma {:induction false} AlphabetOrder(i: nat, j: nat)
    requires i < j < 58
    ensures |ALPHABET| == 58 && ALPHABET[i] < ALPHABET[j]
  {
    AlphabetAscends(j - 1);
    if i + 1 < j {
      AlphabetOrder(i, j - 1);
    }
  }

  lemma AlphabetIsOne()
    ensures IsAlphabet(ALPHABET)
  {
    AlphabetAscends(0);
    forall i, j | 0 <= i < j < 58
      ensures ALPHABET[i] < ALPHABET[j]
    {
      AlphabetOrder(i, j);
    }
  }

  /** The position of a character in the alphabet; the first match of the inner search loop. */
  function DigitOf(c: char, a: string): (r: Option<nat>)
    ensures r.Some? ==> r.value < |a| && a[r.value] == c
    ensures r.None? <==> c !in a
  {
    if a == [] then None
    else if a[0] == c then Some(0)
    else
      assert a == [a[0]] + a[1..];
      match DigitOf(c, a[1..])
      case None => None
      case Some(k) => Some(k + 1)
  }

  lemma DigitOfAt(d: nat, a: string)
    requires IsAlphabet(a) && d < 58
    ensures DigitOf(a[d], a) == Some(d)
  {
    assert a[d] in a;
  }

  function Spell(ds: seq<nat>, a: string): (s: string)
    requires Digital(ds, |a|)
    ensures |s| == |ds|
    ensures forall k :: 0 <= k < |ds| ==> s[k] == a[ds[k]]
  {
    seq(|ds|, k requires 0 <= k < |ds| => a[ds[k]])
  }

  ghost predicate Over(s: string, a: string) {
    forall k :: 0 <= k < |s| ==> s[k] in a
  }

  function Unspell(s: string, a: string): (ds: seq<nat>)
    requires Over(s, a)
    ensures |ds| == |s| && Digital(ds, |a|)
    ensures forall k :: 0 <= k < |s| ==> Some(ds[k]) == DigitOf(s[k], a)
  {
    seq(|s|, k requires 0 <= k < |s| => DigitOf(s[k], a).value)
  }

  lemma UnspellSpell(ds: seq<nat>, a: string)
    requires IsAlphabet(a) && Digital(ds, 58)
    ensures Over(Spell(ds, a), a) && Unspell(Spell(ds, a), a) == ds
  {
    forall k | 0 <= k < |ds|
      ensures DigitOf(Spell(ds, a)[k], a) == Some(ds[k])
    {
      DigitOfAt(ds[k], a);
    }
  }

  // ----- Encoding and decoding -----

  function AsBytes(ds: seq<nat>): (b: bytes)
    requires Digital(ds, 256)
    ensures b == ds
  {
    seq(|ds|, k requires 0 <= k < |ds| => ds[k])
  }

  function EncodedIn(data: bytes, a: string): string
    requires IsAlphabet(a)
  {
    Spell(Convert(data, 256, 58), a)
  }

  function DecodedIn(s: string, a: string): Result<bytes>
    requires IsAlphabet(a)
  {
    if exists k :: 0 <= k < |s| && s[k] !in a then Err("invalid base58 character")
    else Ok(AsBytes(Convert(Unspell(s, a), 58, 256)))
  }

  lemma DecodeEncodeIn(data: bytes, a: string)
    requires IsAlphabet(a)
    ensures DecodedIn(EncodedIn(data, a), a) == Ok(data)
  {
    UnspellSpell(Convert(data, 256, 58), a);
    ConvertRoundTrip(data, 256, 58);
  }

  lemma EncodeDecodeIn(s: string, a: string)
    requires IsAlphabet(a)
    ensures DecodedIn(s, a).Ok? <==> Over(s, a)
    ensures DecodedIn(s, a).Ok? ==> EncodedIn(DecodedIn(s, a).value, a) == s
  {
    if DecodedIn(s, a).Ok? {
      var ds := Unspell(s, a);
      ConvertRoundTrip(ds, 58, 256);
      assert Convert(DecodedIn(s, a).value, 256, 58) == ds;
      assert Spell(ds, a) == s;
    }
  }

  function Encoded(data: bytes): string {
    AlphabetIsOne();
    EncodedIn(data, ALPHABET)
  }

  function Decoded(s: string): Result<bytes> {
    AlphabetIsOne();
    DecodedIn(s, ALPHABET)
  }

  /** Decoding gives back every byte string that was encoded, leading zeros included. */
  lemma DecodeEncode(data: bytes)
    ensures Decoded(Encoded(data)) == Ok(data)
  {
    AlphabetIsOne();
    DecodeEncodeIn(data, ALPHABET);
  }

  /** Exactly the strings over the alphabet decode, and encoding gives each one back. */
  lemma EncodeDecode(s: string)
    ensures Decoded(s).Ok? <==> Over(s, ALPHABET)
    ensures Decoded(s).Ok? ==> Encoded(Decoded(s).value) == s
  {
    AlphabetIsOne();
    EncodeDecodeIn(s, ALPHABET);
  }

  // ----- The loops -----

  method Base58Encode(data: bytes) returns (s: string)
    ensures s == Encoded(data)
  {
    AlphabetIsOne();
    s := EncodeOver(data, ALPHABET);
  }

  method EncodeOver(data: bytes, a: string) returns (s: string)
    requires IsAlphabet(a)
    ensures s == EncodedIn(data, a)
  {
    var x: nat := Val(data, 256);
    ghost var ds := Digits(x, |a|);
    s := [];
    while x > 0
      invariant Spell(Digits(x, |a|), a) + Reversed(s) == Spell(ds, a)
    {
      var mod := x % |a|;
      DigitsStep(x, |a|);
      SpellAppend(Digits(x / |a|, |a|), mod, s, a);
      s := s + [a[mod]];
      x := x / |a|;
    }
    var i := 0;
    while i < |data| && data[i] == 0
      invariant i <= |data| && forall k :: 0 <= k < i ==> data[k] == 0
      invariant Reversed(s) == Spell(ZeroDigits(i) + ds, a)
    {
      ReversedAppend(s, a[0]);
      assert ZeroDigits(i + 1) + ds == [0] + (ZeroDigits(i) + ds);
      s := s + [a[0]];
      i := i + 1;
    }
    LeadingIs(data, i);
    s := Reverse(s);
  }

  lemma DigitsStep(x: nat, base: nat)
    requires x > 0 && base >= 2
    ensures Digits(x, base) == Digits(x / base, base) + [x % base]
  {
    Smaller(x, base);
  }

  lemma SpellAppend(ds: seq<nat>, d: nat, s: string, a: string)
    requires Digital(ds, |a|) && d < |a|
    ensures Spell(ds, a) + Reversed(s + [a[d]]) == Spell(ds + [d], a) + Reversed(s)
  {
    ReversedAppend(s, a[d]);
    assert Spell(ds + [d], a) == Spell(ds, a) + [a[d]];
  }

  method Base58Decode(s: string) returns (r: Result<bytes>)
    ensures r == Decoded(s)
  {
    AlphabetIsOne();
    r := DecodeOver(s, ALPHABET);
  }

  method DecodeOver(s: string, a: string) returns (r: Result<bytes>)
    requires IsAlphabet(a)
    ensures r == DecodedIn(s, a)
  {
    hide Val, Digits, Leading;
    var value := ReadValue(s, a);
    if value.None? {
      return Err("invalid base58 character");
    }
    var zeros := 0;
    while zeros < |s| && s[zeros] == a[0]
      invariant zeros <= |s| && forall k :: 0 <= k < zeros ==> s[k] == a[0]
    {
      zeros := zeros + 1;
    }
    DigitOfAt(0, a);
    LeadingIs(Unspell(s, a), zeros);
    r := Ok(AsBytes(ZeroDigits(zeros) + Digits(value.value, 256)));
  }

  /** The number a string stands for, or none at the first character outside the alphabet. */
  method ReadValue(s: string, a: string) returns (v: Option<nat>)
    requires IsAlphabet(a)
    ensures v.Some? <==> Over(s, a)
    ensures v.Some? ==> v.value == Val(Unspell(s, a), |a|)
  {
    hide IsAlphabet;
    var value: nat := 0;
    for i := 0 to |s|
      invariant Over(s[..i], a)
      invariant value == Val(Unspell(s[..i], a), |a|)
    {
      var d := DigitOf(s[i], a);
      if d.None? {
        return None;
      }
      UnspellStep(s, i, a);
      ValAppend(Unspell(s[..i], a), d.value, |a|);
      value := value * |a| + d.value;
    }
    assert s[..|s|] == s;
    v := Some(value);
  }

  lemma ValAppend(ds: seq<nat>, d: nat, base: nat)
    ensures Val(ds + [d], base) == Val(ds, base) * base + d
  {
    assert (ds + [d])[..|ds|] == ds;
  }

  lemma UnspellStep(s: string, i: nat, a: string)
    requires i < |s| && Over(s[..i], a) && s[i] in a
    ensures Over(s[..i + 1], a)
    ensures Unspell(s[..i + 1], a) == Unspell(s[..i], a) + [DigitOf(s[i], a).value]
  {
    var t := s[..i + 1];
    forall k | 0 <= k < |t|
      ensures t[k] in a
    {
      if k < i {
        assert t[k] == s[..i][k];
      }
    }
  }

  lemma {:induction false} LeadingIs(ds: seq<nat>, n: nat)
    requires n <= |ds| && forall k :: 0 <= k < n ==> ds[k] == 0
    requires n < |ds| ==> ds[n] != 0
    ensures Leading(ds) == n
  {
    var m := Leading(ds);
    assert !(m < n) && !(n < m);
  }

  function Reversed(s: string): (r: string)
    ensures |r| == |s|
    ensures forall k :: 0 <= k < |s| ==> r[k] == s[|s| - 1 - k]
  {
    seq(|s|, k requires 0 <= k < |s| => s[|s| - 1 - k])
  }

  lemma ReversedAppend(s: string, c: char)
    ensures Reversed(s + [c]) == [c] + Reversed(s)
  {
  }

  /** The two-ended swap loop at the end of the encoder. */
  method Reverse(s: string) returns (r: string)
    ensures r == Reversed(s)
  {
    r := s;
    var i, j := 0, |s| - 1;
    while i < j
      invariant 0 <= i && i + j == |s| - 1 && |r| == |s| && i <= j + 1
      invariant forall k :: 0 <= k < i ==> r[k] == s[|s| - 1 - k] && r[|s| - 1 - k] == s[k]
      invariant forall k :: i <= k <= j ==> r[k] == s[k]
    {
      r := r[i := r[j]][j := r[i]];
      i, j := i + 1, j - 1;
    }
  }

  // ----- did:key (W3C CCG did:key Method, section 2) -----

  const PREFIX := "did:key:z"
  const MULTICODEC: bytes := [0xed, 0x01]

  function DID(publicKey: bytes): string {
    PREFIX + Encoded(MULTICODEC + publicKey)
  }

  method ParseDID(did: string) returns (r: Result<bytes>)
    ensures r == ParsedDID(did)
  {
    if |did| <= |PREFIX| {
      return Err("too short");
    }
    if did[..|PREFIX|] != PREFIX {
      return Err("missing prefix");
    }
    var d := Base58Decode(did[|PREFIX|..]);
    if d.Err? {
      return Err("base58 decode");
    }
    var decoded := d.value;
    if |decoded| < 2 {
      return Err("decoded too short");
    }
    if decoded[0] != 0xed || decoded[1] != 0x01 {
      return Err("not an Ed25519 key");
    }
    var publicKey := decoded[2..];
    if |publicKey| != 32 {
      return Err("key must be 32 bytes");
    }
    r := Ok(publicKey);
  }

  function ParsedDID(did: string): Result<bytes> {
    if |did| <= |PREFIX| then Err("too short")
    else if did[..|PREFIX|] != PREFIX then Err("missing prefix")
    else
      var d := Decoded(did[|PREFIX|..]);
      if d.Err? then Err("base58 decode")
      else if |d.value| < 2 then Err("decoded too short")
      else if d.value[0] != 0xed || d.value[1] != 0x01 then Err("not an Ed25519 key")
      else if |d.value[2..]| != 32 then Err("key must be 32 bytes")
      else Ok(d.value[2..])
  }

  lemma PowTimes(base: nat, m: nat, n: nat, p: nat, q: nat)
    requires Pow(base, m) == p && Pow(base, n) == q
    ensures Pow(base, m + n) == p * q
  {
    PowAdds(base, m, n);
  }

  lemma Pow58Is()
    ensures Pow(58, 44) == 389790918707373377135528568990913592653094657612049369038476873218241589149696
  {
    assert Pow(58, 2) == 3364;
    hide Pow;
    PowTimes(58, 2, 2, 3364, 3364);
    PowTimes(58, 4, 4, 11316496, 11316496);
    PowTimes(58, 4, 8, 11316496, 128063081718016);
    PowTimes(58, 8, 8, 128063081718016, 128063081718016);
    PowTimes(58, 16, 16, 16400152899115243850138976256, 16400152899115243850138976256);
    PowTimes(58, 12, 32, 1449225352009601191936, 268965015114358137726910587140455987105619365599731777536);
  }

  lemma Pow256Is()
    ensures Pow(256, 32) == 115792089237316195423570985008687907853269984665640564039457584007913129639936
  {
    assert Pow(256, 2) == 65536;
    hide Pow;
    PowTimes(256, 2, 2, 65536, 65536);
    PowTimes(256, 4, 4, 4294967296, 4294967296);
    PowTimes(256, 8, 8, 18446744073709551616, 18446744073709551616);
    PowTimes(256, 16, 16, 340282366920938463463374607431768211456, 340282366920938463463374607431768211456);
  }

  lemma TopCharacters()
    ensures |ALPHABET| == 58 && ALPHABET[5] == '6' && ALPHABET[20] == 'M' && ALPHABET[43] == 'k'
  {
  }

  lemma TopDigits()
    ensures Digits(18023, 58) == [5, 20, 43]
  {
    assert Digits(5, 58) == [5];
    assert Digits(310, 58) == [5, 20];
  }

  /** Every identifier of an Ed25519 key starts with z6Mk and is 56 characters long. */
  lemma DIDStarts(key: bytes)
    requires |key| == 32
    ensures |DID(key)| == 56 && DID(key)[..12] == "did:key:z6Mk"
  {
    hide DID, Encoded, ALPHABET;
    var ds: seq<nat> := MULTICODEC + key;
    var v := Val(ds, 256);
    ValSplits(MULTICODEC, key, 256);
    assert Val([0xed, 0x01], 256) == 60673 by {
      assert [0xed, 0x01][..1] == [0xed] && [0xed][..0] == [];
      assert Val([0xed], 256) == 237;
    }
    Pow256Is();
    Pow58Is();
    LeadingDigits(v, 58, 18023, 44);
    TopDigits();
    TopCharacters();
    EncodedStarts(key);
  }

  lemma EncodedStarts(key: bytes)
    requires |key| == 32
    requires |ALPHABET| == 58 && ALPHABET[5] == '6' && ALPHABET[20] == 'M' && ALPHABET[43] == 'k'
    requires
      var digits := Digits(Val(MULTICODEC + key, 256), 58);
      |digits| == 47 && digits[..3] == [5, 20, 43]
    ensures |DID(key)| == 56 && DID(key)[..12] == "did:key:z6Mk"
  {
    hide ALPHABET, Digits, Val, PREFIX, Convert, IsAlphabet, Spell;
    AlphabetIsOne();
    var ds: seq<nat> := MULTICODEC + key;
    assert ds[0] == 0xed;
    NoLeadingZeros(ds);
    var digits := Digits(Val(ds, 256), 58);
    SpelledStart(digits);
    BehindPrefix(Encoded(MULTICODEC + key));
  }

  lemma NoLeadingZeros(ds: seq<nat>)
    requires ds != [] && ds[0] != 0
    ensures Convert(ds, 256, 58) == Digits(Val(ds, 256), 58)
  {
    hide Digits, Val;
  }

  lemma SpelledStart(digits: seq<nat>)
    requires Digital(digits, 58) && |digits| == 47 && digits[..3] == [5, 20, 43]
    requires |ALPHABET| == 58 && ALPHABET[5] == '6' && ALPHABET[20] == 'M' && ALPHABET[43] == 'k'
    ensures |Spell(digits, ALPHABET)| == 47 && Spell(digits, ALPHABET)[..3] == "6Mk"
  {
    hide ALPHABET;
    assert digits[0] == digits[..3][0] && digits[1] == digits[..3][1] && digits[2] == digits[..3][2];
  }

  lemma BehindPrefix(s: string)
    requires |s| == 47 && s[..3] == "6Mk"
    ensures |PREFIX + s| == 56 && (PREFIX + s)[..12] == "did:key:z6Mk"
  {
    assert (PREFIX + s)[..12] == PREFIX + s[..3];
  }

  /** The third test vector of draft-msporny-base58, section 5: leading zeros become leading ones. */
  lemma KnownAnswer()
    ensures Encoded([0, 0, 0x28, 0x7f, 0xb4, 0xcd]) == "11233QC4"
  {
    hide ALPHABET;
    AlphabetIsOne();
    var data: seq<nat> := [0, 0, 0x28, 0x7f, 0xb4, 0xcd];
    assert data[1..] == [0, 0x28, 0x7f, 0xb4, 0xcd] && data[1..][1..] == [0x28, 0x7f, 0xb4, 0xcd];
    assert Leading(data) == 2;
    KnownValue();
    KnownDigits();
    KnownSpelling();
    assert ZeroDigits(2) == [0, 0];
    assert Convert(data, 256, 58) == [0, 0, 1, 2, 2, 23, 11, 3];
  }

  lemma KnownValue()
    ensures Val([0, 0, 0x28, 0x7f, 0xb4, 0xcd], 256) == 0x287fb4cd
  {
    var d: seq<nat> := [0, 0, 0x28, 0x7f, 0xb4, 0xcd];
    assert d[..5][..4] == d[..4] && d[..4][..3] == d[..3] && d[..3][..2] == d[..2] && d[..2][..1] == d[..1] && d[..1][..0] == [];
    assert Val(d[..1], 256) == 0;
    assert Val(d[..2], 256) == 0;
    assert Val(d[..3], 256) == 0x28;
    assert Val(d[..4], 256) == 0x287f;
    assert Val(d[..5], 256) == 0x287fb4;
  }

  lemma KnownDigits()
    ensures Digits(0x287fb4cd, 58) == [1, 2, 2, 23, 11, 3]
  {
    assert Digits(1, 58) == [1];
    assert Digits(60, 58) == [1, 2];
    assert Digits(3482, 58) == [1, 2, 2];
    assert Digits(201979, 58) == [1, 2, 2, 23];
    assert Digits(11714793, 58) == [1, 2, 2, 23, 11];
    assert Digits(679457997, 58) == [1, 2, 2, 23, 11, 3];
  }

  lemma KnownSpelling()
    ensures |ALPHABET| == 58
    ensures ALPHABET[0] == '1' && ALPHABET[1] == '2' && ALPHABET[2] == '3' && ALPHABET[3] == '4'
    ensures ALPHABET[11] == 'C' && ALPHABET[23] == 'Q'
  {
  }

  lemma EncodedIsNotEmpty(data: bytes)
    requires data != []
    ensures Encoded(data) != ""
  {
    hide ALPHABET;
    DecodeEncode(data);
    assert Decoded([]).value == [];
  }

  /** ParseDID accepts exactly the identifiers of 32-byte keys, and returns the key. */
  lemma ParseDIDInvertsDID(did: string, key: bytes)
    ensures ParsedDID(did) == Ok(key) <==> |key| == 32 && did == DID(key)
  {
    hide Encoded, Decoded, ALPHABET;
    if |key| == 32 && did == DID(key) {
      var data := MULTICODEC + key;
      DecodeEncode(data);
      assert did[..|PREFIX|] == PREFIX && did[|PREFIX|..] == Encoded(data);
      EncodedIsNotEmpty(data);
      assert data[0] == 0xed && data[1] == 0x01 && data[2..] == key;
    }
    if ParsedDID(did) == Ok(key) {
      var body := did[|PREFIX|..];
      EncodeDecode(body);
      assert Decoded(body).value == MULTICODEC + key;
      assert did == PREFIX + body;
    }
  }
}

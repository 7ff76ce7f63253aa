/** Truncation of text to a number of UTF-8 bytes (runner/opspilot_runner/safety.py). The encoding is that of
    section 3 of RFC 3629. */
module Utf8 {
  type Byte = b: int | 0 <= b < 256

  predicate IsScalar(c: int) {
    0 <= c < 0xD800 || 0xE000 <= c < 0x110000
  }

  /** A Unicode scalar value. */
  type Scalar = c: int | 0 <= c < 0xD800 || 0xE000 <= c < 0x110000

  type Text = seq<Scalar>

  // ----- Encoding ----------------------------------------------------------------------------------------

  function Size(c: Scalar): nat {
    if c < 0x80 then 1 else if c < 0x800 then 2 else if c < 0x10000 then 3 else 4
  }

  function EncodeScalar(c: Scalar): (r: seq<Byte>)
    ensures |r| == Size(c)
  {
    var last: Byte := 0x80 + c as int % 64;
    if c < 0x80 then
      var only: Byte := c as int;
      [only]
    else if c < 0x800 then
      var lead: Byte := 0xC0 + c as int / 64;
      [lead, last]
    else if c < 0x10000 then
      var lead: Byte := 0xE0 + c as int / 4096;
      var second: Byte := 0x80 + c as int / 64 % 64;
      [lead, second, last]
    else
      var lead: Byte := 0xF0 + c as int / 262144;
      var second: Byte := 0x80 + c as int / 4096 % 64;
      var third: Byte := 0x80 + c as int / 64 % 64;
      [lead, second, third, last]
  }

  function Encode(s: Text): seq<Byte> {
    if s == [] then [] else EncodeScalar(s[0]) + Encode(s[1..])
  }

  // ----- Decoding, ignoring what is malformed ----------------------------------------------------------------

  /** The length a leading byte announces; 0 for a byte that cannot lead. */
  function Announced(b: Byte): nat {
    if b < 0x80 then 1 else if b < 0xC0 then 0 else if b < 0xE0 then 2 else if b < 0xF0 then 3
    else if b < 0xF8 then 4 else 0
  }

  /** The number that n bytes carry. */
  function Carried(b: seq<Byte>, n: nat): int
    requires 1 <= n <= 4 && n <= |b|
  {
    var v := (k: nat) requires k < |b| => b[k] as int;
    match n
    case 1 => v(0)
    case 2 => (v(0) - 0xC0) * 64 + (v(1) - 0x80)
    case 3 => (v(0) - 0xE0) * 4096 + (v(1) - 0x80) * 64 + (v(2) - 0x80)
    case _ => (v(0) - 0xF0) * 262144 + (v(1) - 0x80) * 4096 + (v(2) - 0x80) * 64 + (v(3) - 0x80)
  }

  /** The scalar value the bytes begin with, if they begin with a well-formed sequence: overlong forms, surrogates
      and numbers beyond the last code point are malformed. */
  function First(b: seq<Byte>): (r: seq<Scalar>)
    ensures |r| <= 1
    ensures |r| == 1 ==> EncodeScalar(r[0]) <= b
  {
    if b == [] then []
    else
      var n := Announced(b[0]);
      if n == 0 || |b| < n then []
      else
        var c := Carried(b, n);
        if IsScalar(c) && EncodeScalar(c) <= b then [c] else []
  }

  /** `decode(errors="ignore")`. The rest of a malformed sequence consists of bytes that cannot lead, so dropping
      one byte at a time drops the same bytes. */
  function DecodeIgnore(b: seq<Byte>): Text
    decreases |b|
  {
    if b == [] then []
    else if First(b) == [] then DecodeIgnore(b[1..])
    else First(b) + DecodeIgnore(b[Size(First(b)[0])..])
  }

  lemma Digits(c: nat)
    ensures c == c / 64 * 64 + c % 64
    ensures c / 64 == c / 4096 * 64 + c / 64 % 64
    ensures c / 4096 == c / 262144 * 64 + c / 4096 % 64
  {
  }

  /** A well-formed sequence is decoded to what was encoded, whatever follows. */
  lemma ScalarRoundTrip(c: Scalar, rest: seq<Byte>)
    ensures First(EncodeScalar(c) + rest) == [c]
  {
    var b := EncodeScalar(c) + rest;
    Digits(c);
    assert Announced(b[0]) == Size(c);
    assert Carried(b, Size(c)) == c;
  }

  lemma {:induction false} RoundTrip(s: Text)
    ensures DecodeIgnore(Encode(s)) == s
  {
    if s != [] {
      DecodeNext(s[0], Encode(s[1..]));
      RoundTrip(s[1..]);
    }
  }

  // ----- Truncation --------------------------------------------------------------------------------------------

  function Truncate(s: Text, limit: nat): (Text, bool) {
    var encoded := Encode(s);
    if |encoded| <= limit then (s, false) else (DecodeIgnore(encoded[..limit]), true)
  }

  lemma ContinuationBytes(c: Scalar, i: nat)
    requires 1 <= i < Size(c)
    ensures Announced(EncodeScalar(c)[i]) == 0
  {
  }

  /** Nothing is left of a sequence that was cut short. */
  lemma {:induction false} CutSequence(c: Scalar, i: nat, j: nat)
    requires i <= j < Size(c)
    ensures DecodeIgnore(EncodeScalar(c)[i..j]) == []
    decreases j - i
  {
    if i < j {
      var cut := EncodeScalar(c)[i..j];
      if i == 0 {
        Digits(c);
        assert Announced(cut[0]) == Size(c);
      } else {
        ContinuationBytes(c, i);
      }
      assert First(cut) == [];
      assert cut[1..] == EncodeScalar(c)[i + 1..j];
      CutSequence(c, i + 1, j);
    }
  }

  /** The first k scalar values, and no more, fit. */
  predicate Fits(s: Text, k: nat, limit: nat) {
    k <= |s| && |Encode(s[..k])| <= limit && (k < |s| ==> |Encode(s[..k+1])| > limit)
  }

  lemma FitsAfter(s: Text, k: nat, limit: nat)
    requires s != [] && Size(s[0]) <= limit && Fits(s[1..], k, limit - Size(s[0]))
    ensures Fits(s, k + 1, limit)
  {
    hide EncodeScalar;
    assert s[..k + 1][1..] == s[1..][..k];
    if k + 1 < |s| { assert s[..k + 2][1..] == s[1..][..k + 1]; }
  }

  lemma FitsNothing(s: Text, limit: nat)
    requires s != [] && limit < Size(s[0])
    ensures Fits(s, 0, limit)
  {
    assert s[..0] == [] && s[..1][1..] == [] && Encode(s[..1]) == EncodeScalar(s[0]) + Encode([]);
  }

  lemma DecodeNext(c: Scalar, rest: seq<Byte>)
    ensures DecodeIgnore(EncodeScalar(c) + rest) == [c] + DecodeIgnore(rest)
  {
    hide EncodeScalar, First;
    ScalarRoundTrip(c, rest);
    assert (EncodeScalar(c) + rest)[Size(c)..] == rest;
  }

  /** Decoding the first bytes of an encoding yields the code points that fit completely. */
  lemma {:induction false} CutText(s: Text, limit: nat) returns (k: nat)
    requires limit <= |Encode(s)|
    ensures Fits(s, k, limit) && DecodeIgnore(Encode(s)[..limit]) == s[..k]
  {
    hide Fits, EncodeScalar, DecodeIgnore;
    if s == [] {
      k := 0;
      NothingFits(limit);
    } else if limit < Size(s[0]) {
      k := 0;
      assert Encode(s)[..limit] == EncodeScalar(s[0])[0..limit];
      CutSequence(s[0], 0, limit);
      FitsNothing(s, limit);
    } else {
      var n := Size(s[0]);
      var rest := Encode(s[1..])[..limit - n];
      k := CutText(s[1..], limit - n);
      FitsWithin(s[1..], k, limit - n);
      assert Encode(s)[..limit] == EncodeScalar(s[0]) + rest;
      DecodeNext(s[0], rest);
      FitsAfter(s, k, limit);
      assert s[..k + 1] == [s[0]] + s[1..][..k];
      k := k + 1;
    }
  }

  lemma FitsWithin(s: Text, k: nat, limit: nat)
    requires Fits(s, k, limit)
    ensures k <= |s|
  {
  }

  lemma NothingFits(limit: nat)
    ensures Fits([], 0, limit) && DecodeIgnore([]) == []
  {
  }

  lemma {:induction false} LongerIsLonger(s: Text, k: nat)
    requires k <= |s|
    ensures |Encode(s[..k])| <= |Encode(s)|
    ensures k < |s| ==> |Encode(s[..k])| < |Encode(s)|
  {
    if k > 0 {
      assert s[..k][1..] == s[1..][..k - 1];
      LongerIsLonger(s[1..], k - 1);
    }
  }

  /** For every text and every limit, truncation yields the longest prefix of whole code points whose encoding fits
      the limit, and its flag tells whether anything was dropped. */
  lemma TruncationIsTheLongestPrefix(s: Text, limit: nat) returns (k: nat)
    ensures Fits(s, k, limit) && Truncate(s, limit).0 == s[..k]
    ensures forall j :: 0 <= j <= |s| && |Encode(s[..j])| <= limit ==> j <= k
    ensures Truncate(s, limit).1 <==> Truncate(s, limit).0 != s
  {
    if |Encode(s)| <= limit {
      k := |s|;
      assert s[..k] == s;
    } else {
      k := CutText(s, limit);
      assert s[..|s|] == s;
      forall j | 0 <= j <= |s| && |Encode(s[..j])| <= limit ensures j <= k {
        if j > k {
          assert s[..j][..k + 1] == s[..k + 1];
          LongerIsLonger(s[..j], k + 1);
        }
      }
    }
  }
}

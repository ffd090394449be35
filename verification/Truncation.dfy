/**
 The tool-result cap (tools/truncation.py): content over the cap is cut at a byte
 position of its UTF-8 form (sections 3 and 4 of RFC 3629) and decoded back, ignoring
 what the cut left incomplete.
 */
module Truncation {
  import opened Options
  import opened Bytes
  import opened Numerals

  // --- UTF-8, one character -----------------------------------------------------------------

  function EncodeChar(c: char): Data {
    var n := c as int;
    if n < 0x80 then [n]
    else if n < 0x800 then [0xC0 + n / 0x40, 0x80 + n % 0x40]
    else if n < 0x10000 then [0xE0 + n / 0x1000, 0x80 + n / 0x40 % 0x40, 0x80 + n % 0x40]
    else [0xF0 + n / 0x40000, 0x80 + n / 0x1000 % 0x40, 0x80 + n / 0x40 % 0x40, 0x80 + n % 0x40]
  }

  predicate IsTail(b: Byte) {
    0x80 <= b < 0xC0
  }

  function Bits(b: Byte): int {
    b - 0x80
  }

  predicate IsScalar(n: int) {
    0 <= n < 0xD800 || 0xE000 <= n < 0x110000
  }

  // The value of a well-formed sequence at the start of `b`, and its length.
  function DecodeFirst(b: Data): Option<(int, nat)> {
    if |b| >= 1 && b[0] < 0x80 then Some((b[0], 1))
    else if |b| >= 2 && 0xC2 <= b[0] < 0xE0 && IsTail(b[1]) then Some(((b[0] - 0xC0) as int * 0x40 + Bits(b[1]), 2))
    else if |b| >= 3 && 0xE0 <= b[0] < 0xF0 && IsTail(b[1]) && IsTail(b[2]) then
      var n := (b[0] - 0xE0) as int * 0x1000 + Bits(b[1]) * 0x40 + Bits(b[2]);
      if n >= 0x800 && IsScalar(n) then Some((n, 3)) else None
    else if |b| >= 4 && 0xF0 <= b[0] < 0xF5 && IsTail(b[1]) && IsTail(b[2]) && IsTail(b[3]) then
      var n := (b[0] - 0xF0) as int * 0x40000 + Bits(b[1]) * 0x1000 + Bits(b[2]) * 0x40 + Bits(b[3]);
      if 0x10000 <= n < 0x110000 then Some((n, 4)) else None
    else None
  }

  lemma DecodedIsAChar(b: Data)
    ensures match DecodeFirst(b)
            case None => true
            case Some((n, k)) => IsScalar(n) && 1 <= k <= |b|
  {
  }

  // Only the encoding of a character decodes to it: no longer form is accepted.
  lemma DecodedIsAnEncoding(b: Data)
    requires DecodeFirst(b).Some?
    ensures var (n, k) := DecodeFirst(b).value;
            IsScalar(n) && k <= |b| && EncodeChar(n as char) == b[..k]
  {
    var (n, k) := DecodeFirst(b).value;
    if k == 2 {
      TwoDigits(n, b[0] - 0xC0, Bits(b[1]));
    } else if k == 3 {
      ThreeDigits(n, b[0] - 0xE0, Bits(b[1]), Bits(b[2]));
    } else if k == 4 {
      FourDigits(n, b[0] - 0xF0, Bits(b[1]), Bits(b[2]), Bits(b[3]));
    }
  }

  lemma TwoDigits(n: int, hi: int, lo: int)
    requires 0 <= lo < 0x40 && n == hi * 0x40 + lo
    ensures n / 0x40 == hi && n % 0x40 == lo
  {
  }

  lemma ThreeDigits(n: int, hi: int, mid: int, lo: int)
    requires 0 <= mid < 0x40 && 0 <= lo < 0x40 && n == hi * 0x1000 + mid * 0x40 + lo
    ensures n / 0x1000 == hi && n / 0x40 % 0x40 == mid && n % 0x40 == lo
  {
    TwoDigits(n, hi * 0x40 + mid, lo);
    TwoDigits(n / 0x40, hi, mid);
  }

  lemma FourDigits(n: int, top: int, hi: int, mid: int, lo: int)
    requires 0 <= hi < 0x40 && 0 <= mid < 0x40 && 0 <= lo < 0x40
    requires n == top * 0x40000 + hi * 0x1000 + mid * 0x40 + lo
    ensures n / 0x40000 == top && n / 0x1000 % 0x40 == hi && n / 0x40 % 0x40 == mid && n % 0x40 == lo
  {
    ThreeDigits(n, top * 0x40 + hi, mid, lo);
    TwoDigits(n / 0x1000, top, hi);
  }

  // --- UTF-8, a text --------------------------------------------------------------------------

  function Encode(s: string): Data {
    if s == [] then [] else EncodeChar(s[0]) + Encode(s[1..])
  }

  // Decoding that drops whatever does not belong to a well-formed sequence.
  function DecodeIgnore(b: Data): string
    decreases |b|
  {
    if b == [] then [] else
      DecodedIsAChar(b);
      match DecodeFirst(b)
      case None => DecodeIgnore(b[1..])
      case Some((n, k)) => [n as char] + DecodeIgnore(b[k..])
  }

  lemma FirstOfEncoded(c: char, rest: Data)
    ensures DecodeFirst(EncodeChar(c) + rest) == Some((c as int, |EncodeChar(c)|))
  {
    var n := c as int;
    SixBitDigits(n);
    if n < 0x80 {
    } else if n < 0x800 {
      TwoBytes(n, rest);
    } else if n < 0x10000 {
      ThreeBytes(n, rest);
    } else {
      FourBytes(n, rest);
    }
  }

  lemma SixBitDigits(n: nat)
    ensures n == n / 0x40 * 0x40 + n % 0x40
    ensures n / 0x40 == n / 0x1000 * 0x40 + n / 0x40 % 0x40
    ensures n / 0x1000 == n / 0x40000 * 0x40 + n / 0x1000 % 0x40
  {
  }

  lemma TwoBytes(n: nat, rest: Data)
    requires 0x80 <= n < 0x800
    ensures DecodeFirst([0xC0 + n / 0x40, 0x80 + n % 0x40] + rest) == Some((n, 2))
  {
    SixBitDigits(n);
    var b: Data := [0xC0 + n / 0x40, 0x80 + n % 0x40] + rest;
    assert b[0] == 0xC0 + n / 0x40 && b[1] == 0x80 + n % 0x40;
  }

  lemma ThreeBytes(n: nat, rest: Data)
    requires 0x800 <= n < 0x10000 && IsScalar(n)
    ensures DecodeFirst([0xE0 + n / 0x1000, 0x80 + n / 0x40 % 0x40, 0x80 + n % 0x40] + rest) == Some((n, 3))
  {
    var hi, mid, lo := n / 0x1000, n / 0x40 % 0x40, n % 0x40;
    assert n == hi * 0x1000 + mid * 0x40 + lo by { SixBitDigits(n); }
    ThreeByteSequence(hi, mid, lo, rest);
  }

  lemma ThreeByteSequence(hi: nat, mid: nat, lo: nat, rest: Data)
    requires hi < 0x10 && mid < 0x40 && lo < 0x40
    requires hi * 0x1000 + mid * 0x40 + lo >= 0x800 && IsScalar(hi * 0x1000 + mid * 0x40 + lo)
    ensures DecodeFirst([0xE0 + hi, 0x80 + mid, 0x80 + lo] + rest) == Some((hi * 0x1000 + mid * 0x40 + lo, 3))
  {
    var b: Data := [0xE0 + hi, 0x80 + mid, 0x80 + lo] + rest;
    assert b[0] == 0xE0 + hi && b[1] == 0x80 + mid && b[2] == 0x80 + lo;
  }

  lemma FourBytes(n: nat, rest: Data)
    requires 0x10000 <= n < 0x110000
    ensures DecodeFirst([0xF0 + n / 0x40000, 0x80 + n / 0x1000 % 0x40, 0x80 + n / 0x40 % 0x40, 0x80 + n % 0x40] + rest)
            == Some((n, 4))
  {
    var top, hi, mid, lo := n / 0x40000, n / 0x1000 % 0x40, n / 0x40 % 0x40, n % 0x40;
    assert n == top * 0x40000 + hi * 0x1000 + mid * 0x40 + lo by { SixBitDigits(n); }
    FourByteSequence(top, hi, mid, lo, rest);
  }

  lemma FourByteSequence(top: nat, hi: nat, mid: nat, lo: nat, rest: Data)
    requires top < 5 && hi < 0x40 && mid < 0x40 && lo < 0x40
    requires 0x10000 <= top * 0x40000 + hi * 0x1000 + mid * 0x40 + lo < 0x110000
    ensures DecodeFirst([0xF0 + top, 0x80 + hi, 0x80 + mid, 0x80 + lo] + rest)
            == Some((top * 0x40000 + hi * 0x1000 + mid * 0x40 + lo, 4))
  {
    var b: Data := [0xF0 + top, 0x80 + hi, 0x80 + mid, 0x80 + lo] + rest;
    assert b[0] == 0xF0 + top && b[1] == 0x80 + hi && b[2] == 0x80 + mid && b[3] == 0x80 + lo;
  }

  // A character cut short decodes to nothing.
  lemma CutCharIsIgnored(c: char, k: nat)
    requires k < |EncodeChar(c)|
    ensures DecodeIgnore(EncodeChar(c)[..k]) == []
  {
    var b := EncodeChar(c)[..k];
    if k >= 1 {
      TailsAreIgnored(b[1..]);
    }
  }

  lemma {:induction false} TailsAreIgnored(b: Data)
    requires |b| <= 2 && forall i :: 0 <= i < |b| ==> IsTail(b[i])
    ensures DecodeIgnore(b) == []
    decreases |b|
  {
    if b != [] {
      TailsAreIgnored(b[1..]);
    }
  }

  // --- the cut ---------------------------------------------------------------------------------

  // How many leading characters fit in `k` bytes.
  function Fit(s: string, k: nat): nat {
    if s == [] || |EncodeChar(s[0])| > k then 0 else 1 + Fit(s[1..], k - |EncodeChar(s[0])|)
  }

  lemma {:induction false} CutDecodesToWhatFits(s: string, k: nat)
    requires k <= |Encode(s)|
    ensures Fit(s, k) <= |s| && DecodeIgnore(Encode(s)[..k]) == s[..Fit(s, k)]
    decreases |s|
  {
    if s != [] {
      var first, rest := EncodeChar(s[0]), Encode(s[1..]);
      if |first| > k {
        assert Encode(s)[..k] == first[..k];
        CutCharIsIgnored(s[0], k);
      } else {
        var left := rest[..k - |first|];
        assert Encode(s)[..k] == first + left;
        FirstOfEncoded(s[0], left);
        assert (first + left)[|first|..] == left;
        CutDecodesToWhatFits(s[1..], k - |first|);
      }
    }
  }

  // A prefix of the text fits exactly when it is no longer than what `Fit` counts, and
  // what is lost is less than one character.
  lemma {:induction false} FitIsTheMost(s: string, k: nat, p: nat)
    requires p <= |s|
    ensures |Encode(s[..p])| <= k <==> p <= Fit(s, k)
    decreases |s|
  {
    if s != [] && p > 0 {
      assert s[..p][1..] == s[1..][..p - 1];
      var first := |EncodeChar(s[0])|;
      if first <= k {
        FitIsTheMost(s[1..], k - first, p - 1);
      }
    }
  }

  lemma {:induction false} LessThanOneCharacterIsLost(s: string, k: nat)
    requires k < |Encode(s)|
    ensures Fit(s, k) < |s|
    ensures |Encode(s[..Fit(s, k)])| <= k < |Encode(s[..Fit(s, k)])| + |EncodeChar(s[Fit(s, k)])|
    decreases |s|
  {
    var first := |EncodeChar(s[0])|;
    if first <= k {
      LessThanOneCharacterIsLost(s[1..], k - first);
      var p := Fit(s[1..], k - first);
      assert s[..p + 1][1..] == s[1..][..p];
    }
  }

  // --- the cap -----------------------------------------------------------------------------------

  datatype CappedResult = CappedResult(content: string, truncated: bool, originalBytes: nat)

  function Marker(maxBytes: nat, original: nat, hint: string): string {
    "\n[truncated: showing the first " + Decimal(maxBytes) + " bytes of " + Decimal(original) + "." + hint + "]"
  }

  function CapToolResult(content: string, maxBytes: nat, hint: string): CappedResult {
    var raw := Encode(content);
    if |raw| <= maxBytes then CappedResult(content, false, |raw|)
    else CappedResult(DecodeIgnore(raw[..maxBytes]) + Marker(maxBytes, |raw|, hint), true, |raw|)
  }

  // The cut is the best one: content within the cap comes back unchanged, and content
  // over it keeps its longest prefix whose encoding fits, losing at most three bytes of
  // the cap, followed by the marker.
  lemma CapIsTheBestCut(content: string, maxBytes: nat, hint: string)
    ensures var r := CapToolResult(content, maxBytes, hint);
            && r.truncated == (|Encode(content)| > maxBytes)
            && (!r.truncated ==> r.content == content)
            && (r.truncated ==>
                  exists p: nat ::
                    && p < |content|
                    && r.content
                       == content[..p] + ("\n[truncated: showing the first " + Decimal(maxBytes) + " bytes of "
                                          + Decimal(|Encode(content)|) + "." + hint + "]")
                    && maxBytes - 3 <= |Encode(content[..p])| <= maxBytes
                    && forall q: nat :: p < q <= |content| ==> |Encode(content[..q])| > maxBytes)
  {
    if |Encode(content)| > maxBytes {
      var p := Fit(content, maxBytes);
      CutDecodesToWhatFits(content, maxBytes);
      LessThanOneCharacterIsLost(content, maxBytes);
      forall q: nat | p < q <= |content|
        ensures |Encode(content[..q])| > maxBytes
      {
        FitIsTheMost(content, maxBytes, q);
      }
    }
  }

  // Encoding loses nothing: decoding an uncut encoding gives the text back.
  lemma EncodingRoundTrips(s: string)
    ensures DecodeIgnore(Encode(s)) == s
  {
    CutDecodesToWhatFits(s, |Encode(s)|);
    FitIsTheMost(s, |Encode(s)|, |s|);
    assert Encode(s)[..|Encode(s)|] == Encode(s) && s[..|s|] == s;
  }
}

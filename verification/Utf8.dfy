/** UTF-8 (section 3 of RFC 3629), strict decoding, and the error-ignoring decoding used for truncation. */
module Utf8 {

  type Byte = b: int | 0 <= b < 256

  datatype Option<+T> = None | Some(value: T)

  function EncodeChar(c: char): (r: seq<Byte>)
    ensures 1 <= |r| <= 4
  {
    var n := c as int;
    if n < 0x80 then [n]
    else if n < 0x800 then [0xC0 + n / 64, 0x80 + n % 64]
    else if n < 0x1_0000 then [0xE0 + n / 4096, 0x80 + n / 64 % 64, 0x80 + n % 64]
    else [0xF0 + n / 262144, 0x80 + n / 4096 % 64, 0x80 + n / 64 % 64, 0x80 + n % 64]
  }

  function Encode(s: string): seq<Byte>
  {
    if s == "" then [] else EncodeChar(s[0]) + Encode(s[1..])
  }

  predicate Continuation(b: Byte) { 0x80 <= b < 0xC0 }

  function Joined(high: nat, low: Byte): nat
    requires Continuation(low)
  {
    high * 64 + (low - 0x80)
  }

  /** The well-formed character at the head of `b`, with the number of bytes it takes. */
  function DecodeFirst(b: seq<Byte>): (r: Option<(char, nat)>)
    ensures r.Some? ==> 1 <= r.value.1 <= |b|
  {
    if |b| == 0 then None
    else if b[0] < 0x80 then Some((b[0] as char, 1))
    else if 0xC2 <= b[0] < 0xE0 then
      if |b| >= 2 && Continuation(b[1]) then Some((Joined(b[0] - 0xC0, b[1]) as char, 2)) else None
    else if 0xE0 <= b[0] < 0xF0 then
      if |b| >= 3 && Continuation(b[1]) && Continuation(b[2]) then
        var n := Joined(Joined(b[0] - 0xE0, b[1]), b[2]);
        if n < 0x800 || 0xD800 <= n < 0xE000 then None else Some((n as char, 3))
      else None
    else if 0xF0 <= b[0] < 0xF5 then
      if |b| >= 4 && Continuation(b[1]) && Continuation(b[2]) && Continuation(b[3]) then
        var n := Joined(Joined(Joined(b[0] - 0xF0, b[1]), b[2]), b[3]);
        if n < 0x1_0000 || n >= 0x11_0000 then None else Some((n as char, 4))
      else None
    else None
  }

  /** `bytes.decode("utf-8")`: the first malformed sequence is an error. */
  function Decode(b: seq<Byte>): Option<string>
  {
    if b == [] then Some("")
    else match DecodeFirst(b)
      case None => None
      case Some((c, n)) =>
        match Decode(b[n..])
        case None => None
        case Some(s) => Some([c] + s)
  }

  /** `bytes.decode("utf-8", errors="ignore")`: bytes that start no well-formed character are dropped. */
  function DecodeIgnoring(b: seq<Byte>): string
  {
    if b == [] then ""
    else match DecodeFirst(b)
      case None => DecodeIgnoring(b[1..])
      case Some((c, n)) => [c] + DecodeIgnoring(b[n..])
  }

  /** The parts of a code point, six bits at a time. */
  lemma Sextets(n: nat)
    ensures n == Joined(n / 64, 0x80 + n % 64)
    ensures n / 4096 == n / 64 / 64 && n / 262144 == n / 64 / 64 / 64
    ensures n / 64 == Joined(n / 4096, 0x80 + n / 64 % 64)
    ensures n / 4096 == Joined(n / 262144, 0x80 + n / 4096 % 64)
  {
  }

  lemma DecodeFirstOfChar(c: char, rest: seq<Byte>)
    ensures DecodeFirst(EncodeChar(c) + rest) == Some((c, |EncodeChar(c)|))
  {
    hide Joined;
    var n := c as int;
    Sextets(n);
    var b := EncodeChar(c) + rest;
    if n >= 0x1_0000 {
      assert b[0] == 0xF0 + n / 262144 && b[1] == 0x80 + n / 4096 % 64 && b[2] == 0x80 + n / 64 % 64
        && b[3] == 0x80 + n % 64;
    } else if n >= 0x800 {
      assert b[0] == 0xE0 + n / 4096 && b[1] == 0x80 + n / 64 % 64 && b[2] == 0x80 + n % 64;
    } else if n >= 0x80 {
      assert b[0] == 0xC0 + n / 64 && b[1] == 0x80 + n % 64;
    }
  }

  /** Strict decoding undoes encoding. */
  lemma {:induction false} DecodeEncode(s: string)
    ensures Decode(Encode(s)) == Some(s)
  {
    if s != "" {
      DecodeFirstOfChar(s[0], Encode(s[1..]));
      assert Encode(s)[|EncodeChar(s[0])|..] == Encode(s[1..]);
      DecodeEncode(s[1..]);
      assert s == [s[0]] + s[1..];
    }
  }

  lemma Unjoined(high: nat, low: Byte)
    requires Continuation(low)
    ensures Joined(high, low) / 64 == high && 0x80 + Joined(high, low) % 64 == low
  {
  }

  lemma FirstIsEncoded(b: seq<Byte>)
    requires DecodeFirst(b).Some?
    ensures var (c, n) := DecodeFirst(b).value; EncodeChar(c) == b[..n]
  {
    var (c, n) := DecodeFirst(b).value;
    Sextets(c as int);
    if n == 2 {
      Unjoined(b[0] - 0xC0, b[1]);
    } else if n == 3 {
      var high := Joined(b[0] - 0xE0, b[1]);
      Unjoined(b[0] - 0xE0, b[1]);
      Unjoined(high, b[2]);
    } else if n == 4 {
      var high := Joined(b[0] - 0xF0, b[1]);
      Unjoined(b[0] - 0xF0, b[1]);
      Unjoined(high, b[2]);
      Unjoined(Joined(high, b[2]), b[3]);
    }
    hide Joined;
  }

  lemma {:induction false} EncodeDecode(b: seq<Byte>)
    requires Decode(b).Some?
    ensures Encode(Decode(b).value) == b
  {
    hide DecodeFirst, EncodeChar;
    if b != [] {
      FirstIsEncoded(b);
      var (c, n) := DecodeFirst(b).value;
      EncodeDecode(b[n..]);
      var rest := Decode(b[n..]).value;
      assert ([c] + rest)[1..] == rest;
      assert b == b[..n] + b[n..];
    }
  }

  /** Strict decoding accepts exactly the encodings of strings, and yields the string encoded. */
  lemma DecodedExactly(b: seq<Byte>, s: string)
    ensures Decode(b) == Some(s) <==> b == Encode(s)
  {
    hide Decode, Encode;
    DecodeEncode(s);
    if Decode(b).Some? { EncodeDecode(b); }
  }

  lemma EncodeInjective(s: string, t: string)
    requires Encode(s) == Encode(t)
    ensures s == t
  {
    DecodeEncode(s);
    DecodeEncode(t);
  }

  lemma BytesAssociate(a: seq<Byte>, b: seq<Byte>, c: seq<Byte>)
    ensures (a + b) + c == a + (b + c)
  {
  }

  lemma {:induction false} EncodeAppend(s: string, t: string)
    ensures Encode(s + t) == Encode(s) + Encode(t)
  {
    hide EncodeChar;
    if s == "" {
      assert s + t == t;
    } else {
      EncodeAppend(s[1..], t);
      assert (s + t)[1..] == s[1..] + t && (s + t)[0] == s[0];
      BytesAssociate(EncodeChar(s[0]), Encode(s[1..]), Encode(t));
    }
  }

  /** ASCII text is encoded one byte a character. */
  lemma {:induction false} EncodeAscii(s: string)
    requires forall i :: 0 <= i < |s| ==> s[i] as int < 0x80
    ensures |Encode(s)| == |s|
    ensures forall i :: 0 <= i < |s| ==> Encode(s)[i] == s[i] as int
  {
    if s != "" {
      EncodeAscii(s[1..]);
      forall i | 0 <= i < |s| ensures Encode(s)[i] == s[i] as int {
        if i > 0 { assert s[i] == s[1..][i - 1]; }
      }
    }
  }

  // ---- truncation ----

  /** `_truncate_utf8`: the text kept and whether any was cut off. */
  function Truncate(s: string, maximum: nat): (string, bool)
  {
    var encoded := Encode(s);
    if |encoded| <= maximum then (s, false) else (DecodeIgnoring(encoded[..maximum]), true)
  }

  lemma IgnoreIncompleteChar(c: char, k: nat)
    requires k < |EncodeChar(c)|
    ensures DecodeIgnoring(EncodeChar(c)[..k]) == ""
  {
    var p := EncodeChar(c)[..k];
    if k >= 1 {
      assert DecodeFirst(p) == None;
      IgnoreContinuations(p[1..]);
    }
  }

  lemma {:induction false} IgnoreContinuations(p: seq<Byte>)
    requires forall i :: 0 <= i < |p| ==> Continuation(p[i])
    ensures DecodeIgnoring(p) == ""
  {
    if p != [] { IgnoreContinuations(p[1..]); }
  }

  /** Number of leading characters whose encodings fit, whole, in `maximum` bytes. */
  function FitCount(s: string, maximum: nat): nat
  {
    if s == "" || |EncodeChar(s[0])| > maximum then 0 else 1 + FitCount(s[1..], maximum - |EncodeChar(s[0])|)
  }

  lemma {:induction false} DecodeIgnoringPrefix(s: string, maximum: nat)
    requires maximum <= |Encode(s)|
    ensures FitCount(s, maximum) <= |s|
    ensures DecodeIgnoring(Encode(s)[..maximum]) == s[..FitCount(s, maximum)]
  {
    if s != "" {
      var head := EncodeChar(s[0]);
      var cut := Encode(s)[..maximum];
      if |head| > maximum {
        assert cut == head[..maximum];
        IgnoreIncompleteChar(s[0], maximum);
      } else {
        var rest := Encode(s[1..])[..maximum - |head|];
        assert cut == head + rest;
        DecodeFirstOfChar(s[0], rest);
        assert cut[|head|..] == rest;
        DecodeIgnoringPrefix(s[1..], maximum - |head|);
        var k := FitCount(s, maximum);
        assert s[..k] == [s[0]] + s[1..][..k - 1];
      }
    }
  }

  lemma {:induction false} FitCountIsLargest(s: string, maximum: nat, k: nat)
    requires k <= |s|
    ensures |Encode(s[..k])| <= maximum <==> k <= FitCount(s, maximum)
  {
    if k > 0 {
      assert s[..k][0] == s[0] && s[..k][1..] == s[1..][..k - 1];
      assert Encode(s[..k]) == EncodeChar(s[0]) + Encode(s[1..][..k - 1]);
      if |EncodeChar(s[0])| <= maximum {
        FitCountIsLargest(s[1..], maximum - |EncodeChar(s[0])|, k - 1);
      }
    }
  }

  /**
   The kept text is the longest prefix of whole characters within the limit, and truncation is reported
   exactly when the whole text does not fit.
   */
  lemma TruncateKeepsLongestPrefix(s: string, maximum: nat)
    ensures var (kept, cut) := Truncate(s, maximum);
            && kept <= s
            && |Encode(kept)| <= maximum
            && (forall k :: |kept| < k <= |s| ==> |Encode(s[..k])| > maximum)
            && (cut <==> |Encode(s)| > maximum)
            && (cut <==> kept != s)
  {
    var (kept, cut) := Truncate(s, maximum);
    if cut {
      DecodeIgnoringPrefix(s, maximum);
      FitCountIsLargest(s, maximum, |kept|);
      forall k | |kept| < k <= |s| ensures |Encode(s[..k])| > maximum {
        FitCountIsLargest(s, maximum, k);
      }
    }
  }
}

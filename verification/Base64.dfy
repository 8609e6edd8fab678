/** Base64 (section 4 of RFC 4648) with the strict decoding of `base64.b64decode(..., validate=True)`. */
module Base64 {
  import opened Utf8

  type Sextet = v: int | 0 <= v < 64

  function Symbol(v: Sextet): char
  {
    if v < 26 then ('A' as int + v) as char
    else if v < 52 then ('a' as int + (v - 26)) as char
    else if v < 62 then ('0' as int + (v - 52)) as char
    else if v == 62 then '+'
    else '/'
  }

  function SymbolValue(c: char): Option<Sextet>
  {
    if 'A' <= c <= 'Z' then Some(c as int - 'A' as int)
    else if 'a' <= c <= 'z' then Some(c as int - 'a' as int + 26)
    else if '0' <= c <= '9' then Some(c as int - '0' as int + 52)
    else if c == '+' then Some(62)
    else if c == '/' then Some(63)
    else None
  }

  function Group(b0: Byte, b1: Byte, b2: Byte): (r: string)
    ensures |r| == 4
  {
    [Symbol(b0 / 4), Symbol(b0 % 4 * 16 + b1 / 16), Symbol(b1 % 16 * 4 + b2 / 64), Symbol(b2 % 64)]
  }

  function Encode(b: seq<Byte>): string
  {
    if b == [] then ""
    else if |b| == 1 then Group(b[0], 0, 0)[..2] + "=="
    else if |b| == 2 then Group(b[0], b[1], 0)[..3] + "="
    else Group(b[0], b[1], b[2]) + Encode(b[3..])
  }

  function FirstByte(v0: Sextet, v1: Sextet): Byte { v0 * 4 + v1 / 16 }

  function SecondByte(v1: Sextet, v2: Sextet): Byte { v1 % 16 * 16 + v2 / 4 }

  function ThirdByte(v2: Sextet, v3: Sextet): Byte { v2 % 4 * 64 + v3 }

  function Decode(s: string): Option<seq<Byte>>
  {
    if s == "" then Some([])
    else if |s| < 4 then None
    else
      var v0, v1, v2, v3 := SymbolValue(s[0]), SymbolValue(s[1]), SymbolValue(s[2]), SymbolValue(s[3]);
      if v0.None? || v1.None? then None
      else
        var first := FirstByte(v0.value, v1.value);
        if |s| == 4 && s[2] == '=' && s[3] == '=' then Some([first])
        else if v2.None? then None
        else
          var second := SecondByte(v1.value, v2.value);
          if |s| == 4 && s[3] == '=' then Some([first, second])
          else if v3.None? then None
          else match Decode(s[4..])
            case None => None
            case Some(rest) => Some([first, second, ThirdByte(v2.value, v3.value)] + rest)
  }

  lemma SymbolRoundTrip(v: Sextet)
    ensures SymbolValue(Symbol(v)) == Some(v)
    ensures Symbol(v) as int < 0x7F && Symbol(v) as int > 0x20 && Symbol(v) != '=' && Symbol(v) != '"'
            && Symbol(v) != '\\'
  {
  }

  lemma GroupRoundTrip(b0: Byte, b1: Byte, b2: Byte)
    ensures var g := Group(b0, b1, b2);
            && (forall i :: 0 <= i < 4 ==> SymbolValue(g[i]).Some? && g[i] != '=')
            && FirstByte(SymbolValue(g[0]).value, SymbolValue(g[1]).value) == b0
            && SecondByte(SymbolValue(g[1]).value, SymbolValue(g[2]).value) == b1
            && ThirdByte(SymbolValue(g[2]).value, SymbolValue(g[3]).value) == b2
  {
    SymbolRoundTrip(b0 / 4);
    SymbolRoundTrip(b0 % 4 * 16 + b1 / 16);
    SymbolRoundTrip(b1 % 16 * 4 + b2 / 64);
    SymbolRoundTrip(b2 % 64);
    assert (b0 % 4 * 16 + b1 / 16) / 16 == b0 % 4;
    assert (b0 % 4 * 16 + b1 / 16) % 16 == b1 / 16;
    assert (b1 % 16 * 4 + b2 / 64) / 4 == b1 % 16;
    assert (b1 % 16 * 4 + b2 / 64) % 4 == b2 / 64;
  }

  lemma {:induction false} DecodeEncodeShort(b: seq<Byte>)
    requires |b| <= 2
    ensures Decode(Encode(b)) == Some(b)
  {
    hide Symbol, SymbolValue, Group, FirstByte, SecondByte, ThirdByte;
    var s := Encode(b);
    if |b| == 1 {
      var g := Group(b[0], 0, 0);
      GroupRoundTrip(b[0], 0, 0);
      assert s == [g[0], g[1], '=', '='];
      assert b == [b[0]];
    } else if |b| == 2 {
      var g := Group(b[0], b[1], 0);
      GroupRoundTrip(b[0], b[1], 0);
      assert s == [g[0], g[1], g[2], '='];
      assert b == [b[0], b[1]];
    }
  }

  /** Decoding undoes encoding. */
  lemma {:induction false} DecodeEncode(b: seq<Byte>)
    ensures Decode(Encode(b)) == Some(b)
  {
    hide Symbol, SymbolValue, Group, FirstByte, SecondByte, ThirdByte;
    if |b| <= 2 {
      DecodeEncodeShort(b);
    } else {
      GroupRoundTrip(b[0], b[1], b[2]);
      var s := Encode(b);
      assert s[4..] == Encode(b[3..]);
      DecodeEncode(b[3..]);
      assert b == [b[0], b[1], b[2]] + b[3..];
    }
  }

  /** Symbols of the alphabet, in groups of four, the last one or two of which may be padding. */
  predicate Padded(s: string, padding: nat)
  {
    && |s| % 4 == 0 && padding <= 2 && padding <= |s|
    && (forall i :: 0 <= i < |s| - padding ==> SymbolValue(s[i]).Some?)
    && (forall i :: |s| - padding <= i < |s| ==> s[i] == '=')
  }

  /** Strict decoding accepts exactly the texts of that shape, and each group of four yields three bytes but for one a
      padding. */
  lemma {:induction false} DecodedExactly(s: string)
    ensures Decode(s).Some? <==> Padded(s, 0) || Padded(s, 1) || Padded(s, 2)
    ensures forall padding :: 0 <= padding <= 2 && Padded(s, padding) ==> |Decode(s).value| == |s| / 4 * 3 - padding
  {
    hide FirstByte, SecondByte, ThirdByte;
    assert SymbolValue('=').None?;
    if |s| >= 4 {
      var rest := s[4..];
      DecodedExactly(rest);
      if |s| > 4 {
        forall padding: nat | padding <= 2
          ensures Padded(s, padding) <==>
                  (forall i :: 0 <= i < 4 ==> SymbolValue(s[i]).Some?) && Padded(rest, padding)
        {
          PaddedTail(s, padding);
        }
      }
    }
  }

  lemma PaddedTail(s: string, padding: nat)
    requires |s| > 4 && padding <= 2
    ensures Padded(s, padding) <==> (forall i :: 0 <= i < 4 ==> SymbolValue(s[i]).Some?) && Padded(s[4..], padding)
  {
    hide SymbolValue;
    var rest := s[4..];
    assert forall i :: 4 <= i < |s| ==> s[i] == rest[i - 4];
    if |s| < 8 { assert |s| % 4 != 0 && |rest| % 4 != 0; }
    if Padded(s, padding) {
      forall i | 0 <= i < |rest| - padding ensures SymbolValue(rest[i]).Some? { assert rest[i] == s[i + 4]; }
      forall i | |rest| - padding <= i < |rest| ensures rest[i] == '=' { assert rest[i] == s[i + 4]; }
    }
  }

  /** Length of the text, and that no character of it needs escaping inside JSON. */
  lemma {:induction false} EncodeShape(b: seq<Byte>)
    ensures |Encode(b)| == (|b| + 2) / 3 * 4
    ensures forall i :: 0 <= i < |Encode(b)| ==>
            0x20 < Encode(b)[i] as int < 0x7F && Encode(b)[i] != '"' && Encode(b)[i] != '\\'
  {
    if |b| > 2 {
      EncodeShape(b[3..]);
      assert (|b| + 2) / 3 == 1 + (|b| - 3 + 2) / 3;
      assert forall i :: 4 <= i < |Encode(b)| ==> Encode(b)[i] == Encode(b[3..])[i - 4];
    }
  }
}

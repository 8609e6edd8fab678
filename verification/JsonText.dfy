/** The printed text of a JSON value: its characters, its encoded size, and what `ensure_ascii` changes. */
module JsonText {
  import opened Utf8
  import opened Json

  // ---- characters ----

  predicate Plain(s: string)
  {
    forall i :: 0 <= i < |s| ==> 0x20 <= s[i] as int <= 0x7E
  }

  lemma EscapeCharPlain(c: char)
    ensures Plain(EscapeChar(c, true))
  {
  }

  lemma {:induction false} EscapePlain(s: string)
    ensures Plain(Escape(s, true))
  {
    hide EscapeChar;
    if s != "" {
      EscapeCharPlain(s[0]);
      EscapePlain(s[1..]);
    }
  }

  lemma {:induction false} DigitsPlain(n: nat)
    ensures Plain(Digits(n))
  {
    if n >= 10 { DigitsPlain(n / 10); }
  }

  /** With `ensure_ascii` the text holds no control character and nothing beyond '~'; in particular no newline. */
  lemma {:induction false} DumpsPlain(v: Json)
    ensures Plain(Dumps(v, true))
    decreases v, 1, 0
  {
    hide SortedKeys, DumpFields, DumpTail, Digits, Escape;
    match v
    case Num(n) => DigitsPlain(if n < 0 then -n else n);
    case Str(s) => EscapePlain(s);
    case Arr(items) =>
      if items != [] {
        DumpsPlain(items[0]);
        DumpTailPlain(v, 1);
      }
    case Obj(fields) =>
      if fields != map[] {
        var keys := SortedKeys(fields.Keys);
        assert keys[0] in fields.Keys;
        DumpsPlain(fields[keys[0]]);
        DumpFieldsPlain(v, keys[1..]);
        ObjectPlain(keys[0], Dumps(fields[keys[0]], true), DumpFields(v, keys[1..], true));
      }
    case _ =>
  }

  lemma ObjectPlain(key: string, value: string, tail: string)
    requires Plain(value) && Plain(tail)
    ensures Plain("{" + Quoted(key, true) + ":" + value + tail + "}")
  {
    EscapePlain(key);
  }

  lemma {:induction false} DumpTailPlain(v: Json, i: nat)
    requires v.Arr? && i <= |v.items|
    ensures Plain(DumpTail(v, i, true))
    decreases v, 0, |v.items| - i
  {
    if i < |v.items| {
      DumpsPlain(v.items[i]);
      DumpTailPlain(v, i + 1);
    }
  }

  lemma {:induction false} DumpFieldsPlain(v: Json, keys: seq<string>)
    requires v.Obj? && forall k :: k in keys ==> k in v.fields
    ensures Plain(DumpFields(v, keys, true))
    decreases v, 0, |keys|
  {
    if keys != [] {
      EscapePlain(keys[0]);
      DumpsPlain(v.fields[keys[0]]);
      DumpFieldsPlain(v, keys[1..]);
    }
  }

  // ---- when ensure_ascii makes no difference ----

  predicate AsciiString(s: string)
  {
    forall i :: 0 <= i < |s| ==> s[i] as int <= 0x7E
  }

  /** No string or key inside has a character beyond '~'. */
  predicate AsciiOnly(v: Json)
  {
    match v
    case Str(s) => AsciiString(s)
    case Arr(items) => forall x :: x in items ==> AsciiOnly(x)
    case Obj(fields) => forall k :: k in fields ==> AsciiString(k) && AsciiOnly(fields[k])
    case _ => true
  }

  lemma {:induction false} EscapeAgrees(s: string)
    requires AsciiString(s)
    ensures Escape(s, true) == Escape(s, false)
  {
    if s != "" { EscapeAgrees(s[1..]); }
  }

  lemma {:induction false} DumpsAgree(v: Json)
    requires AsciiOnly(v)
    ensures Dumps(v, true) == Dumps(v, false)
    decreases v, 1, 0
  {
    match v
    case Str(s) => EscapeAgrees(s);
    case Arr(items) =>
      if items != [] {
        DumpsAgree(items[0]);
        DumpTailAgrees(v, 1);
      }
    case Obj(fields) =>
      if fields != map[] {
        var keys := SortedKeys(fields.Keys);
        assert keys[0] in fields.Keys;
        EscapeAgrees(keys[0]);
        DumpsAgree(fields[keys[0]]);
        DumpFieldsAgree(v, keys[1..]);
      }
    case _ =>
  }

  lemma {:induction false} DumpTailAgrees(v: Json, i: nat)
    requires v.Arr? && AsciiOnly(v) && i <= |v.items|
    ensures DumpTail(v, i, true) == DumpTail(v, i, false)
    decreases v, 0, |v.items| - i
  {
    if i < |v.items| {
      DumpsAgree(v.items[i]);
      DumpTailAgrees(v, i + 1);
    }
  }

  lemma {:induction false} DumpFieldsAgree(v: Json, keys: seq<string>)
    requires v.Obj? && AsciiOnly(v) && forall k :: k in keys ==> k in v.fields
    ensures DumpFields(v, keys, true) == DumpFields(v, keys, false)
    decreases v, 0, |keys|
  {
    if keys != [] {
      EscapeAgrees(keys[0]);
      DumpsAgree(v.fields[keys[0]]);
      DumpFieldsAgree(v, keys[1..]);
    }
  }

  lemma {:induction false} EscapeKeepsBeyondAscii(s: string)
    requires AsciiString(Escape(s, false))
    ensures AsciiString(s)
  {
    if s != "" {
      assert forall i :: 0 <= i < |Escape(s[1..], false)| ==>
          Escape(s[1..], false)[i] == Escape(s, false)[|EscapeChar(s[0], false)| + i];
      EscapeKeepsBeyondAscii(s[1..]);
      assert EscapeChar(s[0], false)[0] == Escape(s, false)[0];
      forall i | 0 <= i < |s| ensures s[i] as int <= 0x7E {
        if i > 0 { assert s[i] == s[1..][i - 1]; }
      }
    }
  }

  lemma AsciiParts(a: string, b: string)
    ensures AsciiString(a + b) <==> AsciiString(a) && AsciiString(b)
  {
    if AsciiString(a + b) {
      assert forall i :: 0 <= i < |a| ==> a[i] == (a + b)[i];
      assert forall i :: 0 <= i < |b| ==> b[i] == (a + b)[|a| + i];
    }
  }

  lemma {:induction false} DumpsKeepsBeyondAscii(v: Json)
    requires AsciiString(Dumps(v, false))
    ensures AsciiOnly(v)
    decreases v, 1, 0
  {
    hide SortedKeys, DumpFields, DumpTail, Digits, Escape, AsciiString;
    match v
    case Str(s) => QuotedKeepsBeyondAscii(s);
    case Arr(items) =>
      if items != [] {
        AsciiParts("[" + Dumps(items[0], false) + DumpTail(v, 1, false), "]");
        AsciiParts("[" + Dumps(items[0], false), DumpTail(v, 1, false));
        AsciiParts("[", Dumps(items[0], false));
        DumpsKeepsBeyondAscii(items[0]);
        DumpTailKeepsBeyondAscii(v, 1);
        assert forall x :: x in items ==> x == items[0] || x in items[1..];
      }
    case Obj(fields) =>
      if fields != map[] {
        var keys := SortedKeys(fields.Keys);
        assert keys[0] in fields.Keys;
        var k, x, tail := Quoted(keys[0], false), Dumps(fields[keys[0]], false), DumpFields(v, keys[1..], false);
        AsciiParts("{" + k + ":" + x + tail, "}");
        AsciiParts("{" + k + ":" + x, tail);
        AsciiParts("{" + k + ":", x);
        AsciiParts("{" + k, ":");
        AsciiParts("{", k);
        QuotedKeepsBeyondAscii(keys[0]);
        DumpsKeepsBeyondAscii(fields[keys[0]]);
        DumpFieldsKeepsBeyondAscii(v, keys[1..]);
        forall j | j in fields ensures AsciiString(j) && AsciiOnly(fields[j]) {
          assert j in keys;
          assert j == keys[0] || j in keys[1..];
        }
      }
    case _ =>
  }

  lemma QuotedKeepsBeyondAscii(s: string)
    requires AsciiString(Quoted(s, false))
    ensures AsciiString(s)
  {
    AsciiParts("\"" + Escape(s, false), "\"");
    AsciiParts("\"", Escape(s, false));
    EscapeKeepsBeyondAscii(s);
  }

  lemma {:induction false} DumpTailKeepsBeyondAscii(v: Json, i: nat)
    requires v.Arr? && i <= |v.items| && AsciiString(DumpTail(v, i, false))
    ensures forall x :: x in v.items[i..] ==> AsciiOnly(x)
    decreases v, 0, |v.items| - i
  {
    if i < |v.items| {
      AsciiParts("," + Dumps(v.items[i], false), DumpTail(v, i + 1, false));
      AsciiParts(",", Dumps(v.items[i], false));
      DumpsKeepsBeyondAscii(v.items[i]);
      DumpTailKeepsBeyondAscii(v, i + 1);
      assert v.items[i..] == [v.items[i]] + v.items[i + 1..];
    }
  }

  lemma {:induction false} DumpFieldsKeepsBeyondAscii(v: Json, keys: seq<string>)
    requires v.Obj? && (forall k :: k in keys ==> k in v.fields) && AsciiString(DumpFields(v, keys, false))
    ensures forall k :: k in keys ==> AsciiString(k) && AsciiOnly(v.fields[k])
    decreases v, 0, |keys|
  {
    hide AsciiString, Quoted, AsciiOnly;
    if keys != [] {
      var k, x, tail := Quoted(keys[0], false), Dumps(v.fields[keys[0]], false), DumpFields(v, keys[1..], false);
      AsciiParts("," + k + ":" + x, tail);
      AsciiParts("," + k + ":", x);
      AsciiParts("," + k, ":");
      AsciiParts(",", k);
      QuotedKeepsBeyondAscii(keys[0]);
      DumpsKeepsBeyondAscii(v.fields[keys[0]]);
      DumpFieldsKeepsBeyondAscii(v, keys[1..]);
      assert forall j :: j in keys ==> j == keys[0] || j in keys[1..];
    }
  }

  /** `ensure_ascii` makes no difference exactly to the values without a character beyond '~'. */
  lemma EnsureAsciiIrrelevant(v: Json)
    ensures Dumps(v, true) == Dumps(v, false) <==> AsciiOnly(v)
  {
    if AsciiOnly(v) {
      DumpsAgree(v);
    } else if Dumps(v, true) == Dumps(v, false) {
      DumpsPlain(v);
      DumpsKeepsBeyondAscii(v);
    }
  }

  // ---- encoded size ----

  /** Bytes the printed value takes. */
  function Size(v: Json, ascii: bool): nat
  {
    |Utf8.Encode(Dumps(v, ascii))|
  }

  function TextSize(s: string, ascii: bool): nat
  {
    |Utf8.Encode(Quoted(s, ascii))|
  }

  /** Bytes of one member, with its colon and one comma. */
  function MemberSize(k: string, v: Json, ascii: bool): nat
  {
    TextSize(k, ascii) + 2 + Size(v, ascii)
  }

  function MembersSize(fields: map<string, Json>, keys: seq<string>, ascii: bool): nat
    requires forall k :: k in keys ==> k in fields
  {
    if keys == [] then 0
    else MemberSize(keys[0], fields[keys[0]], ascii) + MembersSize(fields, keys[1..], ascii)
  }

  /** Bytes of all members of an object. */
  function Weight(fields: map<string, Json>, ascii: bool): nat
  {
    MembersSize(fields, SortedKeys(fields.Keys), ascii)
  }

  lemma {:induction false} DumpFieldsSize(v: Json, keys: seq<string>, ascii: bool)
    requires v.Obj? && forall k :: k in keys ==> k in v.fields
    ensures |Utf8.Encode(DumpFields(v, keys, ascii))| == MembersSize(v.fields, keys, ascii)
  {
    if keys != [] {
      DumpFieldsSize(v, keys[1..], ascii);
      MemberText(",", keys[0], v.fields[keys[0]], DumpFields(v, keys[1..], ascii), ascii);
    }
  }

  lemma {:induction false} MemberText(open: string, k: string, v: Json, tail: string, ascii: bool)
    requires open == "," || open == "{"
    ensures |Utf8.Encode(open + Quoted(k, ascii) + ":" + Dumps(v, ascii) + tail)|
            == MemberSize(k, v, ascii) + |Utf8.Encode(tail)|
  {
    hide Quoted, Dumps;
    var q, x := Quoted(k, ascii), Dumps(v, ascii);
    EncodeAppend(open + q + ":" + x, tail);
    EncodeAppend(open + q + ":", x);
    EncodeAppend(open + q, ":");
    EncodeAppend(open, q);
    EncodeAscii(":");
    EncodeAscii(open);
  }

  /** The size of an object is the sum over its members, in whatever order they are printed. */
  lemma {:induction false} ObjectSize(fields: map<string, Json>, ascii: bool)
    ensures Size(Obj(fields), ascii) == if fields == map[] then 2 else 1 + Weight(fields, ascii)
  {
    var v := Obj(fields);
    if fields == map[] {
      EncodeAscii("{}");
    } else {
      var keys := SortedKeys(fields.Keys);
      assert keys[0] in fields.Keys;
      var tail := DumpFields(v, keys[1..], ascii);
      DumpFieldsSize(v, keys[1..], ascii);
      EncodeAscii("}");
      EncodeAppend(tail, "}");
      MemberText("{", keys[0], fields[keys[0]], tail + "}", ascii);
      assert Dumps(v, ascii) == "{" + Quoted(keys[0], ascii) + ":" + Dumps(fields[keys[0]], ascii) + (tail + "}") by {
        hide Quoted, SortedKeys;
      }
    }
  }

  lemma {:induction false} MembersSizeAppend(fields: map<string, Json>, a: seq<string>, b: seq<string>, ascii: bool)
    requires forall k :: k in a + b ==> k in fields
    ensures forall k :: k in a ==> k in fields
    ensures forall k :: k in b ==> k in fields
    ensures MembersSize(fields, a + b, ascii) == MembersSize(fields, a, ascii) + MembersSize(fields, b, ascii)
  {
    forall k | k in a ensures k in fields { assert k in a + b; }
    forall k | k in b ensures k in fields { assert k in a + b; }
    if a == [] {
      assert a + b == b;
    } else {
      assert (a + b)[1..] == a[1..] + b;
      MembersSizeAppend(fields, a[1..], b, ascii);
    }
  }

  lemma {:induction false} MembersSizeFrame(f: map<string, Json>, g: map<string, Json>, keys: seq<string>, ascii: bool)
    requires forall k :: k in keys ==> k in f && k in g && f[k] == g[k]
    ensures MembersSize(f, keys, ascii) == MembersSize(g, keys, ascii)
  {
    if keys != [] { MembersSizeFrame(f, g, keys[1..], ascii); }
  }

  lemma {:induction false} SortedKeysWithout(keys: set<string>, k: string) returns (i: nat)
    requires k in keys
    ensures var ks := SortedKeys(keys);
            i < |ks| && ks[i] == k && SortedKeys(keys - {k}) == ks[..i] + ks[i + 1..]
  {
    hide SortedKeys;
    var ks := SortedKeys(keys);
    assert k in ks;
    i :| 0 <= i < |ks| && ks[i] == k;
    var rest := ks[..i] + ks[i + 1..];
    forall j | j in rest ensures j in keys - {k} { LessTrichotomy(k, k); }
    SortedKeysUnique(keys - {k}, rest);
  }

  /** Taking one member away takes exactly its bytes away. */
  lemma {:induction false} WeightWithout(fields: map<string, Json>, k: string, ascii: bool)
    requires k in fields
    ensures Weight(fields, ascii) == Weight(fields - {k}, ascii) + MemberSize(k, fields[k], ascii)
  {
    hide SortedKeys, MemberSize;
    var keys := SortedKeys(fields.Keys);
    var i := SortedKeysWithout(fields.Keys, k);
    var a, b := keys[..i], keys[i + 1..];
    assert (fields - {k}).Keys == fields.Keys - {k};
    assert keys == a + ([k] + b);
    assert ([k] + b)[1..] == b;
    assert forall j :: j in SortedKeys((fields - {k}).Keys) ==> j in fields;
    MembersSizeAppend(fields, a, [k] + b, ascii);
    MembersSizeAppend(fields, a, b, ascii);
    MembersSizeFrame(fields, fields - {k}, a + b, ascii);
  }

  /** Replacing one member's value changes the size by the difference of the two values. */
  lemma {:induction false} ReplaceSize(fields: map<string, Json>, k: string, v: Json, ascii: bool)
    requires k in fields
    ensures Size(Obj(fields[k := v]), ascii) + Size(fields[k], ascii) == Size(Obj(fields), ascii) + Size(v, ascii)
  {
    hide Size, Weight, TextSize;
    ObjectSize(fields, ascii);
    ObjectSize(fields[k := v], ascii);
    WeightWithout(fields, k, ascii);
    WeightWithout(fields[k := v], k, ascii);
    assert fields[k := v] - {k} == fields - {k};
  }

  lemma {:induction false} ItemSize(v: Json, i: nat, j: nat, ascii: bool)
    requires v.Arr? && i <= j < |v.items|
    ensures Size(v.items[j], ascii) + 1 <= |Utf8.Encode(DumpTail(v, i, ascii))|
    decreases j - i
  {
    var x, tail := Dumps(v.items[i], ascii), DumpTail(v, i + 1, ascii);
    assert DumpTail(v, i, ascii) == "," + x + tail;
    EncodeAppend("," + x, tail);
    EncodeAppend(",", x);
    EncodeAscii(",");
    if i < j { ItemSize(v, i + 1, j, ascii); }
  }

  /** An item takes at least two bytes less than its array. */
  lemma ItemWithinArray(v: Json, j: nat, ascii: bool)
    requires v.Arr? && j < |v.items|
    ensures Size(v.items[j], ascii) + 2 <= Size(v, ascii)
  {
    hide DumpTail;
    var x, tail := Dumps(v.items[0], ascii), DumpTail(v, 1, ascii);
    assert Dumps(v, ascii) == "[" + x + tail + "]";
    EncodeAppend("[" + x + tail, "]");
    EncodeAppend("[" + x, tail);
    EncodeAppend("[", x);
    EncodeAscii("[");
    EncodeAscii("]");
    if j > 0 { ItemSize(v, 1, j, ascii); }
  }

  // ---- bounds on the ASCII text ----

  lemma EscapeCharSize(c: char, ascii: bool)
    ensures |Utf8.Encode(EscapeChar(c, ascii))| <= 12
  {
    var e := EscapeChar(c, ascii);
    if e == [c] {
      assert Utf8.Encode(e) == EncodeChar(c) + Utf8.Encode(e[1..]);
      assert e[1..] == "";
    } else {
      assert Plain(e);
      EncodeAscii(e);
    }
  }

  lemma {:induction false} EscapeSize(s: string, ascii: bool)
    ensures |Utf8.Encode(Escape(s, ascii))| <= 12 * |s|
  {
    hide EscapeChar;
    if s != "" {
      EscapeSize(s[1..], ascii);
      EscapeCharSize(s[0], ascii);
      EncodeAppend(EscapeChar(s[0], ascii), Escape(s[1..], ascii));
    }
  }

  lemma TextSizeBound(s: string, ascii: bool)
    ensures TextSize(s, ascii) <= 12 * |s| + 2
  {
    hide Escape;
    EscapeSize(s, ascii);
    EncodeAppend("\"" + Escape(s, ascii), "\"");
    EncodeAppend("\"", Escape(s, ascii));
    EncodeAscii("\"");
  }

  /** Text of which no character is escaped. */
  predicate Verbatim(s: string)
  {
    forall i :: 0 <= i < |s| ==> 0x20 <= s[i] as int <= 0x7E && s[i] != '"' && s[i] != '\\'
  }

  lemma {:induction false} EscapeVerbatim(s: string, ascii: bool)
    requires Verbatim(s)
    ensures Escape(s, ascii) == s
  {
    if s != "" { EscapeVerbatim(s[1..], ascii); }
  }

  lemma TextSizeVerbatim(s: string, ascii: bool)
    requires Verbatim(s)
    ensures TextSize(s, ascii) == |s| + 2
  {
    EscapeVerbatim(s, ascii);
    EncodeAscii(Quoted(s, ascii));
  }

  function Pow10(k: nat): nat
  {
    if k == 0 then 1 else 10 * Pow10(k - 1)
  }

  lemma {:induction false} DigitsLength(n: nat, k: nat)
    requires 0 < k && n < Pow10(k)
    ensures |Digits(n)| <= k
  {
    if n >= 10 { DigitsLength(n / 10, k - 1); }
  }

  lemma NumberSize(n: nat, k: nat, ascii: bool)
    requires 0 < k && n < Pow10(k)
    ensures Size(Num(n), ascii) <= k
  {
    DigitsLength(n, k);
    DigitsPlain(n);
    EncodeAscii(Digits(n));
  }

  /** If no member takes more than `bound` bytes, an object of at most `count` members is bounded by their product. */
  lemma {:induction false} ObjectSizeBound(fields: map<string, Json>, count: nat, bound: nat, ascii: bool)
    requires |fields.Keys| <= count
    requires forall k :: k in fields ==> MemberSize(k, fields[k], ascii) <= bound
    ensures Size(Obj(fields), ascii) <= 2 + count * bound
  {
    hide MemberSize, Size, Weight;
    ObjectSize(fields, ascii);
    WeightBound(fields, count, bound, ascii);
  }

  lemma Scaled(a: nat, b: nat, k: nat)
    requires a <= b
    ensures a * k <= b * k
  {
  }

  lemma {:induction false} SortedKeysLength(keys: set<string>)
    ensures |SortedKeys(keys)| == |keys|
  {
    if keys != {} { SortedKeysLength(keys - {LeastKey(keys)}); }
  }

  lemma OneMore(n: nat, k: nat)
    ensures (n + 1) * k == k + n * k
  {
  }

  lemma {:induction false} MembersSizeBound(fields: map<string, Json>, keys: seq<string>, bound: nat, ascii: bool)
    requires forall k :: k in keys ==> k in fields
    requires forall k :: k in fields ==> MemberSize(k, fields[k], ascii) <= bound
    ensures MembersSize(fields, keys, ascii) <= |keys| * bound
  {
    hide MemberSize;
    if keys != [] {
      MembersSizeBound(fields, keys[1..], bound, ascii);
      OneMore(|keys[1..]|, bound);
    }
  }

  lemma TextIsString(s: string, ascii: bool)
    ensures Size(Str(s), ascii) == TextSize(s, ascii)
  {
  }

  /** One member, bounded by the length of its key and the size of its value. */
  lemma MemberBound(k: string, v: Json, cap: nat, ascii: bool)
    requires Size(v, ascii) <= cap
    ensures MemberSize(k, v, ascii) <= 12 * |k| + 4 + cap
  {
    hide Size, TextSize;
    TextSizeBound(k, ascii);
  }

  lemma {:induction false} WeightBound(fields: map<string, Json>, count: nat, bound: nat, ascii: bool)
    requires |fields.Keys| <= count
    requires forall k :: k in fields ==> MemberSize(k, fields[k], ascii) <= bound
    ensures Weight(fields, ascii) <= count * bound
  {
    hide MemberSize, Size, SortedKeys, MembersSize;
    var keys := SortedKeys(fields.Keys);
    SortedKeysLength(fields.Keys);
    MembersSizeBound(fields, keys, bound, ascii);
    Scaled(|keys|, count, bound);
  }

  lemma {:induction false} SingletonSize(x: Json, ascii: bool)
    ensures Size(Arr([x]), ascii) == Size(x, ascii) + 2
  {
    var v := Arr([x]);
    assert DumpTail(v, 1, ascii) == "";
    assert Dumps(v, ascii) == "[" + Dumps(x, ascii) + "]";
    EncodeAppend("[" + Dumps(x, ascii), "]");
    EncodeAppend("[", Dumps(x, ascii));
    EncodeAscii("[");
    EncodeAscii("]");
  }

  // ---- lower bounds ----

  lemma {:induction false} EncodeAtLeast(s: string)
    ensures |s| <= |Utf8.Encode(s)|
  {
    if s != "" { EncodeAtLeast(s[1..]); }
  }

  lemma {:induction false} EscapeAtLeast(s: string, ascii: bool)
    ensures |s| <= |Escape(s, ascii)|
  {
    if s != "" { EscapeAtLeast(s[1..], ascii); }
  }

  lemma TextSizeAtLeast(s: string, ascii: bool)
    ensures |s| + 2 <= TextSize(s, ascii)
  {
    EscapeAtLeast(s, ascii);
    EncodeAtLeast(Quoted(s, ascii));
  }

  lemma SizePositive(v: Json, ascii: bool)
    ensures Size(v, ascii) >= 1
  {
    DumpsStart(v, ascii);
    EncodeAtLeast(Dumps(v, ascii));
  }
}

/**
 JSON values, the printer of `json.dumps(value, sort_keys=True, separators=(",", ":"))` with either setting
 of `ensure_ascii`, and the parser of `json.loads` (sections 2 to 7 of RFC 8259).

 A Python dict is a map: dicts compare equal whatever their insertion order.
 */
module Json {
  import opened Utf8

  datatype Json =
    | Null
    | Bool(b: bool)
    | Num(n: int)
    | Str(s: string)
    | Arr(items: seq<Json>)
    | Obj(fields: map<string, Json>)

  /** Python's `==`, under which True equals 1 and False equals 0. */
  predicate PyEqual(a: Json, b: Json)
  {
    match a
    case Bool(x) => b == Bool(x) || b == Num(if x then 1 else 0)
    case Num(n) => b == Num(n) || (b == Bool(true) && n == 1) || (b == Bool(false) && n == 0)
    case Arr(items) => b.Arr? && |b.items| == |items| && forall i :: 0 <= i < |items| ==> PyEqual(items[i], b.items[i])
    case Obj(fields) =>
      b.Obj? && b.fields.Keys == fields.Keys && forall k :: k in fields ==> PyEqual(fields[k], b.fields[k])
    case _ => a == b
  }

  /** `value.get(key)`. */
  function Get(fields: map<string, Json>, key: string): Json
  {
    if key in fields then fields[key] else Null
  }

  // ---- key order ----

  /** Python's `<` on strings: by code point, a proper prefix first. */
  predicate Less(a: string, b: string)
  {
    b != "" && (a == "" || a[0] < b[0] || (a[0] == b[0] && Less(a[1..], b[1..])))
  }

  lemma {:induction false} LessTrichotomy(a: string, b: string)
    ensures Less(a, b) || Less(b, a) || a == b
    ensures !(Less(a, b) && Less(b, a))
    ensures !Less(a, a)
  {
    if a != "" {
      LessTrichotomy(a[1..], if b == "" then "" else b[1..]);
      assert a == [a[0]] + a[1..];
      if b != "" { assert b == [b[0]] + b[1..]; }
    }
  }

  lemma {:induction false} LessTransitive(a: string, b: string, c: string)
    requires Less(a, b) && Less(b, c)
    ensures Less(a, c)
  {
    if a != "" && a[0] == b[0] == c[0] { LessTransitive(a[1..], b[1..], c[1..]); }
  }

  predicate Least(k: string, keys: set<string>)
  {
    k in keys && forall j :: j in keys ==> j == k || Less(k, j)
  }

  lemma {:induction false} LeastExists(keys: set<string>)
    requires keys != {}
    ensures exists k :: Least(k, keys)
  {
    var k :| k in keys;
    if keys == {k} {
      assert Least(k, keys);
    } else {
      LeastExists(keys - {k});
      var j :| Least(j, keys - {k});
      LessTrichotomy(j, k);
      var l := if Less(j, k) then j else k;
      forall i | i in keys ensures i == l || Less(l, i) {
        if l == k && i != k && i != j { LessTransitive(k, j, i); }
      }
      assert Least(l, keys);
    }
  }

  function LeastKey(keys: set<string>): (k: string)
    requires keys != {}
    ensures Least(k, keys)
  {
    LeastExists(keys);
    assert forall i, j | Least(i, keys) && Least(j, keys) :: i == j by {
      forall i, j | Least(i, keys) && Least(j, keys) ensures i == j { LessTrichotomy(i, j); }
    }
    var k :| Least(k, keys);
    k
  }

  predicate Ascending(ks: seq<string>)
  {
    forall i, j :: 0 <= i < j < |ks| ==> Less(ks[i], ks[j])
  }

  /** The keys in ascending order. */
  function SortedKeys(keys: set<string>): (ks: seq<string>)
    ensures Ascending(ks)
    ensures forall k :: k in ks <==> k in keys
  {
    if keys == {} then []
    else
      var k := LeastKey(keys);
      [k] + SortedKeys(keys - {k})
  }

  /** There is only one ascending listing of a set. */
  lemma {:induction false} SortedKeysUnique(keys: set<string>, ks: seq<string>)
    requires Ascending(ks)
    requires forall k :: k in ks <==> k in keys
    ensures ks == SortedKeys(keys)
  {
    if ks == [] {
      assert keys == {};
    } else {
      assert ks[0] in keys;
      var k := LeastKey(keys);
      LessTrichotomy(k, ks[0]);
      assert k == ks[0];
      forall j | j in ks[1..] ensures j in keys - {k} { LessTrichotomy(k, k); }
      SortedKeysUnique(keys - {k}, ks[1..]);
      assert ks == [ks[0]] + ks[1..];
    }
  }

  // ---- printing ----

  function HexDigit(v: int): char
    requires 0 <= v < 16
  {
    if v < 10 then ('0' as int + v) as char else ('a' as int + (v - 10)) as char
  }

  function UnicodeEscape(n: int): (r: string)
    requires 0 <= n < 0x1_0000
    ensures |r| == 6 && r[0] == '\\'
  {
    ['\\', 'u', HexDigit(n / 4096), HexDigit(n / 256 % 16), HexDigit(n / 16 % 16), HexDigit(n % 16)]
  }

  /** One character inside a JSON string; `ascii` is Python's `ensure_ascii`. */
  function EscapeChar(c: char, ascii: bool): (r: string)
    ensures 1 <= |r| <= 12
  {
    var n := c as int;
    if c == '"' then "\\\""
    else if c == '\\' then "\\\\"
    else if c == '\n' then "\\n"
    else if c == '\r' then "\\r"
    else if c == '\t' then "\\t"
    else if n == 12 then "\\f"
    else if n == 8 then "\\b"
    else if n < 0x20 then UnicodeEscape(n)
    else if ascii && n > 0x7E then
      if n < 0x1_0000 then UnicodeEscape(n)
      else UnicodeEscape(0xD800 + (n - 0x1_0000) / 1024) + UnicodeEscape(0xDC00 + (n - 0x1_0000) % 1024)
    else [c]
  }

  function Escape(s: string, ascii: bool): string
  {
    if s == "" then "" else EscapeChar(s[0], ascii) + Escape(s[1..], ascii)
  }

  function Quoted(s: string, ascii: bool): string
  {
    "\"" + Escape(s, ascii) + "\""
  }

  function Digit(v: int): char
    requires 0 <= v < 10
  {
    ('0' as int + v) as char
  }

  function Digits(n: nat): (r: string)
    ensures r != ""
  {
    if n < 10 then [Digit(n)] else Digits(n / 10) + [Digit(n % 10)]
  }

  function IntText(n: int): (r: string)
    ensures r != ""
  {
    if n < 0 then "-" + Digits(-n) else Digits(n)
  }

  function Dumps(v: Json, ascii: bool): string
    decreases v, 1, 0
  {
    match v
    case Null => "null"
    case Bool(b) => if b then "true" else "false"
    case Num(n) => IntText(n)
    case Str(s) => Quoted(s, ascii)
    case Arr(items) => if items == [] then "[]" else "[" + Dumps(items[0], ascii) + DumpTail(v, 1, ascii) + "]"
    case Obj(fields) =>
      if fields == map[] then "{}"
      else
        var keys := SortedKeys(fields.Keys);
        assert keys[0] in fields.Keys;
        "{" + Quoted(keys[0], ascii) + ":" + Dumps(fields[keys[0]], ascii) + DumpFields(v, keys[1..], ascii) + "}"
  }

  function DumpTail(v: Json, i: nat, ascii: bool): string
    requires v.Arr? && i <= |v.items|
    decreases v, 0, |v.items| - i
  {
    if i == |v.items| then "" else "," + Dumps(v.items[i], ascii) + DumpTail(v, i + 1, ascii)
  }

  function DumpFields(v: Json, keys: seq<string>, ascii: bool): string
    requires v.Obj? && forall k :: k in keys ==> k in v.fields
    decreases v, 0, |keys|
  {
    if keys == [] then ""
    else "," + Quoted(keys[0], ascii) + ":" + Dumps(v.fields[keys[0]], ascii) + DumpFields(v, keys[1..], ascii)
  }

  // ---- parsing ----

  datatype Parsed<+T> = Bad | Good(value: T, rest: string)

  function SkipSpace(s: string): (r: string)
    ensures |r| <= |s|
  {
    if s != "" && (s[0] == ' ' || s[0] == '\t' || s[0] == '\n' || s[0] == '\r') then SkipSpace(s[1..]) else s
  }

  function HexValue(c: char): (r: Option<int>)
    ensures r.Some? ==> 0 <= r.value < 16
  {
    if '0' <= c <= '9' then Some(c as int - '0' as int)
    else if 'a' <= c <= 'f' then Some(c as int - 'a' as int + 10)
    else if 'A' <= c <= 'F' then Some(c as int - 'A' as int + 10)
    else None
  }

  /** Four hexadecimal digits at the head of `s`. */
  function Hex4(s: string): (r: Option<int>)
    ensures r.Some? ==> |s| >= 4 && 0 <= r.value < 0x1_0000
  {
    if |s| < 4 then None
    else
      var a, b, c, d := HexValue(s[0]), HexValue(s[1]), HexValue(s[2]), HexValue(s[3]);
      if a.None? || b.None? || c.None? || d.None? then None
      else Some(((a.value * 16 + b.value) * 16 + c.value) * 16 + d.value)
  }

  /** The character an escape stands for; `s` starts after the backslash. */
  function ParseEscape(s: string): (r: Parsed<char>)
    ensures r.Good? ==> |r.rest| < |s|
  {
    if s == "" then Bad
    else if s[0] == '"' || s[0] == '\\' || s[0] == '/' then Good(s[0], s[1..])
    else if s[0] == 'b' then Good(8 as char, s[1..])
    else if s[0] == 'f' then Good(12 as char, s[1..])
    else if s[0] == 'n' then Good('\n', s[1..])
    else if s[0] == 'r' then Good('\r', s[1..])
    else if s[0] == 't' then Good('\t', s[1..])
    else if s[0] != 'u' then Bad
    else match Hex4(s[1..])
      case None => Bad
      case Some(high) =>
        if high < 0xD800 || 0xE000 <= high then Good(high as char, s[5..])
        else if high < 0xDC00 && |s| >= 7 && s[5] == '\\' && s[6] == 'u' && Hex4(s[7..]).Some?
             && 0xDC00 <= Hex4(s[7..]).value < 0xE000 then
          Good((0x1_0000 + (high - 0xD800) * 1024 + (Hex4(s[7..]).value - 0xDC00)) as char, s[11..])
        else Bad
  }

  /** A string literal; `s` starts after the opening quote. Control characters must be escaped. */
  function ParseString(s: string): (r: Parsed<string>)
    ensures r.Good? ==> |r.rest| < |s|
    decreases |s|
  {
    if s == "" then Bad
    else if s[0] == '"' then Good("", s[1..])
    else if s[0] as int < 0x20 then Bad
    else
      var head: Parsed<char> := if s[0] == '\\' then ParseEscape(s[1..]) else Good(s[0], s[1..]);
      match head
      case Bad => Bad
      case Good(c, rest) =>
        match ParseString(rest)
        case Bad => Bad
        case Good(tail, rest') => Good([c] + tail, rest')
  }

  predicate IsDigit(c: char) { '0' <= c <= '9' }

  /** As many digits as there are, after those worth `acc`. */
  function ParseDigits(s: string, acc: nat): (r: (nat, string))
    ensures |r.1| <= |s|
  {
    if s != "" && IsDigit(s[0]) then ParseDigits(s[1..], acc * 10 + (s[0] as int - '0' as int)) else (acc, s)
  }

  /** An unsigned integer without superfluous leading zeros; a fraction or exponent is outside the model. */
  function ParseNat(s: string): (r: Parsed<nat>)
    ensures r.Good? ==> |r.rest| < |s|
  {
    if s == "" || !IsDigit(s[0]) then Bad
    else
      var (n, rest) := if s[0] == '0' then (0, s[1..]) else ParseDigits(s[1..], s[0] as int - '0' as int);
      if rest != "" && (rest[0] == '.' || rest[0] == 'e' || rest[0] == 'E') then Bad else Good(n, rest)
  }

  function ParseNumber(s: string): (r: Parsed<Json>)
    ensures r.Good? ==> |r.rest| < |s|
  {
    if s != "" && s[0] == '-' then
      match ParseNat(s[1..])
      case Bad => Bad
      case Good(n, rest) => Good(Num(0 - n), rest)
    else
      match ParseNat(s)
      case Bad => Bad
      case Good(n, rest) => Good(Num(n), rest)
  }

  function ParseValue(s: string): (r: Parsed<Json>)
    ensures r.Good? ==> |r.rest| < |s|
    decreases |s|, 1
  {
    if s == "" then Bad
    else if s[0] == '"' then
      match ParseString(s[1..])
      case Bad => Bad
      case Good(text, rest) => Good(Str(text), rest)
    else if s[0] == '{' then
      var body := SkipSpace(s[1..]);
      if body != "" && body[0] == '}' then Good(Obj(map[]), body[1..])
      else match ParseFields(body, map[])
        case Bad => Bad
        case Good(fields, rest) => Good(Obj(fields), rest)
    else if s[0] == '[' then
      var body := SkipSpace(s[1..]);
      if body != "" && body[0] == ']' then Good(Arr([]), body[1..])
      else match ParseItems(body)
        case Bad => Bad
        case Good(items, rest) => Good(Arr(items), rest)
    else if "null" <= s then Good(Null, s[4..])
    else if "true" <= s then Good(Bool(true), s[4..])
    else if "false" <= s then Good(Bool(false), s[5..])
    else ParseNumber(s)
  }

  /** One or more items up to the closing bracket. */
  function ParseItems(s: string): (r: Parsed<seq<Json>>)
    ensures r.Good? ==> |r.rest| < |s|
    decreases |s|, 2
  {
    match ParseValue(s)
    case Bad => Bad
    case Good(first, rest) =>
      var after := SkipSpace(rest);
      if after == "" then Bad
      else if after[0] == ']' then Good([first], after[1..])
      else if after[0] != ',' then Bad
      else match ParseItems(SkipSpace(after[1..]))
        case Bad => Bad
        case Good(others, rest') => Good([first] + others, rest')
  }

  /** One or more members up to the closing brace, added to `acc`; a repeated key keeps its last value. */
  function ParseFields(s: string, acc: map<string, Json>): (r: Parsed<map<string, Json>>)
    ensures r.Good? ==> |r.rest| < |s|
    decreases |s|, 0
  {
    if s == "" || s[0] != '"' then Bad
    else match ParseString(s[1..])
      case Bad => Bad
      case Good(key, rest) =>
        var colon := SkipSpace(rest);
        if colon == "" || colon[0] != ':' then Bad
        else match ParseValue(SkipSpace(colon[1..]))
          case Bad => Bad
          case Good(value, rest') =>
            var after := SkipSpace(rest');
            if after == "" then Bad
            else if after[0] == '}' then Good(acc[key := value], after[1..])
            else if after[0] != ',' then Bad
            else ParseFields(SkipSpace(after[1..]), acc[key := value])
  }

  /** `json.loads`. */
  function Loads(s: string): Option<Json>
  {
    match ParseValue(SkipSpace(s))
    case Bad => None
    case Good(v, rest) => if SkipSpace(rest) == "" then Some(v) else None
  }

  // ---- parsing undoes printing ----

  lemma HexRoundTrip(v: int)
    requires 0 <= v < 16
    ensures HexValue(HexDigit(v)) == Some(v)
  {
  }

  lemma UnicodeEscapeRoundTrip(n: int, t: string)
    requires 0 <= n < 0x1_0000
    ensures Hex4((UnicodeEscape(n) + t)[2..]) == Some(n)
    ensures (UnicodeEscape(n) + t)[0] == '\\' && (UnicodeEscape(n) + t)[1] == 'u' && (UnicodeEscape(n) + t)[6..] == t
  {
    HexRoundTrip(n / 4096);
    HexRoundTrip(n / 256 % 16);
    HexRoundTrip(n / 16 % 16);
    HexRoundTrip(n % 16);
    hide HexValue, HexDigit;
    var m := n / 16;
    assert n / 256 == m / 16 && n / 4096 == m / 16 / 16;
    assert n == ((m / 16 / 16 * 16 + m / 16 % 16) * 16 + m % 16) * 16 + n % 16;
  }

  lemma BasicEscapeRoundTrip(n: int, t: string)
    requires 0 <= n < 0xD800 || 0xE000 <= n < 0x1_0000
    ensures ParseEscape((UnicodeEscape(n) + t)[1..]) == Good(n as char, t)
  {
    hide UnicodeEscape, Hex4;
    var s := UnicodeEscape(n) + t;
    UnicodeEscapeRoundTrip(n, t);
    assert s[1..][1..] == s[2..] && s[1..][5..] == s[6..];
  }

  lemma PairEscapeRoundTrip(n: int, t: string)
    requires 0x1_0000 <= n < 0x11_0000
    ensures var s := UnicodeEscape(0xD800 + (n - 0x1_0000) / 1024) + UnicodeEscape(0xDC00 + (n - 0x1_0000) % 1024) + t;
            ParseEscape(s[1..]) == Good(n as char, t)
  {
    hide UnicodeEscape, Hex4;
    var high, low := 0xD800 + (n - 0x1_0000) / 1024, 0xDC00 + (n - 0x1_0000) % 1024;
    var s := UnicodeEscape(high) + UnicodeEscape(low) + t;
    assert s == UnicodeEscape(high) + (UnicodeEscape(low) + t);
    UnicodeEscapeRoundTrip(high, UnicodeEscape(low) + t);
    UnicodeEscapeRoundTrip(low, t);
    var u := s[1..];
    assert u[1..] == s[2..];
    assert u[5..] == s[6..];
    assert u[7..] == u[5..][2..] && u[11..] == u[5..][6..];
    assert u[5] == u[5..][0] && u[6] == u[5..][1];
  }

  predicate Readable(s: string, c: char, t: string)
  {
    && s != ""
    && s[0] != '"' && s[0] as int >= 0x20
    && (if s[0] == '\\' then ParseEscape(s[1..]) else Good(s[0], s[1..])) == Good(c, t)
  }

  lemma EscapeCharRoundTrip(c: char, ascii: bool, t: string)
    ensures Readable(EscapeChar(c, ascii) + t, c, t)
  {
    hide Hex4, UnicodeEscape;
    var n := c as int;
    var e := EscapeChar(c, ascii);
    if n >= 0x1_0000 && ascii {
      PairEscapeRoundTrip(n, t);
    } else if n < 0x1_0000 && e == UnicodeEscape(n) {
      BasicEscapeRoundTrip(n, t);
    } else if |e| == 2 {
      assert (e + t)[1..] == [e[1]] + t && ([e[1]] + t)[1..] == t;
    } else {
      assert (e + t)[1..] == t;
    }
  }

  lemma {:induction false} StringRoundTrip(s: string, ascii: bool, t: string)
    ensures ParseString(Escape(s, ascii) + "\"" + t) == Good(s, t)
  {
    hide EscapeChar, ParseEscape;
    if s == "" {
      assert Escape(s, ascii) + "\"" + t == "\"" + t;
    } else {
      var rest := Escape(s[1..], ascii) + "\"" + t;
      EscapeCharRoundTrip(s[0], ascii, rest);
      assert Escape(s, ascii) + "\"" + t == EscapeChar(s[0], ascii) + rest;
      StringRoundTrip(s[1..], ascii, t);
      assert s == [s[0]] + s[1..];
    }
  }

  lemma {:induction false} DigitsRoundTrip(n: nat, t: string)
    ensures ParseDigits(Digits(n) + t, 0) == ParseDigits(t, n)
    ensures IsDigit(Digits(n)[0])
    ensures Digits(n)[0] == '0' ==> n == 0
  {
    var last := [Digit(n % 10)] + t;
    assert last[1..] == t;
    if n >= 10 {
      DigitsRoundTrip(n / 10, last);
      assert Digits(n) + t == Digits(n / 10) + last;
    } else {
      assert Digits(n) + t == last;
    }
  }

  /** What may follow a value inside a printed document. */
  predicate Delimited(t: string)
  {
    t == "" || t[0] == ',' || t[0] == ']' || t[0] == '}'
  }

  lemma NatRoundTrip(n: nat, t: string)
    requires Delimited(t)
    ensures ParseNat(Digits(n) + t) == Good(n, t)
  {
    DigitsRoundTrip(n, t);
    var s := Digits(n) + t;
    assert s[0] == Digits(n)[0];
    if n == 0 { assert s[1..] == t; }
  }

  lemma NumberRoundTrip(n: int, t: string)
    requires Delimited(t)
    ensures ParseValue(IntText(n) + t) == Good(Num(n), t)
    ensures IntText(n)[0] == '-' || IsDigit(IntText(n)[0])
  {
    hide ParseNat, Digits, ParseString, ParseItems, ParseFields, ParseDigits, SkipSpace;
    var s := IntText(n) + t;
    if n < 0 {
      NatRoundTrip(-n, t);
      DigitsRoundTrip(-n, t);
      assert s[1..] == Digits(-n) + t;
    } else {
      NatRoundTrip(n, t);
      DigitsRoundTrip(n, t);
    }
    assert s[0] == IntText(n)[0];
    assert ParseValue(s) == ParseNumber(s);
  }

  lemma QuotedRoundTrip(s: string, ascii: bool, t: string)
    ensures (Quoted(s, ascii) + t)[0] == '"'
    ensures ParseString((Quoted(s, ascii) + t)[1..]) == Good(s, t)
  {
    StringRoundTrip(s, ascii, t);
    assert (Quoted(s, ascii) + t)[1..] == Escape(s, ascii) + "\"" + t;
  }

  predicate ValueStart(c: char)
  {
    c == '"' || c == '{' || c == '[' || c == 'n' || c == 't' || c == 'f' || c == '-' || IsDigit(c)
  }

  lemma DumpsStart(v: Json, ascii: bool)
    ensures Dumps(v, ascii) != "" && ValueStart(Dumps(v, ascii)[0])
  {
    match v
    case Num(n) => NumberRoundTrip(n, "");
    case _ =>
  }

  /** The members named by `keys`, assigned to `acc` in turn. */
  function Assigned(fields: map<string, Json>, keys: seq<string>, acc: map<string, Json>): map<string, Json>
    requires forall k :: k in keys ==> k in fields
  {
    if keys == [] then acc else Assigned(fields, keys[1..], acc[keys[0] := fields[keys[0]]])
  }

  lemma {:induction false} AssignedAll(fields: map<string, Json>, keys: seq<string>, acc: map<string, Json>)
    requires forall k :: k in keys ==> k in fields
    requires forall k :: k in acc ==> k in fields && acc[k] == fields[k]
    requires forall k :: k in fields ==> k in keys || k in acc
    ensures Assigned(fields, keys, acc) == fields
  {
    if keys != [] { AssignedAll(fields, keys[1..], acc[keys[0] := fields[keys[0]]]); }
  }

  lemma ScalarRoundTrip(v: Json, ascii: bool, t: string)
    requires v.Null? || v.Bool? || v.Num? || v.Str? || v == Arr([]) || v == Obj(map[])
    requires Delimited(t)
    ensures ParseValue(Dumps(v, ascii) + t) == Good(v, t)
  {
    hide ParseItems, ParseFields, ParseString, ParseNumber;
    var s := Dumps(v, ascii) + t;
    match v
    case Null => assert "null" <= s && s[4..] == t;
    case Bool(b) => assert (if b then "true" else "false") <= s && s[if b then 4 else 5..] == t;
    case Num(n) => NumberRoundTrip(n, t);
    case Str(text) => QuotedRoundTrip(text, ascii, t);
    case Arr(items) => assert s[1..] == "]" + t && s[1..][1..] == t;
    case Obj(fields) => assert s[1..] == "}" + t && s[1..][1..] == t;
  }

  lemma ArrayRoundTrip(v: Json, ascii: bool, t: string)
    requires v.Arr? && v.items != []
    requires ParseItems(Dumps(v.items[0], ascii) + DumpTail(v, 1, ascii) + "]" + t) == Good(v.items, t)
    ensures ParseValue(Dumps(v, ascii) + t) == Good(v, t)
  {
    hide ParseItems, ParseFields, ParseString, ParseNumber, DumpTail, DumpFields;
    var s := Dumps(v, ascii) + t;
    DumpsStart(v.items[0], ascii);
    assert s[1..] == Dumps(v.items[0], ascii) + DumpTail(v, 1, ascii) + "]" + t;
  }

  lemma ObjectRoundTrip(v: Json, keys: seq<string>, ascii: bool, t: string)
    requires v.Obj? && v.fields != map[] && keys == SortedKeys(v.fields.Keys)
    requires |keys| > 0 && keys[0] in v.fields
    requires ParseFields(Quoted(keys[0], ascii) + ":" + Dumps(v.fields[keys[0]], ascii)
                         + DumpFields(v, keys[1..], ascii) + "}" + t, map[])
             == Good(v.fields, t)
    ensures ParseValue(Dumps(v, ascii) + t) == Good(v, t)
  {
    hide ParseItems, ParseFields, ParseString, ParseNumber, DumpTail, DumpFields, SortedKeys, Escape;
    var s := Dumps(v, ascii) + t;
    var body := Quoted(keys[0], ascii) + ":" + Dumps(v.fields[keys[0]], ascii) + DumpFields(v, keys[1..], ascii)
                + "}" + t;
    assert s[1..] == body;
    assert body[0] == '"';
  }

  /** Reading back a printed value, whatever delimiter follows it. */
  lemma {:induction false} ValueRoundTrip(v: Json, ascii: bool, t: string)
    requires Delimited(t)
    ensures ParseValue(Dumps(v, ascii) + t) == Good(v, t)
    decreases v, 1, 0
  {
    hide ParseValue, Dumps;
    if v.Arr? && v.items != [] {
      ItemsRoundTrip(v, 0, ascii, t);
      assert v.items[0..] == v.items;
      ArrayRoundTrip(v, ascii, t);
    } else if v.Obj? && v.fields != map[] {
      var keys := SortedKeys(v.fields.Keys);
      var k :| k in v.fields;
      assert k in keys;
      FieldsRoundTrip(v, keys, map[], ascii, t);
      AssignedAll(v.fields, keys, map[]);
      ObjectRoundTrip(v, keys, ascii, t);
    } else {
      ScalarRoundTrip(v, ascii, t);
    }
  }

  lemma {:induction false} ItemsRoundTrip(v: Json, i: nat, ascii: bool, t: string)
    requires v.Arr? && i < |v.items|
    ensures ParseItems(Dumps(v.items[i], ascii) + DumpTail(v, i + 1, ascii) + "]" + t) == Good(v.items[i..], t)
    decreases v, 0, |v.items| - i
  {
    hide Dumps, ParseValue, ParseItems, DumpTail;
    var item := Dumps(v.items[i], ascii);
    var after := DumpTail(v, i + 1, ascii) + "]" + t;
    Closing(item, DumpTail(v, i + 1, ascii), t);
    assert Delimited(after) by { TailDelimited(v, i + 1, ascii, t); }
    ValueRoundTrip(v.items[i], ascii, after);
    if i + 1 == |v.items| {
      assert after == "]" + t by { LastTail(v, ascii); }
      ItemStep(item + after, v.items[i], after);
      assert v.items[i..] == [v.items[i]];
    } else {
      ItemsRoundTrip(v, i + 1, ascii, t);
      var rest := Dumps(v.items[i + 1], ascii) + DumpTail(v, i + 2, ascii) + "]" + t;
      assert after == "," + rest by { MoreTail(v, i + 1, ascii, t); }
      DumpsStart(v.items[i + 1], ascii);
      ItemStep(item + after, v.items[i], after);
      assert SkipSpace(rest) == rest;
      assert v.items[i..] == [v.items[i]] + v.items[i + 1..];
    }
  }

  lemma Closing(item: string, tail: string, t: string)
    ensures item + tail + "]" + t == item + (tail + "]" + t)
  {
  }

  lemma TailDelimited(v: Json, i: nat, ascii: bool, t: string)
    requires v.Arr? && i <= |v.items|
    ensures Delimited(DumpTail(v, i, ascii) + "]" + t)
  {
    hide Dumps;
  }

  lemma LastTail(v: Json, ascii: bool)
    requires v.Arr?
    ensures DumpTail(v, |v.items|, ascii) == ""
  {
  }

  lemma MoreTail(v: Json, i: nat, ascii: bool, t: string)
    requires v.Arr? && i < |v.items|
    ensures DumpTail(v, i, ascii) + "]" + t == "," + (Dumps(v.items[i], ascii) + DumpTail(v, i + 1, ascii) + "]" + t)
  {
    hide Dumps;
    var item, tail := Dumps(v.items[i], ascii), DumpTail(v, i + 1, ascii);
    assert DumpTail(v, i, ascii) == "," + item + tail;
    assert ("," + item + tail) + "]" + t == "," + (item + tail + "]" + t);
  }

  lemma ItemStep(s: string, item: Json, after: string)
    requires ParseValue(s) == Good(item, after) && after != "" && (after[0] == ']' || after[0] == ',')
    ensures ParseItems(s) ==
            if after[0] == ']' then Good([item], after[1..])
            else match ParseItems(SkipSpace(after[1..]))
                 case Bad => Bad
                 case Good(items, rest) => Good([item] + items, rest)
  {
    hide ParseValue;
  }

  lemma {:induction false} FieldsRoundTrip(v: Json, keys: seq<string>, acc: map<string, Json>, ascii: bool, t: string)
    requires v.Obj? && keys != [] && forall k :: k in keys ==> k in v.fields
    ensures ParseFields(Quoted(keys[0], ascii) + ":" + Dumps(v.fields[keys[0]], ascii)
                        + DumpFields(v, keys[1..], ascii) + "}" + t, acc)
            == Good(Assigned(v.fields, keys, acc), t)
    decreases v, 0, |keys|
  {
    hide Dumps, ParseValue, ParseString, Quoted, ParseFields;
    var value := v.fields[keys[0]];
    var after := DumpFields(v, keys[1..], ascii) + "}" + t;
    var s := Quoted(keys[0], ascii) + ":" + Dumps(value, ascii) + DumpFields(v, keys[1..], ascii) + "}" + t;
    var colon := ":" + (Dumps(value, ascii) + after);
    assert s == Quoted(keys[0], ascii) + colon;
    QuotedRoundTrip(keys[0], ascii, colon);
    assert colon[1..] == Dumps(value, ascii) + after;
    DumpsStart(value, ascii);
    ValueRoundTrip(value, ascii, after);
    FieldStep(s, keys[0], colon, value, after, acc);
    if |keys| == 1 {
      assert after == "}" + t && after[1..] == t;
      assert Assigned(v.fields, keys[1..], acc[keys[0] := value]) == acc[keys[0] := value];
    } else {
      FieldsRoundTrip(v, keys[1..], acc[keys[0] := value], ascii, t);
      QuotedRoundTrip(keys[1..][0], ascii, "");
      assert after[1..] == Quoted(keys[1..][0], ascii) + ":" + Dumps(v.fields[keys[1..][0]], ascii)
                           + DumpFields(v, keys[1..][1..], ascii) + "}" + t;
    }
  }

  lemma FieldStep(s: string, key: string, colon: string, value: Json, after: string, acc: map<string, Json>)
    requires s != "" && s[0] == '"' && ParseString(s[1..]) == Good(key, colon)
    requires colon != "" && colon[0] == ':'
    requires colon[1..] != "" && ValueStart(colon[1..][0]) && ParseValue(colon[1..]) == Good(value, after)
    requires after != "" && (after[0] == '}' || after[0] == ',')
    ensures ParseFields(s, acc) == if after[0] == '}' then Good(acc[key := value], after[1..])
                                   else ParseFields(SkipSpace(after[1..]), acc[key := value])
  {
    hide ParseValue, ParseString;
  }

  /** `json.loads` undoes `json.dumps`, with either setting of `ensure_ascii`. */
  lemma LoadsDumps(v: Json, ascii: bool)
    ensures Loads(Dumps(v, ascii)) == Some(v)
  {
    DumpsStart(v, ascii);
    ValueRoundTrip(v, ascii, "");
    assert Dumps(v, ascii) + "" == Dumps(v, ascii);
  }

  lemma DumpsInjective(a: Json, b: Json, ascii: bool)
    requires Dumps(a, ascii) == Dumps(b, ascii)
    ensures a == b
  {
    LoadsDumps(a, ascii);
    LoadsDumps(b, ascii);
  }
}

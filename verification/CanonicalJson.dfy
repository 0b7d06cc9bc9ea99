/** Canonical JSON: the text that payload hashes and settings revisions are computed from.

    `Encode` is the printer: object keys sorted, strings escaped as in section 7 of RFC 8259.
    `Parse` is the reference it is proved against: a decoder that knows nothing about the printer's
    choice of order. A number is identified with the text it prints as. */
module CanonicalJson {
  import opened Wrappers

  datatype Keyed<+T> = Keyed(key: string, value: T)

  datatype Json =
    | Null
    | Bool(truth: bool)
    | Number(digits: string)
    | Text(text: string)
    | Array(items: seq<Json>)
    | Object(entries: seq<Keyed<Json>>)

  // ---------------------------------------------------------------- key order

  /** Code-point lexicographic order, which is the byte order of the UTF-8 keys. */
  predicate Less(a: string, b: string) {
    b != "" && (a == "" || a[0] < b[0] || (a[0] == b[0] && Less(a[1..], b[1..])))
  }

  /** The first place where two texts differ decides, and a text goes before what it begins. */
  ghost predicate GoesBefore(a: string, b: string) {
    exists n: nat | n <= |a| && n <= |b| ::
      && a[..n] == b[..n]
      && n < |b| && (n < |a| ==> a[n] < b[n])
  }

  lemma {:induction false} LessIs(a: string, b: string)
    ensures Less(a, b) <==> GoesBefore(a, b)
  {
    if a == "" || b == "" || a[0] != b[0] {
      if b != "" && (a == "" || a[0] < b[0]) { assert a[..0] == b[..0]; }
    } else {
      LessIs(a[1..], b[1..]);
      forall n: nat | n <= |a[1..]| && n <= |b[1..]| && a[1..][..n] == b[1..][..n]
        ensures a[..n + 1] == b[..n + 1]
      {
        assert a[..n + 1] == [a[0]] + a[1..][..n] && b[..n + 1] == [b[0]] + b[1..][..n];
      }
      forall n: nat | 0 < n <= |a| && n <= |b| && a[..n] == b[..n]
        ensures a[1..][..n - 1] == b[1..][..n - 1]
      {
        assert a[1..][..n - 1] == a[..n][1..] && b[1..][..n - 1] == b[..n][1..];
      }
      if GoesBefore(a, b) {
        var n: nat :| n <= |a| && n <= |b| && a[..n] == b[..n] && n < |b| && (n < |a| ==> a[n] < b[n]);
        assert n > 0 && a[1..][..n - 1] == b[1..][..n - 1];
      }
      if GoesBefore(a[1..], b[1..]) {
        var n: nat :| n <= |a[1..]| && n <= |b[1..]| && a[1..][..n] == b[1..][..n] && n < |b[1..]| &&
          (n < |a[1..]| ==> a[1..][n] < b[1..][n]);
        assert a[..n + 1] == b[..n + 1];
      }
    }
  }

  lemma {:induction false} LessTransitive(a: string, b: string, c: string)
    requires Less(a, b) && Less(b, c)
    ensures Less(a, c)
  {
    if a != "" && a[0] == b[0] == c[0] {
      LessTransitive(a[1..], b[1..], c[1..]);
    }
  }

  lemma {:induction false} LessTotal(a: string, b: string)
    ensures Less(a, b) || a == b || Less(b, a)
    ensures !(Less(a, b) && Less(b, a)) && !Less(a, a)
  {
    if a != "" && b != "" && a[0] == b[0] {
      LessTotal(a[1..], b[1..]);
      assert a == [a[0]] + a[1..] && b == [b[0]] + b[1..];
    } else if a != "" {
      LessIrreflexive(a);
    }
  }

  lemma {:induction false} LessIrreflexive(a: string)
    ensures !Less(a, a)
  {
    if a != "" { LessIrreflexive(a[1..]); }
  }

  ghost predicate StrictlySorted<T>(s: seq<Keyed<T>>) {
    forall i, j | 0 <= i < j < |s| :: Less(s[i].key, s[j].key)
  }

  ghost predicate DistinctKeys<T>(s: seq<Keyed<T>>) {
    forall i, j | 0 <= i < j < |s| :: s[i].key != s[j].key
  }

  function Insert<T(!new)>(e: Keyed<T>, s: seq<Keyed<T>>): (r: seq<Keyed<T>>)
    ensures multiset(r) == multiset(s) + multiset{e}
  {
    if s == [] || !Less(s[0].key, e.key) then [e] + s
    else
      assert s == [s[0]] + s[1..];
      [s[0]] + Insert(e, s[1..])
  }

  function SortByKey<T(!new)>(s: seq<Keyed<T>>): (r: seq<Keyed<T>>)
    ensures multiset(r) == multiset(s)
    ensures forall e :: e in r <==> e in s
  {
    if s == [] then []
    else
      assert s == [s[0]] + s[1..];
      var r := Insert(s[0], SortByKey(s[1..]));
      assert forall e :: e in r <==> e in multiset(r);
      assert forall e :: e in s <==> e in multiset(s);
      r
  }

  lemma {:induction false} InsertSorted<T(!new)>(e: Keyed<T>, s: seq<Keyed<T>>)
    requires StrictlySorted(s)
    requires forall x | x in s :: x.key != e.key
    ensures StrictlySorted(Insert(e, s))
  {
    if s != [] {
      LessTotal(s[0].key, e.key);
      if Less(s[0].key, e.key) {
        InsertSorted(e, s[1..]);
        var r := Insert(e, s[1..]);
        forall j | 0 <= j < |r| ensures Less(s[0].key, r[j].key) {
          assert r[j] in multiset(r);
          assert r[j] == e || r[j] in s[1..];
        }
      } else {
        forall j | 0 <= j < |s| ensures Less(e.key, s[j].key) {
          if j > 0 { LessTransitive(e.key, s[0].key, s[j].key); }
        }
      }
    }
  }

  lemma {:induction false} SortByKeySorted<T(!new)>(s: seq<Keyed<T>>)
    requires DistinctKeys(s)
    ensures StrictlySorted(SortByKey(s))
  {
    if s != [] {
      SortByKeySorted(s[1..]);
      InsertSorted(s[0], SortByKey(s[1..]));
    }
  }

  lemma Inhabited<T(!new)>(s: seq<T>)
    requires s != []
    ensures exists e :: e in s
  {
    assert s[0] in s;
  }

  /** A strictly sorted sequence is determined by its set of entries. */
  lemma {:induction false} SortedUnique<T(!new)>(a: seq<Keyed<T>>, b: seq<Keyed<T>>)
    requires StrictlySorted(a) && StrictlySorted(b)
    requires forall e :: e in a <==> e in b
    ensures a == b
  {
    if a == [] {
      if b != [] {
        Inhabited(b);
        assert false;
      }
    } else {
      assert a[0] in b && b != [];
      assert b[0] in a;
      HeadLeast(a, b[0]);
      HeadLeast(b, a[0]);
      LessTotal(a[0].key, b[0].key);
      assert a[0] == b[0];
      forall e ensures e in a[1..] <==> e in b[1..] {
        LessIrreflexive(a[0].key);
        if e in a[1..] { assert e in b; HeadLeast(a, e); }
        if e in b[1..] { assert e in a; HeadLeast(b, e); }
      }
      SortedUnique(a[1..], b[1..]);
      assert a == [a[0]] + a[1..] && b == [b[0]] + b[1..];
    }
  }

  lemma HeadLeast<T(!new)>(s: seq<Keyed<T>>, e: Keyed<T>)
    requires StrictlySorted(s) && e in s
    ensures e == s[0] || Less(s[0].key, e.key)
    ensures e in s[1..] ==> Less(s[0].key, e.key)
  {
  }

  // ---------------------------------------------------------------- printing

  const HEX := "0123456789abcdef"

  function Escape(c: char): string {
    if c == '"' then "\\\""
    else if c == '\\' then "\\\\"
    else if c == '\U{8}' then "\\b"
    else if c == '\U{c}' then "\\f"
    else if c == '\n' then "\\n"
    else if c == '\r' then "\\r"
    else if c == '\t' then "\\t"
    else if c <= '\U{1f}' then "\\u00" + [HEX[c as int / 16], HEX[c as int % 16]]
    else [c]
  }

  function EscapeAll(s: string): string {
    if s == "" then "" else Escape(s[0]) + EscapeAll(s[1..])
  }

  function Quote(s: string): string { "\"" + EscapeAll(s) + "\"" }

  lemma {:induction false} EscapeAllAppend(s: string, c: char)
    ensures EscapeAll(s + [c]) == EscapeAll(s) + Escape(c)
  {
    hide Escape;
    if s == "" {
      assert EscapeAll([c]) == Escape(c) + EscapeAll([]);
    } else {
      EscapeAllAppend(s[1..], c);
      assert (s + [c])[1..] == s[1..] + [c];
    }
  }

  /** Prints a string in one pass that pushes onto a buffer. */
  method EncodeString(value: string) returns (encoded: string)
    ensures encoded == Quote(value)
  {
    hide Escape;
    encoded := "\"";
    var i := 0;
    while i < |value|
      invariant 0 <= i <= |value|
      invariant encoded == "\"" + EscapeAll(value[..i])
    {
      EscapeAllAppend(value[..i], value[i]);
      assert value[..i + 1] == value[..i] + [value[i]];
      encoded := encoded + Escape(value[i]);
      i := i + 1;
    }
    assert value[..i] == value;
    encoded := encoded + "\"";
  }

  /** Prints a value; object entries are printed in key order. */
  function Encode(v: Json): string
    decreases v, 1, 0
  {
    match v
    case Null => "null"
    case Bool(b) => if b then "true" else "false"
    case Number(digits) => digits
    case Text(t) => Quote(t)
    case Array(items) => "[" + EncodeItems(v, items) + "]"
    case Object(entries) => "{" + EncodeEntries(v, SortByKey(entries)) + "}"
  }

  function EncodeItems(v: Json, items: seq<Json>): string
    requires v.Array? && forall x | x in items :: x in v.items
    decreases v, 0, |items|
  {
    if items == [] then ""
    else
      assert items[0] in v.items;
      if |items| == 1 then Encode(items[0]) else Encode(items[0]) + "," + EncodeItems(v, items[1..])
  }

  function EncodeEntries(v: Json, entries: seq<Keyed<Json>>): string
    requires v.Object? && forall e | e in entries :: e in v.entries
    decreases v, 0, |entries|
  {
    if entries == [] then ""
    else
      assert entries[0] in v.entries;
      var head := Quote(entries[0].key) + ":" + Encode(entries[0].value);
      if |entries| == 1 then head else head + "," + EncodeEntries(v, entries[1..])
  }

  // ---------------------------------------------------------------- decoding

  type Parsed<T> = Option<(T, string)>

  predicate NumberChar(c: char) { '0' <= c <= '9' || c in "-+.eE" }

  function NumberPrefix(s: string): nat
    ensures NumberPrefix(s) <= |s|
  {
    if s != "" && NumberChar(s[0]) then 1 + NumberPrefix(s[1..]) else 0
  }

  function HexDigit(c: char): Option<nat> {
    if '0' <= c <= '9' then Some(c as int - '0' as int)
    else if 'a' <= c <= 'f' then Some(c as int - 'a' as int + 10)
    else if 'A' <= c <= 'F' then Some(c as int - 'A' as int + 10)
    else None
  }

  /** One character of a JSON string body: what it denotes and how long it is. */
  function Unescape(s: string): (r: Option<(char, nat)>)
    ensures r.Some? ==> 0 < r.value.1 <= |s|
  {
    if s == "" || s[0] == '"' || s[0] <= '\U{1f}' then None
    else if s[0] != '\\' then Some((s[0], 1))
    else if |s| < 2 then None
    else match s[1]
      case '"' => Some(('"', 2))
      case '\\' => Some(('\\', 2))
      case '/' => Some(('/', 2))
      case 'b' => Some(('\U{8}', 2))
      case 'f' => Some(('\U{c}', 2))
      case 'n' => Some(('\n', 2))
      case 'r' => Some(('\r', 2))
      case 't' => Some(('\t', 2))
      case 'u' =>
        if |s| < 6 then None
        else
          var a :- HexDigit(s[2]);
          var b :- HexDigit(s[3]);
          var c :- HexDigit(s[4]);
          var d :- HexDigit(s[5]);
          var code := ((a * 16 + b) * 16 + c) * 16 + d;
          if code < 0xD800 then Some((code as char, 6)) else None
      case _ => None
  }

  /** A character is printed in the shortest form that reads as it, with small hexadecimal digits. */
  lemma EscapeIsShortest(c: char, s: string)
    requires Unescape(s) == Some((c, |s|))
    ensures |Escape(c)| <= |s|
    ensures |Escape(c)| == |s| && (forall x | x in s :: !('A' <= x <= 'F')) ==> s == Escape(c)
  {
    if |s| == 6 {
      SixIsHex(s);
      if |Escape(c)| == 6 {
        HexIsRead(s, c);
        if forall x | x in s :: !('A' <= x <= 'F') {
          assert s[4] in s && s[5] in s;
          SmallHex(s[4]);
          SmallHex(s[5]);
          assert s == Escape(c);
        }
      }
    } else {
      ShortForms(c, s);
    }
  }

  lemma ShortForms(c: char, s: string)
    requires Unescape(s) == Some((c, |s|)) && |s| != 6
    ensures |Escape(c)| <= |s| && (|Escape(c)| == |s| ==> s == Escape(c))
  {
    assert |s| == 1 || |s| == 2;
    assert s == if |s| == 1 then [s[0]] else [s[0], s[1]];
  }

  lemma SixIsHex(s: string)
    requires |s| == 6 && Unescape(s).Some? && Unescape(s).value.1 == 6
    ensures s[0] == '\\' && s[1] == 'u'
  {
  }

  lemma SmallHex(d: char)
    requires HexDigit(d).Some? && !('A' <= d <= 'F')
    ensures HexDigit(d).value < 16 && d == HEX[HexDigit(d).value]
  {
  }

  lemma HexIsRead(s: string, c: char)
    requires |s| == 6 && s[0] == '\\' && s[1] == 'u' && Unescape(s) == Some((c, 6)) && c <= '\U{1f}'
    ensures s[2] == '0' && s[3] == '0' && HexDigit(s[4]) == Some(c as int / 16) && HexDigit(s[5]) == Some(c as int % 16)
  {
  }

  function ParseBody(s: string): (r: Parsed<string>)
    ensures r.Some? ==> |r.value.1| < |s|
  {
    if s != "" && s[0] == '"' then Some(("", s[1..]))
    else
      var (c, n) :- Unescape(s);
      var (t, rest) :- ParseBody(s[n..]);
      Some(([c] + t, rest))
  }

  predicate StartsWith(s: string, prefix: string) { |prefix| <= |s| && s[..|prefix|] == prefix }

  function Parse(s: string): (r: Parsed<Json>)
    decreases |s|, 0
    ensures r.Some? ==> |r.value.1| < |s|
  {
    if s == "" then None
    else if StartsWith(s, "null") then Some((Null, s[4..]))
    else if StartsWith(s, "true") then Some((Bool(true), s[4..]))
    else if StartsWith(s, "false") then Some((Bool(false), s[5..]))
    else if s[0] == '"' then
      var (t, rest) :- ParseBody(s[1..]);
      Some((Text(t), rest))
    else if s[0] == '[' then
      if StartsWith(s, "[]") then Some((Array([]), s[2..]))
      else
        var (items, rest) :- ParseItems(s[1..]);
        Some((Array(items), rest))
    else if s[0] == '{' then
      if StartsWith(s, "{}") then Some((Object([]), s[2..]))
      else
        var (entries, rest) :- ParseEntries(s[1..]);
        Some((Object(entries), rest))
    else
      var n := NumberPrefix(s);
      if n == 0 then None else Some((Number(s[..n]), s[n..]))
  }

  function ParseItems(s: string): (r: Parsed<seq<Json>>)
    decreases |s|, 1
    ensures r.Some? ==> |r.value.1| < |s|
  {
    var (v, rest) :- Parse(s);
    if rest == "" then None
    else if rest[0] == ']' then Some(([v], rest[1..]))
    else if rest[0] == ',' then
      var (vs, tail) :- ParseItems(rest[1..]);
      Some(([v] + vs, tail))
    else None
  }

  function ParseEntry(s: string): (r: Parsed<Keyed<Json>>)
    decreases |s|, 1
    ensures r.Some? ==> |r.value.1| < |s|
  {
    if s == "" || s[0] != '"' then None
    else
      var (key, rest) :- ParseBody(s[1..]);
      if rest == "" || rest[0] != ':' then None
      else
        var (v, tail) :- Parse(rest[1..]);
        Some((Keyed(key, v), tail))
  }

  function ParseEntries(s: string): (r: Parsed<seq<Keyed<Json>>>)
    decreases |s|, 2
    ensures r.Some? ==> |r.value.1| < |s|
  {
    var (e, rest) :- ParseEntry(s);
    if rest == "" then None
    else if rest[0] == '}' then Some(([e], rest[1..]))
    else if rest[0] == ',' then
      var (es, tail) :- ParseEntries(rest[1..]);
      Some(([e] + es, tail))
    else None
  }

  // ---------------------------------------------------------------- values

  /** Numbers print as number tokens and no object repeats a key, at any depth. */
  ghost predicate WellFormed(v: Json) {
    match v
    case Number(digits) => digits != "" && forall c | c in digits :: NumberChar(c)
    case Array(items) => forall x | x in items :: WellFormed(x)
    case Object(entries) => DistinctKeys(entries) && forall e | e in entries :: WellFormed(e.value)
    case _ => true
  }

  /** Equality of JSON values, where an object is the set of its entries. */
  ghost predicate Same(v: Json, w: Json)
    decreases v
  {
    match v
    case Array(items) =>
      w.Array? && |items| == |w.items| && forall i | 0 <= i < |items| :: Same(items[i], w.items[i])
    case Object(entries) =>
      && w.Object?
      && (forall x | x in entries :: exists y :: y in w.entries && SameEntry(x, y))
      && (forall y | y in w.entries :: exists x :: x in entries && SameEntry(x, y))
    case _ => v == w
  }

  ghost predicate SameEntry(x: Keyed<Json>, y: Keyed<Json>)
    decreases x
  {
    x.key == y.key && Same(x.value, y.value)
  }

  /** The decoder's answer: the value with every object's entries in key order. */
  function Canon(v: Json): Json
    decreases v, 1, 0
  {
    match v
    case Array(items) => Array(CanonItems(v, items))
    case Object(entries) => Object(CanonEntries(v, SortByKey(entries)))
    case _ => v
  }

  function CanonItems(v: Json, items: seq<Json>): (r: seq<Json>)
    requires v.Array? && forall x | x in items :: x in v.items
    ensures |r| == |items|
    decreases v, 0, |items|
  {
    if items == [] then []
    else
      assert items[0] in v.items;
      [Canon(items[0])] + CanonItems(v, items[1..])
  }

  function CanonEntries(v: Json, entries: seq<Keyed<Json>>): (r: seq<Keyed<Json>>)
    requires v.Object? && forall e | e in entries :: e in v.entries
    ensures |r| == |entries|
    decreases v, 0, |entries|
  {
    if entries == [] then []
    else
      assert entries[0] in v.entries;
      [Keyed(entries[0].key, Canon(entries[0].value))] + CanonEntries(v, entries[1..])
  }

  lemma {:induction false} CanonItemsAt(v: Json, items: seq<Json>, i: nat)
    requires v.Array? && (forall x | x in items :: x in v.items) && i < |items|
    ensures CanonItems(v, items)[i] == Canon(items[i])
  {
    if i > 0 { CanonItemsAt(v, items[1..], i - 1); }
  }

  lemma {:induction false} CanonEntriesAt(v: Json, entries: seq<Keyed<Json>>, i: nat)
    requires v.Object? && (forall e | e in entries :: e in v.entries) && i < |entries|
    ensures CanonEntries(v, entries)[i] == Shape(entries[i])
  {
    if i > 0 { CanonEntriesAt(v, entries[1..], i - 1); }
  }

  // ---------------------------------------------------------------- round trip

  ghost predicate Stops(rest: string) { rest == "" || !NumberChar(rest[0]) }

  lemma UnescapeEscape(c: char, t: string)
    ensures Unescape(Escape(c) + t) == Some((c, |Escape(c)|))
  {
    var s := Escape(c) + t;
    if c <= '\U{1f}' && c !in ['\U{8}', '\U{c}', '\n', '\r', '\t'] {
      var n := c as int;
      assert s[0] == '\\' && s[1] == 'u' && s[2] == '0' && s[3] == '0';
      assert s[4] == HEX[n / 16] && s[5] == HEX[n % 16];
      HexDigitOf(n / 16);
      HexDigitOf(n % 16);
      assert (n / 16) * 16 + n % 16 == n;
    }
  }

  lemma HexDigitOf(n: nat)
    requires n < 16
    ensures HexDigit(HEX[n]) == Some(n)
  {
  }

  lemma {:induction false} ParseBodyEscapeAll(t: string, rest: string)
    ensures ParseBody(EscapeAll(t) + "\"" + rest) == Some((t, rest))
  {
    var s := EscapeAll(t) + "\"" + rest;
    if t == "" {
      assert s[1..] == rest;
    } else {
      var tail := EscapeAll(t[1..]) + "\"" + rest;
      assert s == Escape(t[0]) + tail;
      UnescapeEscape(t[0], tail);
      assert s[|Escape(t[0])|..] == tail;
      ParseBodyEscapeAll(t[1..], rest);
      assert [t[0]] + t[1..] == t;
    }
  }

  lemma {:induction false} NumberPrefixOf(digits: string, rest: string)
    requires forall c | c in digits :: NumberChar(c)
    requires Stops(rest)
    ensures NumberPrefix(digits + rest) == |digits|
  {
    if digits == "" {
      assert digits + rest == rest;
    } else {
      NumberPrefixOf(digits[1..], rest);
      assert (digits + rest)[1..] == digits[1..] + rest;
      assert digits[0] in digits;
    }
  }

  lemma EncodeHead(v: Json)
    requires WellFormed(v)
    ensures Encode(v) != "" && Encode(v)[0] != ']'
    ensures v.Number? ==> NumberChar(Encode(v)[0])
  {
    if v.Number? { assert v.digits[0] in v.digits; }
  }

  /** Unique decodability: the decoder returns the value and leaves exactly the text that follows. */
  lemma {:induction false} ParseEncode(v: Json, rest: string)
    requires WellFormed(v)
    requires v.Number? ==> Stops(rest)
    ensures Parse(Encode(v) + rest) == Some((Canon(v), rest))
    decreases v, 1, 0
  {
    match v
    case Array(items) => ParseEncodeArray(v, rest);
    case Object(entries) => ParseEncodeObject(v, rest);
    case _ => ParseEncodeScalar(v, rest);
  }

  lemma SplitAt(a: string, b: string)
    ensures (a + b)[..|a|] == a && (a + b)[|a|..] == b
  {
  }

  lemma ParseEncodeScalar(v: Json, rest: string)
    requires WellFormed(v) && !v.Array? && !v.Object?
    requires v.Number? ==> Stops(rest)
    ensures Parse(Encode(v) + rest) == Some((v, rest))
  {
    hide ParseItems, ParseEntries, ParseBody, EscapeAll;
    var s := Encode(v) + rest;
    EncodeHead(v);
    assert s[0] == Encode(v)[0];
    OnlyPunctuationStarts(s);
    SplitAt(Encode(v), rest);
    match v
    case Null =>
    case Bool(b) =>
    case Number(digits) => NumberPrefixOf(digits, rest);
    case Text(t) =>
      assert s[1..] == EscapeAll(t) + "\"" + rest;
      ParseBodyEscapeAll(t, rest);
  }

  lemma {:induction false} ParseEncodeArray(v: Json, rest: string)
    requires WellFormed(v) && v.Array?
    ensures Parse(Encode(v) + rest) == Some((Canon(v), rest))
    decreases v, 0, |v.items| + 1
  {
    hide ParseItems, ParseEntries, ParseBody;
    var s := Encode(v) + rest;
    assert s[0] == '[';
    OnlyPunctuationStarts(s);
    if v.items == [] {
      SplitAt("[]", rest);
      assert Encode(v) == "[]";
    } else {
      var body := EncodeItems(v, v.items);
      ItemsHead(v, v.items);
      assert s[1..] == body + "]" + rest;
      assert s[..2][1] == s[1] == body[0];
      ParseEncodeItems(v, v.items, rest);
    }
  }

  lemma {:induction false} ParseEncodeObject(v: Json, rest: string)
    requires WellFormed(v) && v.Object?
    ensures Parse(Encode(v) + rest) == Some((Canon(v), rest))
    decreases v, 0, |v.entries| + 1
  {
    hide ParseItems, ParseEntries, ParseBody, SortByKey, EscapeAll, WellFormed, NumberPrefix;
    var s := Encode(v) + rest;
    assert s[0] == '{';
    OnlyPunctuationStarts(s);
    var sorted := SortByKey(v.entries);
    assert |sorted| == |multiset(sorted)| == |v.entries|;
    if sorted == [] {
      SplitAt("{}", rest);
      assert Encode(v) == "{}";
    } else {
      var body := EncodeEntries(v, sorted);
      assert sorted[0] in v.entries;
      assert body[0] == '"';
      assert s[1..] == body + "}" + rest;
      assert s[..2][1] == s[1] == body[0];
      ParseEncodeEntries(v, sorted, rest);
    }
  }

  lemma OnlyPunctuationStarts(s: string)
    requires s != ""
    ensures StartsWith(s, "null") ==> s[0] == 'n'
    ensures StartsWith(s, "true") ==> s[0] == 't'
    ensures StartsWith(s, "false") ==> s[0] == 'f'
  {
    if StartsWith(s, "null") { assert s[..4][0] == s[0]; }
    if StartsWith(s, "true") { assert s[..4][0] == s[0]; }
    if StartsWith(s, "false") { assert s[..5][0] == s[0]; }
  }

  lemma ItemsHead(v: Json, items: seq<Json>)
    requires v.Array? && WellFormed(v) && items != [] && forall x | x in items :: x in v.items
    ensures EncodeItems(v, items) != "" && EncodeItems(v, items)[0] != ']'
  {
    assert items[0] in items;
    EncodeHead(items[0]);
  }

  lemma {:induction false} ParseEncodeItems(v: Json, items: seq<Json>, rest: string)
    requires v.Array? && WellFormed(v) && items != [] && forall x | x in items :: x in v.items
    ensures ParseItems(EncodeItems(v, items) + "]" + rest) == Some((CanonItems(v, items), rest))
    decreases v, 0, |items|
  {
    var s := EncodeItems(v, items) + "]" + rest;
    assert items[0] in items;
    if |items| == 1 {
      assert s == Encode(items[0]) + ("]" + rest);
      ParseEncode(items[0], "]" + rest);
      assert CanonItems(v, items) == [Canon(items[0])];
    } else {
      var tail := EncodeItems(v, items[1..]) + "]" + rest;
      assert s == Encode(items[0]) + ("," + tail);
      ParseEncode(items[0], "," + tail);
      assert ("," + tail)[1..] == tail;
      ParseEncodeItems(v, items[1..], rest);
    }
  }

  lemma {:induction false} ParseEncodeEntries(v: Json, entries: seq<Keyed<Json>>, rest: string)
    requires v.Object? && WellFormed(v) && entries != [] && forall e | e in entries :: e in v.entries
    ensures ParseEntries(EncodeEntries(v, entries) + "}" + rest) == Some((CanonEntries(v, entries), rest))
    decreases v, 0, |entries|
  {
    hide ParseEntry, Quote, Encode, Canon;
    var s := EncodeEntries(v, entries) + "}" + rest;
    var e := entries[0];
    assert e in entries && e in v.entries;
    if |entries| == 1 {
      assert s == Quote(e.key) + ":" + Encode(e.value) + ("}" + rest);
      ParseEncodeEntry(v, e, "}" + rest);
      assert CanonEntries(v, entries) == [Keyed(e.key, Canon(e.value))];
    } else {
      var tail := EncodeEntries(v, entries[1..]) + "}" + rest;
      assert s == Quote(e.key) + ":" + Encode(e.value) + ("," + tail);
      ParseEncodeEntry(v, e, "," + tail);
      assert ("," + tail)[1..] == tail;
      ParseEncodeEntries(v, entries[1..], rest);
    }
  }

  lemma {:induction false} ParseEncodeEntry(v: Json, e: Keyed<Json>, rest: string)
    requires v.Object? && WellFormed(v) && e in v.entries && Stops(rest)
    ensures ParseEntry(Quote(e.key) + ":" + Encode(e.value) + rest)
         == Some((Keyed(e.key, Canon(e.value)), rest))
    decreases v, 0, 0
  {
    hide Parse, ParseBody, EscapeAll, Encode, Canon;
    var s := Quote(e.key) + ":" + Encode(e.value) + rest;
    var tail := ":" + (Encode(e.value) + rest);
    assert s[1..] == EscapeAll(e.key) + "\"" + tail;
    ParseBodyEscapeAll(e.key, tail);
    assert tail[1..] == Encode(e.value) + rest;
    ParseEncode(e.value, rest);
  }

  // ---------------------------------------------------------------- what equal text means

  lemma {:induction false} SameCanon(v: Json, w: Json)
    requires WellFormed(v) && WellFormed(w)
    ensures Same(v, w) <==> Canon(v) == Canon(w)
    decreases v
  {
    match v
    case Array(items) =>
      if w.Array? && |items| == |w.items| {
        forall i | 0 <= i < |items| ensures Same(items[i], w.items[i]) <==> Canon(items[i]) == Canon(w.items[i]) {
          SameCanon(items[i], w.items[i]);
        }
        SameItems(v, w);
      }
    case Object(entries) =>
      if w.Object? {
        forall x, y | x in entries && y in w.entries
          ensures SameEntry(x, y) <==> Shape(x) == Shape(y)
        {
          SameCanon(x.value, y.value);
        }
        ShapesIffCanon(v, w);
      }
    case _ =>
  }

  lemma SameItems(v: Json, w: Json)
    requires v.Array? && w.Array? && |v.items| == |w.items|
    requires forall i | 0 <= i < |v.items| :: Same(v.items[i], w.items[i]) <==> Canon(v.items[i]) == Canon(w.items[i])
    ensures Same(v, w) <==> Canon(v) == Canon(w)
  {
    var a, b := CanonItems(v, v.items), CanonItems(w, w.items);
    forall i | 0 <= i < |a| ensures a[i] == Canon(v.items[i]) && b[i] == Canon(w.items[i]) {
      CanonItemsAt(v, v.items, i);
      CanonItemsAt(w, w.items, i);
    }
    if Same(v, w) { assert a == b; }
    if a == b {
      forall i | 0 <= i < |a| ensures Same(v.items[i], w.items[i]) {
        assert a[i] == b[i];
      }
    }
  }

  ghost function Shape(x: Keyed<Json>): Keyed<Json> { Keyed(x.key, Canon(x.value)) }

  lemma CanonContains(v: Json, x: Keyed<Json>)
    requires v.Object? && x in v.entries
    ensures Shape(x) in Canon(v).entries
  {
    var sorted := SortByKey(v.entries);
    var i :| 0 <= i < |sorted| && sorted[i] == x;
    CanonEntriesAt(v, sorted, i);
  }

  lemma CanonMember(v: Json, c: Keyed<Json>) returns (x: Keyed<Json>)
    requires v.Object? && c in Canon(v).entries
    ensures x in v.entries && c == Shape(x)
  {
    var sorted := SortByKey(v.entries);
    var i :| 0 <= i < |sorted| && CanonEntries(v, sorted)[i] == c;
    CanonEntriesAt(v, sorted, i);
    x := sorted[i];
    assert x in sorted;
  }

  lemma CanonSorted(v: Json)
    requires WellFormed(v) && v.Object?
    ensures StrictlySorted(Canon(v).entries)
  {
    var sorted := SortByKey(v.entries);
    SortByKeySorted(v.entries);
    forall i | 0 <= i < |sorted| ensures CanonEntries(v, sorted)[i].key == sorted[i].key {
      CanonEntriesAt(v, sorted, i);
    }
  }

  ghost predicate SameShapes(v: Json, w: Json)
    requires v.Object? && w.Object?
  {
    && (forall x | x in v.entries :: exists y :: y in w.entries && Shape(x) == Shape(y))
    && (forall y | y in w.entries :: exists x :: x in v.entries && Shape(x) == Shape(y))
  }

  lemma ShapesIffCanon(v: Json, w: Json)
    requires WellFormed(v) && WellFormed(w) && v.Object? && w.Object?
    ensures SameShapes(v, w) <==> Canon(v) == Canon(w)
  {
    var a, b := Canon(v).entries, Canon(w).entries;
    if SameShapes(v, w) {
      CanonSorted(v);
      CanonSorted(w);
      forall c ensures c in a <==> c in b {
        if c in a {
          var x := CanonMember(v, c);
          var y :| y in w.entries && Shape(x) == Shape(y);
          CanonContains(w, y);
        }
        if c in b {
          var y := CanonMember(w, c);
          var x :| x in v.entries && Shape(x) == Shape(y);
          CanonContains(v, x);
        }
      }
      SortedUnique(a, b);
    }
    if a == b {
      forall x | x in v.entries ensures exists y :: y in w.entries && Shape(x) == Shape(y) {
        CanonContains(v, x);
        var y := CanonMember(w, Shape(x));
      }
      forall y | y in w.entries ensures exists x :: x in v.entries && Shape(x) == Shape(y) {
        CanonContains(w, y);
        var x := CanonMember(v, Shape(y));
      }
    }
  }

  /** Two values print alike exactly when they are the same value up to the order of object keys. */
  lemma EncodeInjective(v: Json, w: Json)
    requires WellFormed(v) && WellFormed(w)
    ensures Encode(v) == Encode(w) <==> Same(v, w)
  {
    SameCanon(v, w);
    ParseEncode(v, "");
    ParseEncode(w, "");
    assert Encode(v) + "" == Encode(v) && Encode(w) + "" == Encode(w);
    if Canon(v) == Canon(w) {
      EncodeCanon(v);
      EncodeCanon(w);
    }
  }

  /** Printing depends on the canonical form alone. */
  lemma {:induction false} EncodeCanon(v: Json)
    requires WellFormed(v)
    ensures WellFormed(Canon(v)) && Canon(Canon(v)) == Canon(v) && Encode(Canon(v)) == Encode(v)
    decreases v, 1, 0
  {
    match v
    case Array(items) =>
      EncodeCanonItems(v, items);
    case Object(entries) =>
      CanonSorted(v);
      var c := Canon(v);
      forall i, j | 0 <= i < j < |c.entries| ensures c.entries[i].key != c.entries[j].key {
        LessIrreflexive(c.entries[i].key);
      }
      SortByKeySorted(c.entries);
      SortedUnique(SortByKey(c.entries), c.entries);
      EncodeCanonEntries(v, SortByKey(entries));
    case _ =>
  }

  lemma {:induction false} EncodeCanonItems(v: Json, items: seq<Json>)
    requires v.Array? && WellFormed(v) && forall x | x in items :: x in v.items
    ensures var c := CanonItems(v, items);
      && (forall x | x in c :: WellFormed(x))
      && forall host: Json | host.Array? && (forall x | x in c :: x in host.items) ::
           CanonItems(host, c) == c && EncodeItems(host, c) == EncodeItems(v, items)
    decreases v, 0, |items|
  {
    if items != [] {
      assert items[0] in items;
      EncodeCanon(items[0]);
      EncodeCanonItems(v, items[1..]);
      var c := CanonItems(v, items);
      assert c[1..] == CanonItems(v, items[1..]);
    }
  }

  lemma {:induction false} EncodeCanonEntries(v: Json, entries: seq<Keyed<Json>>)
    requires v.Object? && WellFormed(v) && forall e | e in entries :: e in v.entries
    ensures var c := CanonEntries(v, entries);
      && (forall e | e in c :: WellFormed(e.value))
      && forall host: Json | host.Object? && (forall e | e in c :: e in host.entries) ::
           CanonEntries(host, c) == c && EncodeEntries(host, c) == EncodeEntries(v, entries)
    decreases v, 0, |entries|
  {
    if entries != [] {
      assert entries[0] in entries;
      EncodeCanon(entries[0].value);
      EncodeCanonEntries(v, entries[1..]);
      var c := CanonEntries(v, entries);
      assert c[1..] == CanonEntries(v, entries[1..]);
    }
  }

  lemma {:induction false} SameReflexive(v: Json)
    ensures Same(v, v)
    decreases v
  {
    match v
    case Array(items) =>
      forall i | 0 <= i < |items| ensures Same(items[i], items[i]) { SameReflexive(items[i]); }
    case Object(entries) =>
      forall x | x in entries ensures SameEntry(x, x) { SameReflexive(x.value); }
    case _ =>
  }

  /** The order in which an object's entries were written never changes what it prints as. */
  lemma KeyOrderIrrelevant(entries: seq<Keyed<Json>>, reordered: seq<Keyed<Json>>)
    requires WellFormed(Object(entries)) && WellFormed(Object(reordered))
    requires forall e :: e in entries <==> e in reordered
    ensures Encode(Object(entries)) == Encode(Object(reordered))
  {
    forall e | e in entries ensures SameEntry(e, e) { SameReflexive(e.value); }
    EncodeInjective(Object(entries), Object(reordered));
  }
}

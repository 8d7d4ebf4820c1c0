/**
 The RFC 8785 (JCS) serializer of canonicalizer/jcs.py.

 `Json` is a JSON value: an object is a map, so insertion order is not part of it. (Python's own
 `==` is coarser, since `True == 1`; the two have different bytes and are different values here.)
 `PyValue` is the value as Python holds it, an object being a list of members in insertion order;
 `InsertionOrderIrrelevant` relates the two serializers.
 */
module Jcs {
  import opened Wrappers
  import opened Encodings
  import opened Ordering
  import opened Decimals

  datatype Json =
    | Null
    | Bool(b: bool)
    | Num(n: int)
    | Float(x: real)
    | Str(s: string)
    | Arr(items: seq<Json>)
    | Obj(members: map<string, Json>)

  datatype JcsError = NonIntegerNumber | UnsafeInteger

  const MAX_SAFE_INTEGER := 0x1F_FFFF_FFFF_FFFF

  // ----- strings and numbers ----------------------------------------------------------

  function HexDigit(d: nat): char
    requires d < 16
  {
    "0123456789abcdef"[d]
  }

  /** The two-character escapes. */
  function ShortEscape(c: char): Option<string>
  {
    match c
    case '\U{0008}' => Some("\\b")
    case '\t' => Some("\\t")
    case '\n' => Some("\\n")
    case '\U{000C}' => Some("\\f")
    case '\r' => Some("\\r")
    case '\"' => Some("\\\"")
    case '\\' => Some("\\\\")
    case _ => None
  }

  function EscapeChar(c: char): string
  {
    var cp := c as int;
    match ShortEscape(c)
    case Some(short) => short
    case None => if cp < 0x20 then "\\u00" + [HexDigit(cp / 16), HexDigit(cp % 16)] else [c]
  }

  function Escape(s: string): string
  {
    if s == "" then "" else EscapeChar(s[0]) + Escape(s[1..])
  }

  function Quote(s: string): string
  {
    "\"" + Escape(s) + "\""
  }

  lemma {:induction false} EscapeSnoc(s: string, c: char)
    ensures Escape(s + [c]) == Escape(s) + EscapeChar(c)
  {
    if s == "" {
      assert s + [c] == [c] && [c][1..] == "";
    } else {
      EscapeSnoc(s[1..], c);
      assert (s + [c])[1..] == s[1..] + [c];
    }
  }

  // ----- what is written, character by character --------------------------------------

  /** `h` is the lower-case hexadecimal digit for `d`. */
  predicate IsHexDigit(h: char, d: int)
  {
    if d < 10 then h as int == '0' as int + d else h as int == 'a' as int + d - 10
  }

  /** How RFC 8785 writes one character (section 3.2.2.2). */
  predicate WritesChar(c: char, t: string)
  {
    match c as int
    case 0x08 => t == "\\b"
    case 0x09 => t == "\\t"
    case 0x0A => t == "\\n"
    case 0x0C => t == "\\f"
    case 0x0D => t == "\\r"
    case 0x22 => t == "\\\""
    case 0x5C => t == "\\\\"
    case cp =>
      if cp < 0x20 then |t| == 6 && t[..4] == "\\u00" && IsHexDigit(t[4], cp / 16) && IsHexDigit(t[5], cp % 16)
      else t == [c]
  }

  function Concat(chunks: seq<string>): string
  {
    if chunks == [] then "" else chunks[0] + Concat(chunks[1..])
  }

  /** The characters one after the other, in quotes. */
  ghost predicate WritesString(s: string, t: string)
  {
    exists chunks :: WrittenAs(s, chunks) && t == "\"" + Concat(chunks) + "\""
  }

  ghost predicate WrittenAs(s: string, chunks: seq<string>)
  {
    |chunks| == |s| && forall i | 0 <= i < |s| :: WritesChar(s[i], chunks[i])
  }

  lemma HexDigitIs(h: char, d: nat)
    requires d < 16
    ensures IsHexDigit(h, d) <==> h == HexDigit(d)
  {
    assert "0123456789abcdef"[d] as int == if d < 10 then '0' as int + d else 'a' as int + d - 10;
  }

  lemma CharIsWritten(c: char, t: string)
    ensures WritesChar(c, t) <==> t == EscapeChar(c)
  {
    var cp := c as int;
    if cp < 0x20 && ShortEscape(c).None? {
      HexDigitIs(HexDigit(cp / 16), cp / 16);
      HexDigitIs(HexDigit(cp % 16), cp % 16);
      if WritesChar(c, t) {
        HexDigitIs(t[4], cp / 16);
        HexDigitIs(t[5], cp % 16);
        assert t == t[..4] + [t[4]] + [t[5]];
      }
    }
  }

  lemma {:induction false} ChunksEscape(s: string, chunks: seq<string>)
    requires WrittenAs(s, chunks)
    ensures Concat(chunks) == Escape(s)
  {
    if s != "" {
      CharIsWritten(s[0], chunks[0]);
      ChunksEscape(s[1..], chunks[1..]);
    }
  }

  lemma {:induction false} EscapeHasChunks(s: string) returns (chunks: seq<string>)
    ensures WrittenAs(s, chunks)
  {
    chunks := [];
    if s != "" {
      var rest := EscapeHasChunks(s[1..]);
      CharIsWritten(s[0], EscapeChar(s[0]));
      chunks := [EscapeChar(s[0])] + rest;
    }
  }

  /** The quoted text is the one the relation allows. */
  lemma StringIsWritten(s: string, t: string)
    ensures WritesString(s, t) <==> t == Quote(s)
  {
    if chunks :| WrittenAs(s, chunks) && t == "\"" + Concat(chunks) + "\"" {
      ChunksEscape(s, chunks);
    }
    var chunks := EscapeHasChunks(s);
    ChunksEscape(s, chunks);
  }

  /** The character loop of `_serialize_string`. */
  method SerializeString(s: string) returns (out: string)
    ensures out == Quote(s)
    ensures forall t :: WritesString(s, t) <==> t == out
  {
    out := "\"";
    for i := 0 to |s|
      invariant out == "\"" + Escape(s[..i])
    {
      var c := s[i];
      var cp := c as int;
      var short := ShortEscape(c);
      if short.Some? {
        out := out + short.value;
      } else if cp < 0x20 {
        out := out + "\\u00" + [HexDigit(cp / 16), HexDigit(cp % 16)];
      } else {
        out := out + [c];
      }
      EscapeSnoc(s[..i], c);
      assert s[..i + 1] == s[..i] + [c];
    }
    assert s[..|s|] == s;
    out := out + "\"";
    forall t ensures WritesString(s, t) <==> t == out {
      StringIsWritten(s, t);
    }
  }

  function SerializeNumber(n: int): Result<string, JcsError>
  {
    if n > MAX_SAFE_INTEGER || -n > MAX_SAFE_INTEGER then Err(UnsafeInteger) else Ok(Decimal(n))
  }

  // ----- values -----------------------------------------------------------------------

  function SortedKeys(keys: set<string>): (r: seq<string>)
    ensures Ascending(KeyLess, r)
    ensures forall k :: k in r <==> k in keys
  {
    KeyOrderStrictTotal();
    Enumerate(KeyLess, keys)
  }

  function Serialize(v: Json): Result<string, JcsError>
    decreases v
  {
    match v
    case Null => Ok("null")
    case Bool(b) => Ok(if b then "true" else "false")
    case Str(s) => Ok(Quote(s))
    case Float(_) => Err(NonIntegerNumber)
    case Num(n) => SerializeNumber(n)
    case Arr(items) =>
      var body :- SerializeItems(items, v);
      Ok("[" + body + "]")
    case Obj(members) =>
      var body :- SerializeMembers(SortedKeys(members.Keys), v);
      Ok("{" + body + "}")
  }

  function SerializeItems(items: seq<Json>, ghost parent: Json): Result<string, JcsError>
    requires forall i | 0 <= i < |items| :: items[i] < parent
    decreases parent, |items|
  {
    if items == [] then Ok("")
    else
      var first :- Serialize(items[0]);
      if |items| == 1 then Ok(first)
      else
        var rest :- SerializeItems(items[1..], parent);
        Ok(first + "," + rest)
  }

  function SerializeMembers(keys: seq<string>, obj: Json): Result<string, JcsError>
    requires obj.Obj? && forall k | k in keys :: k in obj.members
    decreases obj, |keys|
  {
    if keys == [] then Ok("")
    else
      var value :- Serialize(obj.members[keys[0]]);
      var first := Quote(keys[0]) + ":" + value;
      if |keys| == 1 then Ok(first)
      else
        var rest :- SerializeMembers(keys[1..], obj);
        Ok(first + "," + rest)
  }

  /** `canonicalize`: the UTF-8 bytes of the canonical text. */
  function Canonicalize(v: Json): Result<seq<Byte>, JcsError>
  {
    var text :- Serialize(v);
    Ok(Utf8(text))
  }

  // ----- insertion-ordered values -----------------------------------------------------

  datatype Member = Member(key: string, value: PyValue)

  datatype PyValue =
    | PyNone
    | PyBool(b: bool)
    | PyInt(n: int)
    | PyFloat(x: real)
    | PyStr(s: string)
    | PyList(items: seq<PyValue>)
    | PyDict(members: seq<Member>)

  ghost predicate UniqueKeys(members: seq<Member>)
  {
    forall i, j | 0 <= i < j < |members| :: members[i].key != members[j].key
  }

  /** A Python dict holds each key once, at every depth. */
  ghost predicate WellFormed(v: PyValue)
  {
    match v
    case PyList(items) => forall i | 0 <= i < |items| :: WellFormed(items[i])
    case PyDict(members) => UniqueKeys(members) && forall i | 0 <= i < |members| :: WellFormed(members[i].value)
    case _ => true
  }

  /** Insertion into a list already sorted by `_utf16_sort_key`. */
  function InsertMember(m: Member, sorted: seq<Member>): (r: seq<Member>)
    ensures multiset(r) == multiset(sorted) + multiset{m}
  {
    if sorted == [] || KeyLess(m.key, sorted[0].key) then
      [m] + sorted
    else
      assert sorted == [sorted[0]] + sorted[1..];
      [sorted[0]] + InsertMember(m, sorted[1..])
  }

  /** `sorted(value.items(), key=_utf16_sort_key)`. */
  function SortMembers(members: seq<Member>): (r: seq<Member>)
    ensures multiset(r) == multiset(members)
  {
    if members == [] then []
    else
      assert members == [members[0]] + members[1..];
      InsertMember(members[0], SortMembers(members[1..]))
  }

  function PySerialize(v: PyValue): Result<string, JcsError>
    decreases v
  {
    match v
    case PyNone => Ok("null")
    case PyBool(b) => Ok(if b then "true" else "false")
    case PyStr(s) => Ok(Quote(s))
    case PyFloat(_) => Err(NonIntegerNumber)
    case PyInt(n) => SerializeNumber(n)
    case PyList(items) =>
      var body :- PySerializeItems(items, v);
      Ok("[" + body + "]")
    case PyDict(members) =>
      var sorted := SortMembers(members);
      SortKeepsMembers(members);
      var body :- PySerializeMembers(sorted, v);
      Ok("{" + body + "}")
  }

  function PySerializeItems(items: seq<PyValue>, ghost parent: PyValue): Result<string, JcsError>
    requires forall i | 0 <= i < |items| :: items[i] < parent
    decreases parent, |items|
  {
    if items == [] then Ok("")
    else
      var first :- PySerialize(items[0]);
      if |items| == 1 then Ok(first)
      else
        var rest :- PySerializeItems(items[1..], parent);
        Ok(first + "," + rest)
  }

  function PySerializeMembers(members: seq<Member>, ghost parent: PyValue): Result<string, JcsError>
    requires forall i | 0 <= i < |members| :: members[i].value < parent
    decreases parent, |members|
  {
    if members == [] then Ok("")
    else
      var value :- PySerialize(members[0].value);
      var first := Quote(members[0].key) + ":" + value;
      if |members| == 1 then Ok(first)
      else
        var rest :- PySerializeMembers(members[1..], parent);
        Ok(first + "," + rest)
  }

  /** The JSON value of a Python value: a dict as a map. */
  function Denote(v: PyValue): Json
    decreases v
  {
    match v
    case PyNone => Null
    case PyBool(b) => Bool(b)
    case PyInt(n) => Num(n)
    case PyFloat(x) => Float(x)
    case PyStr(s) => Str(s)
    case PyList(items) => Arr(seq(|items|, i requires 0 <= i < |items| => Denote(items[i])))
    case PyDict(members) => Obj(DenoteMembers(members, v))
  }

  function DenoteMembers(members: seq<Member>, ghost parent: PyValue): map<string, Json>
    requires forall i | 0 <= i < |members| :: members[i].value < parent
    decreases parent, |members|
  {
    if members == [] then map[]
    else DenoteMembers(members[1..], parent)[members[0].key := Denote(members[0].value)]
  }

  // ----- sorting ----------------------------------------------------------------------

  lemma SortKeepsMembers(members: seq<Member>)
    ensures |SortMembers(members)| == |members|
    ensures forall m :: m in SortMembers(members) <==> m in members
    ensures forall i | 0 <= i < |SortMembers(members)| :: SortMembers(members)[i] in members
  {
    var r := SortMembers(members);
    assert multiset(r) == multiset(members);
    assert |multiset(r)| == |r| && |multiset(members)| == |members|;
    forall m ensures m in r <==> m in members {
      assert m in r <==> m in multiset(r);
    }
  }
}

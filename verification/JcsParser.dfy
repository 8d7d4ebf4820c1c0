/**
 A reader for canonical text, and the round trip through it: the serializer is injective on
 values of any depth, down to the bytes that are hashed and signed.
 */
module JcsParser {
  import opened Wrappers
  import opened Encodings
  import opened Ordering
  import opened Decimals
  import opened Jcs
  import opened JcsOrder

  type Parsed<T> = Option<(T, string)>

  // ----- the reader -------------------------------------------------------------------

  function HexValue(c: char): Option<nat>
  {
    if '0' <= c <= '9' then Some(c as int - '0' as int)
    else if 'a' <= c <= 'f' then Some(c as int - 'a' as int + 10)
    else None
  }

  function HexScalar(s: string): Option<char>
    requires |s| == 4
  {
    var a :- HexValue(s[0]);
    var b :- HexValue(s[1]);
    var c :- HexValue(s[2]);
    var d :- HexValue(s[3]);
    Scalar(((a * 16 + b) * 16 + c) * 16 + d)
  }

  function Unescape(c: char): Option<char>
  {
    match c
    case 'b' => Some('\U{0008}')
    case 't' => Some('\t')
    case 'n' => Some('\n')
    case 'f' => Some('\U{000C}')
    case 'r' => Some('\r')
    case '\"' => Some('\"')
    case '\\' => Some('\\')
    case _ => None
  }

  /** One possibly escaped character of a string body, and what follows it. */
  function ParseChar(s: string): (r: Parsed<char>)
    requires s != ""
    ensures r.Some? ==> |r.value.1| < |s|
  {
    if s[0] != '\\' then Some((s[0], s[1..]))
    else if |s| >= 6 && s[1] == 'u' then
      var c :- HexScalar(s[2..6]);
      Some((c, s[6..]))
    else if |s| >= 2 then
      var c :- Unescape(s[1]);
      Some((c, s[2..]))
    else None
  }

  /** The body of a string up to and including its closing quote. */
  function ParseChars(s: string): (r: Parsed<string>)
    ensures r.Some? ==> |r.value.1| < |s|
    decreases |s|
  {
    if s == "" then None
    else if s[0] == '\"' then Some(("", s[1..]))
    else
      var (c, rest) :- ParseChar(s);
      var (t, rest') :- ParseChars(rest);
      Some(([c] + t, rest'))
  }

  function DigitRun(s: string): (n: nat)
    ensures n <= |s| && AllDigits(s[..n])
  {
    if s == "" || !IsDigit(s[0]) then 0 else 1 + DigitRun(s[1..])
  }

  function ParseNumber(s: string): (r: Parsed<Json>)
    ensures r.Some? ==> |r.value.1| < |s|
  {
    var negative := s != "" && s[0] == '-';
    var t := if negative then s[1..] else s;
    var n := DigitRun(t);
    if n == 0 then None
    else
      var value: int := DigitsValue(t[..n]);
      Some((Num(if negative then -value else value), t[n..]))
  }

  function ParseValue(s: string): (r: Parsed<Json>)
    ensures r.Some? ==> |r.value.1| < |s|
    decreases |s|, 0
  {
    if s == "" then None
    else if s[0] == '\"' then
      var (t, rest) :- ParseChars(s[1..]);
      Some((Str(t), rest))
    else if s[0] == '[' then
      if |s| > 1 && s[1] == ']' then Some((Arr([]), s[2..]))
      else
        var (items, rest) :- ParseItems(s[1..]);
        Some((Arr(items), rest))
    else if s[0] == '{' then
      if |s| > 1 && s[1] == '}' then Some((Obj(map[]), s[2..]))
      else
        var (members, rest) :- ParseMembers(s[1..]);
        Some((Obj(members), rest))
    else if s[0] == '-' || IsDigit(s[0]) then ParseNumber(s)
    else if "null" <= s then Some((Null, s[4..]))
    else if "true" <= s then Some((Bool(true), s[4..]))
    else if "false" <= s then Some((Bool(false), s[5..]))
    else None
  }

  function ParseItems(s: string): (r: Parsed<seq<Json>>)
    ensures r.Some? ==> |r.value.1| < |s|
    decreases |s|, 1
  {
    var (first, rest) :- ParseValue(s);
    if rest == "" then None
    else if rest[0] == ']' then Some(([first], rest[1..]))
    else if rest[0] == ',' then
      var (items, rest') :- ParseItems(rest[1..]);
      Some(([first] + items, rest'))
    else None
  }

  /** A quoted key and the colon after it. */
  function ParseKey(s: string): (r: Parsed<string>)
    ensures r.Some? ==> |r.value.1| < |s|
  {
    if s == "" || s[0] != '\"' then None
    else
      var (key, rest) :- ParseChars(s[1..]);
      if rest == "" || rest[0] != ':' then None else Some((key, rest[1..]))
  }

  function ParseMembers(s: string): (r: Parsed<map<string, Json>>)
    ensures r.Some? ==> |r.value.1| < |s|
    decreases |s|, 1
  {
    var (key, rest) :- ParseKey(s);
    var (value, rest') :- ParseValue(rest);
    if rest' == "" then None
    else if rest'[0] == '}' then Some((map[key := value], rest'[1..]))
    else if rest'[0] == ',' then
      var (members, rest'') :- ParseMembers(rest'[1..]);
      Some((members[key := value], rest''))
    else None
  }

  /** A whole canonical document, from its bytes. */
  function ParseCanonical(bytes: seq<Byte>): Option<Json>
  {
    var text :- DecodeUtf8(bytes);
    var (v, rest) :- ParseValue(text);
    if rest == "" then Some(v) else None
  }

  // ----- strings ----------------------------------------------------------------------

  lemma HexDigitValue(d: nat)
    requires d < 16
    ensures HexValue(HexDigit(d)) == Some(d)
  {
  }

  /** No escape is a prefix of another: the reader gets back the one character written. */
  lemma ParseEscapedChar(c: char, rest: string)
    ensures ParseChar(EscapeChar(c) + rest) == Some((c, rest))
    ensures EscapeChar(c)[0] != '\"'
  {
    var e, s := EscapeChar(c), EscapeChar(c) + rest;
    var cp := c as int;
    if ShortEscape(c).None? && cp < 0x20 {
      HexDigitValue(cp / 16);
      HexDigitValue(cp % 16);
      HexDigitValue(0);
      assert s[2..6] == ['0', '0', HexDigit(cp / 16), HexDigit(cp % 16)];
      assert HexScalar(s[2..6]) == Some(c);
      assert s[6..] == rest;
    } else if ShortEscape(c).Some? {
      assert s[2..] == rest;
    } else {
      assert s[1..] == rest;
    }
  }

  lemma {:induction false} ParseEscaped(t: string, rest: string)
    ensures ParseChars(Escape(t) + "\"" + rest) == Some((t, rest))
  {
    var s := Escape(t) + "\"" + rest;
    if t == "" {
      assert s[1..] == rest;
    } else {
      var tail := Escape(t[1..]) + "\"" + rest;
      assert s == EscapeChar(t[0]) + tail;
      ParseEscapedChar(t[0], tail);
      ParseEscaped(t[1..], rest);
      assert [t[0]] + t[1..] == t;
    }
  }

  lemma ParseQuoted(t: string, rest: string)
    ensures (Quote(t) + rest)[0] == '\"'
    ensures ParseChars((Quote(t) + rest)[1..]) == Some((t, rest))
  {
    ParseEscaped(t, rest);
    assert (Quote(t) + rest)[1..] == Escape(t) + "\"" + rest;
  }

  // ----- numbers ----------------------------------------------------------------------

  /** What may follow a value inside a document: anything but a further digit. */
  predicate Delimited(rest: string)
  {
    rest == "" || !IsDigit(rest[0])
  }

  lemma {:induction false} DigitRunOf(d: string, rest: string)
    requires AllDigits(d) && Delimited(rest)
    ensures DigitRun(d + rest) == |d|
  {
    if d == "" {
      assert d + rest == rest;
    } else {
      DigitRunOf(d[1..], rest);
      assert (d + rest)[1..] == d[1..] + rest;
    }
  }

  lemma ParseDecimal(n: int, rest: string)
    requires Delimited(rest)
    ensures ParseNumber(Decimal(n) + rest) == Some((Num(n), rest))
  {
    var magnitude: nat := if n < 0 then -n else n;
    var d := Digits(magnitude);
    DigitRunOf(d, rest);
    DigitsRoundTrip(magnitude);
    var s := Decimal(n) + rest;
    var t := if n < 0 then s[1..] else s;
    assert t == d + rest;
    assert t[..|d|] == d && t[|d|..] == rest;
  }

  // ----- values -----------------------------------------------------------------------

  lemma {:induction false} RoundTripItems(items: seq<Json>, parent: Json, rest: string)
    requires items != [] && forall i | 0 <= i < |items| :: items[i] < parent
    requires SerializeItems(items, parent).Ok?
    ensures ParseItems(SerializeItems(items, parent).value + "]" + rest) == Some((items, rest))
    decreases parent, |items|
  {
    var first := Serialize(items[0]).value;
    var s := SerializeItems(items, parent).value + "]" + rest;
    if |items| == 1 {
      var after := "]" + rest;
      assert s == first + after;
      RoundTripValue(items[0], after);
      assert after[1..] == rest && items == [items[0]];
    } else {
      var tail := SerializeItems(items[1..], parent).value + "]" + rest;
      var after := "," + tail;
      assert s == first + after;
      RoundTripValue(items[0], after);
      RoundTripItems(items[1..], parent, rest);
      assert after[1..] == tail;
      assert items == [items[0]] + items[1..];
    }
  }

  function Select(keys: seq<string>, m: map<string, Json>): map<string, Json>
    requires forall k | k in keys :: k in m
  {
    map k | k in keys :: m[k]
  }

  lemma ParseQuotedKey(key: string, tail: string)
    ensures ParseKey(Quote(key) + ":" + tail) == Some((key, tail))
  {
    var colon := ":" + tail;
    assert Quote(key) + ":" + tail == Quote(key) + colon;
    ParseQuoted(key, colon);
    assert colon[1..] == tail;
  }

  lemma SelectFirst(keys: seq<string>, m: map<string, Json>)
    requires keys != [] && forall k | k in keys :: k in m
    ensures Select(keys, m) == Select(keys[1..], m)[keys[0] := m[keys[0]]]
  {
    assert keys == [keys[0]] + keys[1..];
  }

  /** One member read back: its key, its value, then either the closing brace or the remaining members. */
  lemma ParseMember(key: string, text: string, value: Json, after: string)
    requires after != "" && ParseValue(text + after) == Some((value, after))
    ensures var members := ParseMembers(Quote(key) + ":" + text + after);
            && (after[0] == '}' ==> members == Some((map[key := value], after[1..])))
            && (after[0] == ',' ==>
                  members == match ParseMembers(after[1..])
                             case None => None
                             case Some((rest, tail)) => Some((rest[key := value], tail)))
  {
    ParseQuotedKey(key, text + after);
    assert Quote(key) + ":" + text + after == Quote(key) + ":" + (text + after);
  }

  lemma Reassociate(first: string, sep: string, body: string, close: string, rest: string)
    ensures first + close + rest == first + (close + rest)
    ensures first + sep + body + close + rest == first + (sep + (body + close + rest))
  {
  }

  lemma {:induction false} RoundTripMembers(keys: seq<string>, obj: Json, rest: string)
    requires obj.Obj? && keys != [] && forall k | k in keys :: k in obj.members
    requires SerializeMembers(keys, obj).Ok?
    ensures ParseMembers(SerializeMembers(keys, obj).value + "}" + rest) == Some((Select(keys, obj.members), rest))
    decreases obj, |keys|
  {
    var key, value := keys[0], obj.members[keys[0]];
    var text := Serialize(value).value;
    var first := Quote(key) + ":" + text;
    SelectFirst(keys, obj.members);
    if |keys| == 1 {
      Reassociate(first, "", "", "}", rest);
      var after := "}" + rest;
      RoundTripValue(value, after);
      ParseMember(key, text, value, after);
      assert after[1..] == rest;
    } else {
      var body := SerializeMembers(keys[1..], obj).value;
      Reassociate(first, ",", body, "}", rest);
      var after := "," + (body + "}" + rest);
      RoundTripValue(value, after);
      RoundTripMembers(keys[1..], obj, rest);
      ParseMember(key, text, value, after);
      assert after[1..] == body + "}" + rest;
    }
  }

  lemma RoundTripAtom(v: Json, rest: string)
    requires !v.Arr? && !v.Obj? && Serialize(v).Ok? && Delimited(rest)
    ensures ParseValue(Serialize(v).value + rest) == Some((v, rest))
  {
    var s := Serialize(v).value + rest;
    match v
    case Null => assert s[0] == 'n' && s[..4] == "null" && s[4..] == rest;
    case Bool(b) =>
      if b {
        assert s[0] == 't' && s[..4] == "true" && s[4..] == rest;
      } else {
        assert s[0] == 'f' && s[..5] == "false" && s[5..] == rest;
      }
    case Str(t) => ParseQuoted(t, rest);
    case Num(n) =>
      ParseDecimal(n, rest);
      assert s[0] == '-' || IsDigit(s[0]);
  }

  /** A bracketed body that does not close at once is read as that body. */
  lemma ParseBracketed(body: string, rest: string)
    requires body != "" && body[0] != ']' && body[0] != '}'
    ensures ParseItems(body + "]" + rest).Some? ==>
              ParseValue("[" + body + "]" + rest) ==
              Some((Arr(ParseItems(body + "]" + rest).value.0), ParseItems(body + "]" + rest).value.1))
    ensures ParseMembers(body + "}" + rest).Some? ==>
              ParseValue("{" + body + "}" + rest) ==
              Some((Obj(ParseMembers(body + "}" + rest).value.0), ParseMembers(body + "}" + rest).value.1))
  {
    assert ("[" + body + "]" + rest)[1..] == body + "]" + rest;
    assert ("{" + body + "}" + rest)[1..] == body + "}" + rest;
  }

  lemma ParseEmpty(rest: string)
    ensures ParseValue("[" + "" + "]" + rest) == Some((Arr([]), rest))
    ensures ParseValue("{" + "" + "}" + rest) == Some((Obj(map[]), rest))
  {
    assert ("[" + "" + "]" + rest)[2..] == rest;
    assert ("{" + "" + "}" + rest)[2..] == rest;
  }

  /** Reading back a serialized value gives that value and leaves what followed it. */
  lemma {:induction false} RoundTripValue(v: Json, rest: string)
    requires Serialize(v).Ok? && Delimited(rest)
    ensures ParseValue(Serialize(v).value + rest) == Some((v, rest))
    decreases v
  {
    match v
    case Arr(items) =>
      if items == [] {
        ParseEmpty(rest);
      } else {
        RoundTripItems(items, v, rest);
        FirstOfItems(items, v);
        ParseBracketed(SerializeItems(items, v).value, rest);
      }
    case Obj(members) =>
      var keys := SortedKeys(members.Keys);
      assert keys == [] <==> members == map[] by {
        assert keys != [] ==> keys[0] in members.Keys;
        assert keys == [] ==> forall k :: k !in members.Keys;
      }
      if keys == [] {
        ParseEmpty(rest);
      } else {
        RoundTripMembers(keys, v, rest);
        FirstOfMembers(keys, v);
        ParseBracketed(SerializeMembers(keys, v).value, rest);
        assert Select(keys, members) == members;
      }
    case _ =>
      RoundTripAtom(v, rest);
  }

  lemma FirstOfMembers(keys: seq<string>, obj: Json)
    requires obj.Obj? && keys != [] && forall k | k in keys :: k in obj.members
    requires SerializeMembers(keys, obj).Ok?
    ensures SerializeMembers(keys, obj).value != "" && SerializeMembers(keys, obj).value[0] == '\"'
  {
    assert Quote(keys[0])[0] == '\"';
  }

  lemma FirstOfValue(v: Json)
    requires Serialize(v).Ok?
    ensures Serialize(v).value != "" && Serialize(v).value[0] != ']' && Serialize(v).value[0] != '}'
  {
    if v.Num? {
      assert Decimal(v.n)[0] == '-' || IsDigit(Decimal(v.n)[0]);
    }
  }

  lemma FirstOfItems(items: seq<Json>, parent: Json)
    requires items != [] && forall i | 0 <= i < |items| :: items[i] < parent
    requires SerializeItems(items, parent).Ok?
    ensures var body := SerializeItems(items, parent).value; body != "" && body[0] != ']' && body[0] != '}'
  {
    FirstOfValue(items[0]);
  }

  // ----- the theorems -----------------------------------------------------------------

  /** The bytes of a value read back as that value. */
  lemma CanonicalRoundTrip(v: Json)
    requires Canonicalize(v).Ok?
    ensures ParseCanonical(Canonicalize(v).value) == Some(v)
  {
    var text := Serialize(v).value;
    Utf8RoundTrip(text);
    RoundTripValue(v, "");
    assert text + "" == text;
  }

  /** Equal canonical bytes, equal values. */
  lemma CanonicalInjective(v: Json, w: Json)
    requires Canonicalize(v).Ok? && Canonicalize(v) == Canonicalize(w)
    ensures v == w
  {
    CanonicalRoundTrip(v);
    CanonicalRoundTrip(w);
  }

  /** Exactly the values without a float or an unsafe integer, at any depth, are accepted. */
  ghost predicate InDomain(v: Json)
  {
    match v
    case Float(_) => false
    case Num(n) => -MAX_SAFE_INTEGER <= n <= MAX_SAFE_INTEGER
    case Arr(items) => forall i | 0 <= i < |items| :: InDomain(items[i])
    case Obj(members) => forall k | k in members :: InDomain(members[k])
    case _ => true
  }

  lemma {:induction false} ItemsDomain(items: seq<Json>, parent: Json)
    requires forall i | 0 <= i < |items| :: items[i] < parent
    ensures SerializeItems(items, parent).Ok? <==> forall i | 0 <= i < |items| :: InDomain(items[i])
    decreases parent, |items|
  {
    if items != [] {
      SerializeDomain(items[0]);
      ItemsDomain(items[1..], parent);
      assert forall i | 0 < i < |items| :: items[i] == items[1..][i - 1];
      assert (forall i | 0 <= i < |items| :: InDomain(items[i])) <==>
        InDomain(items[0]) && forall i | 0 <= i < |items[1..]| :: InDomain(items[1..][i]);
    }
  }

  lemma {:induction false} MembersDomain(keys: seq<string>, obj: Json)
    requires obj.Obj? && forall k | k in keys :: k in obj.members
    ensures SerializeMembers(keys, obj).Ok? <==> forall k | k in keys :: InDomain(obj.members[k])
    decreases obj, |keys|
  {
    if keys != [] {
      SerializeDomain(obj.members[keys[0]]);
      MembersDomain(keys[1..], obj);
      assert keys == [keys[0]] + keys[1..];
    }
  }

  lemma {:induction false} SerializeDomain(v: Json)
    ensures Serialize(v).Ok? <==> InDomain(v)
    decreases v
  {
    match v
    case Arr(items) => ItemsDomain(items, v);
    case Obj(members) => MembersDomain(SortedKeys(members.Keys), v);
    case _ =>
  }

  function PyCanonicalize(v: PyValue): Result<seq<Byte>, JcsError>
  {
    var text :- PySerialize(v);
    Ok(Utf8(text))
  }

  /**
   Two Python values get the same canonical bytes exactly when they are the same value up to
   insertion order, and a value gets bytes exactly when it is in the serializer's domain.
   */
  lemma CanonicalEquality(v: PyValue, w: PyValue)
    requires WellFormed(v) && WellFormed(w)
    ensures PyCanonicalize(v).Ok? <==> InDomain(Denote(v))
    ensures PyCanonicalize(v).Ok? && PyCanonicalize(w).Ok? ==>
              (PyCanonicalize(v) == PyCanonicalize(w) <==> Denote(v) == Denote(w))
  {
    InsertionOrderIrrelevant(v);
    InsertionOrderIrrelevant(w);
    SerializeDomain(Denote(v));
    if PyCanonicalize(v).Ok? && PyCanonicalize(v) == PyCanonicalize(w) {
      CanonicalInjective(Denote(v), Denote(w));
    }
  }

  // ----- the alphabet of canonical text -----------------------------------------------

  /** No control character, and so no NUL. */
  ghost predicate Printable(s: string)
  {
    forall i | 0 <= i < |s| :: s[i] >= ' '
  }

  lemma {:induction false} EscapePrintable(s: string)
    ensures Printable(Escape(s))
  {
    if s != "" {
      EscapePrintable(s[1..]);
      assert Printable(EscapeChar(s[0]));
    }
  }

  lemma {:induction false} DigitsPrintable(n: nat)
    ensures Printable(Digits(n))
  {
    assert forall i | 0 <= i < |Digits(n)| :: IsDigit(Digits(n)[i]);
  }

  lemma {:induction false} ItemsPrintable(items: seq<Json>, parent: Json)
    requires forall i | 0 <= i < |items| :: items[i] < parent
    requires SerializeItems(items, parent).Ok?
    ensures Printable(SerializeItems(items, parent).value)
    decreases parent, |items|
  {
    if items != [] {
      SerializePrintable(items[0]);
      if |items| > 1 {
        ItemsPrintable(items[1..], parent);
      }
    }
  }

  lemma {:induction false} MembersPrintable(keys: seq<string>, obj: Json)
    requires obj.Obj? && forall k | k in keys :: k in obj.members
    requires SerializeMembers(keys, obj).Ok?
    ensures Printable(SerializeMembers(keys, obj).value)
    decreases obj, |keys|
  {
    if keys != [] {
      EscapePrintable(keys[0]);
      SerializePrintable(obj.members[keys[0]]);
      if |keys| > 1 {
        MembersPrintable(keys[1..], obj);
      }
    }
  }

  lemma {:induction false} SerializePrintable(v: Json)
    requires Serialize(v).Ok?
    ensures Printable(Serialize(v).value)
    decreases v
  {
    match v
    case Str(s) => EscapePrintable(s);
    case Num(n) => DigitsPrintable(if n < 0 then -n else n);
    case Arr(items) => ItemsPrintable(items, v);
    case Obj(members) => MembersPrintable(SortedKeys(members.Keys), v);
    case _ =>
  }
}

/**
 Canonical text as RFC 8785 defines it, as a relation between a value and a text, and that the
 serializer writes exactly that text.
 */
module JcsText {
  import opened Wrappers
  import opened Encodings
  import opened Ordering
  import opened Decimals
  import opened Jcs
  import opened JcsOrder

  // ----- the relation -----------------------------------------------------------------

  function CommaJoin(parts: seq<string>): string
  {
    if parts == [] then "" else if |parts| == 1 then parts[0] else parts[0] + "," + CommaJoin(parts[1..])
  }

  /** The first difference decides, and a proper prefix comes first. */
  ghost predicate UnitsBefore(u: seq<int>, v: seq<int>)
  {
    exists k :: 0 <= k <= |u| && FirstDifference(u, v, k)
  }

  ghost predicate FirstDifference(u: seq<int>, v: seq<int>, k: nat)
    requires k <= |u|
  {
    k < |v| && u[..k] == v[..k] && (k < |u| ==> u[k] < v[k])
  }

  /** The keys of an object, each once, by UTF-16 code units (section 3.2.3). */
  ghost predicate InMemberOrder(keys: seq<string>, all: set<string>)
  {
    && (forall k :: k in keys <==> k in all)
    && (forall i, j | 0 <= i < j < |keys| :: UnitsBefore(Utf16(keys[i]), Utf16(keys[j])))
  }

  ghost predicate WritesKeyed(key: string, valueText: string, part: string)
  {
    exists quoted :: WritesString(key, quoted) && part == quoted + ":" + valueText
  }

  /** `text` is the canonical text of `v`; a value outside the domain has none. */
  ghost predicate Writes(v: Json, text: string)
    decreases v, 1
  {
    match v
    case Null => text == "null"
    case Bool(b) => text == if b then "true" else "false"
    case Float(_) => false
    case Num(n) => -9_007_199_254_740_991 <= n <= 9_007_199_254_740_991 && WritesInteger(n, text)
    case Str(s) => WritesString(s, text)
    case Arr(items) => exists parts :: WritesItems(v, parts) && text == "[" + CommaJoin(parts) + "]"
    case Obj(members) =>
      exists keys, texts, parts :: WritesMembers(v, keys, texts, parts) && text == "{" + CommaJoin(parts) + "}"
  }

  ghost predicate WritesItems(v: Json, parts: seq<string>)
    requires v.Arr?
    decreases v, 0
  {
    |parts| == |v.items| && forall i | 0 <= i < |parts| :: Writes(v.items[i], parts[i])
  }

  ghost predicate WritesMembers(v: Json, keys: seq<string>, texts: seq<string>, parts: seq<string>)
    requires v.Obj?
    decreases v, 0
  {
    && InMemberOrder(keys, v.members.Keys) && |texts| == |keys| == |parts|
    && (forall i | 0 <= i < |keys| :: keys[i] in v.members && Writes(v.members[keys[i]], texts[i]))
    && (forall i | 0 <= i < |keys| :: WritesKeyed(keys[i], texts[i], parts[i]))
  }

  // ----- member order -----------------------------------------------------------------

  lemma {:induction false} LexLessIsFirstDifference(u: seq<int>, v: seq<int>)
    ensures LexLess(u, v) <==> UnitsBefore(u, v)
  {
    if u == [] {
      assert v != [] ==> FirstDifference(u, v, 0);
    } else if v != [] {
      LexLessIsFirstDifference(u[1..], v[1..]);
      if u[0] < v[0] {
        assert FirstDifference(u, v, 0);
      } else if u[0] == v[0] {
        if k :| 0 <= k <= |u[1..]| && FirstDifference(u[1..], v[1..], k) {
          LongerPrefix(u, v, k, k + 1);
        }
      }
      if k :| 0 <= k <= |u| && FirstDifference(u, v, k) && k > 0 {
        assert u[..k][0] == v[..k][0];
        LongerPrefix(u, v, k - 1, k);
      }
    }
  }

  lemma LongerPrefix(u: seq<int>, v: seq<int>, k: nat, n: nat)
    requires u != [] && v != [] && u[0] == v[0] && n == k + 1 && n <= |u|
    ensures FirstDifference(u[1..], v[1..], k) <==> FirstDifference(u, v, n)
  {
    if n < |v| {
      assert u[..n] == [u[0]] + u[1..][..k] && v[..n] == [v[0]] + v[1..][..k];
    }
  }

  lemma MemberOrderIsSorted(keys: seq<string>, all: set<string>)
    ensures InMemberOrder(keys, all) <==> keys == SortedKeys(all)
  {
    KeyOrderStrictTotal();
    var sorted := SortedKeys(all);
    forall i, j | 0 <= i < j < |sorted| ensures UnitsBefore(Utf16(sorted[i]), Utf16(sorted[j])) {
      KeyBefore(sorted[i], sorted[j]);
    }
    if InMemberOrder(keys, all) {
      forall i, j | 0 <= i < j < |keys| ensures KeyLess(keys[i], keys[j]) {
        KeyBefore(keys[i], keys[j]);
      }
      AscendingUnique(KeyLess, keys, sorted);
    }
  }

  lemma KeyBefore(a: string, b: string)
    ensures KeyLess(a, b) <==> UnitsBefore(Utf16(a), Utf16(b))
  {
    KeyOrderIsUnitOrder(a, b);
    LexLessIsFirstDifference(Utf16(a), Utf16(b));
  }

  // ----- the serializer and the relation ----------------------------------------------

  lemma KeyedIsWritten(key: string, valueText: string, part: string)
    ensures WritesKeyed(key, valueText, part) <==> part == Quote(key) + ":" + valueText
  {
    StringIsWritten(key, Quote(key));
    if quoted :| WritesString(key, quoted) && part == quoted + ":" + valueText {
      StringIsWritten(key, quoted);
    }
  }

  /** The texts of the items determine the body. */
  lemma {:induction false} ItemsAreWritten(items: seq<Json>, parent: Json, parts: seq<string>)
    requires |parts| == |items| && forall i | 0 <= i < |items| :: items[i] < parent
    requires forall i | 0 <= i < |items| :: Serialize(items[i]) == Ok(parts[i])
    ensures SerializeItems(items, parent) == Ok(CommaJoin(parts))
  {
    if items != [] {
      ItemsAreWritten(items[1..], parent, parts[1..]);
    }
  }

  /** A serialized body comes from texts of the items. */
  lemma {:induction false} ItemTexts(items: seq<Json>, parent: Json) returns (parts: seq<string>)
    requires forall i | 0 <= i < |items| :: items[i] < parent
    requires SerializeItems(items, parent).Ok?
    ensures |parts| == |items| && forall i | 0 <= i < |items| :: Serialize(items[i]) == Ok(parts[i])
  {
    parts := [];
    if items != [] {
      if |items| > 1 {
        parts := ItemTexts(items[1..], parent);
      }
      parts := [Serialize(items[0]).value] + parts;
    }
  }

  lemma {:induction false} MembersAreWritten(keys: seq<string>, obj: Json, texts: seq<string>, parts: seq<string>)
    requires obj.Obj? && |texts| == |keys| == |parts| && forall i | 0 <= i < |keys| :: keys[i] in obj.members
    requires forall i | 0 <= i < |keys| :: Serialize(obj.members[keys[i]]) == Ok(texts[i])
    requires forall i | 0 <= i < |keys| :: parts[i] == Quote(keys[i]) + ":" + texts[i]
    ensures SerializeMembers(keys, obj) == Ok(CommaJoin(parts))
  {
    if keys != [] {
      MembersAreWritten(keys[1..], obj, texts[1..], parts[1..]);
    }
  }

  lemma {:induction false} MemberTexts(keys: seq<string>, obj: Json) returns (texts: seq<string>)
    requires obj.Obj? && (forall k | k in keys :: k in obj.members) && SerializeMembers(keys, obj).Ok?
    ensures |texts| == |keys| && forall i | 0 <= i < |keys| :: Serialize(obj.members[keys[i]]) == Ok(texts[i])
  {
    texts := [];
    if keys != [] {
      if |keys| > 1 {
        texts := MemberTexts(keys[1..], obj);
      }
      texts := [Serialize(obj.members[keys[0]]).value] + texts;
    }
  }

  lemma {:induction false} ArrayIsWritten(v: Json)
    requires v.Arr? && Serialize(v).Ok?
    ensures Writes(v, Serialize(v).value)
    decreases v, 0
  {
    var parts := ItemTexts(v.items, v);
    ItemsAreWritten(v.items, v, parts);
    forall i | 0 <= i < |parts| ensures Writes(v.items[i], parts[i]) {
      SerializedIsWritten(v.items[i]);
    }
    assert WritesItems(v, parts);
  }

  function Keyed(keys: seq<string>, texts: seq<string>): (parts: seq<string>)
    requires |keys| == |texts|
    ensures |parts| == |keys| && forall i | 0 <= i < |keys| :: parts[i] == Quote(keys[i]) + ":" + texts[i]
  {
    seq(|keys|, i requires 0 <= i < |keys| => Quote(keys[i]) + ":" + texts[i])
  }

  lemma {:induction false} ObjectMembers(v: Json, keys: seq<string>, texts: seq<string>)
    requires v.Obj? && InMemberOrder(keys, v.members.Keys) && |texts| == |keys|
    requires forall i | 0 <= i < |keys| :: Serialize(v.members[keys[i]]) == Ok(texts[i])
    ensures WritesMembers(v, keys, texts, Keyed(keys, texts))
    decreases v, 0
  {
    var parts := Keyed(keys, texts);
    forall i | 0 <= i < |keys| ensures Writes(v.members[keys[i]], texts[i]) {
      SerializedIsWritten(v.members[keys[i]]);
    }
    forall i | 0 <= i < |keys| ensures WritesKeyed(keys[i], texts[i], parts[i]) {
      KeyedIsWritten(keys[i], texts[i], parts[i]);
    }
  }

  lemma {:induction false} ObjectIsWritten(v: Json)
    requires v.Obj? && Serialize(v).Ok?
    ensures Writes(v, Serialize(v).value)
    decreases v, 1
  {
    var keys := SortedKeys(v.members.Keys);
    var texts := MemberTexts(keys, v);
    MembersAreWritten(keys, v, texts, Keyed(keys, texts));
    MemberOrderIsSorted(keys, v.members.Keys);
    ObjectMembers(v, keys, texts);
  }

  /** The serializer writes nothing but the canonical text. */
  lemma {:induction false} SerializedIsWritten(v: Json)
    requires Serialize(v).Ok?
    ensures Writes(v, Serialize(v).value)
    decreases v, 2
  {
    match v
    case Str(s) => StringIsWritten(s, Quote(s));
    case Num(n) => IntegerIsWritten(n, Decimal(n));
    case Arr(_) => ArrayIsWritten(v);
    case Obj(_) => ObjectIsWritten(v);
    case _ =>
  }

  lemma {:induction false} WrittenArray(v: Json, parts: seq<string>)
    requires v.Arr? && WritesItems(v, parts)
    ensures Serialize(v) == Ok("[" + CommaJoin(parts) + "]")
    decreases v, 0
  {
    forall i | 0 <= i < |parts| ensures Serialize(v.items[i]) == Ok(parts[i]) {
      WrittenIsSerialized(v.items[i], parts[i]);
    }
    ItemsAreWritten(v.items, v, parts);
  }

  lemma {:induction false} WrittenObject(v: Json, keys: seq<string>, texts: seq<string>, parts: seq<string>)
    requires v.Obj? && WritesMembers(v, keys, texts, parts)
    ensures Serialize(v) == Ok("{" + CommaJoin(parts) + "}")
    decreases v, 0
  {
    MemberOrderIsSorted(keys, v.members.Keys);
    forall i | 0 <= i < |keys| ensures Serialize(v.members[keys[i]]) == Ok(texts[i]) {
      WrittenIsSerialized(v.members[keys[i]], texts[i]);
    }
    forall i | 0 <= i < |keys| ensures parts[i] == Quote(keys[i]) + ":" + texts[i] {
      KeyedIsWritten(keys[i], texts[i], parts[i]);
    }
    MembersAreWritten(keys, v, texts, parts);
  }

  /** What the relation allows is what the serializer writes. */
  lemma {:induction false} WrittenIsSerialized(v: Json, text: string)
    requires Writes(v, text)
    ensures Serialize(v) == Ok(text)
    decreases v, 1
  {
    match v
    case Str(s) => StringIsWritten(s, text);
    case Num(n) => IntegerIsWritten(n, text);
    case Arr(_) =>
      var parts :| WritesItems(v, parts) && text == "[" + CommaJoin(parts) + "]";
      WrittenArray(v, parts);
    case Obj(_) =>
      var keys, texts, parts :| WritesMembers(v, keys, texts, parts) && text == "{" + CommaJoin(parts) + "}";
      WrittenObject(v, keys, texts, parts);
    case _ =>
  }

  /**
   The serializer is RFC 8785 to the letter: for a Python value of any depth, a text comes out exactly
   when it is the canonical text of the JSON value it denotes.
   */
  lemma SerializesCanonicalText(v: PyValue, text: string)
    requires WellFormed(v)
    ensures PySerialize(v) == Ok(text) <==> Writes(Denote(v), text)
  {
    InsertionOrderIrrelevant(v);
    if Serialize(Denote(v)).Ok? {
      SerializedIsWritten(Denote(v));
    }
    if Writes(Denote(v), text) {
      WrittenIsSerialized(Denote(v), text);
    }
  }
}

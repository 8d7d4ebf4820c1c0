/** The serialization of a Python value depends on what the value is, not on insertion order. */
module JcsOrder {
  import opened Wrappers
  import opened Ordering
  import opened Jcs

  function Keys(members: seq<Member>): (r: seq<string>)
    ensures |r| == |members| && forall i | 0 <= i < |r| :: r[i] == members[i].key
  {
    seq(|members|, i requires 0 <= i < |members| => members[i].key)
  }

  lemma InsertedMembers(m: Member, sorted: seq<Member>, x: Member)
    requires x in InsertMember(m, sorted)
    ensures x == m || x in sorted
  {
    assert x in multiset(InsertMember(m, sorted));
  }

  /** Every key of `members` comes after `k`. */
  ghost predicate AllAfter(k: string, members: seq<Member>)
  {
    forall i | 0 <= i < |members| :: KeyLess(k, members[i].key)
  }

  ghost predicate SortedByKey(members: seq<Member>)
  {
    members != [] ==> AllAfter(members[0].key, members[1..]) && SortedByKey(members[1..])
  }

  lemma AllAfterTransitive(j: string, k: string, members: seq<Member>)
    requires KeyLess(j, k) && AllAfter(k, members)
    ensures AllAfter(j, members)
  {
    forall i | 0 <= i < |members| ensures KeyLess(j, members[i].key) {
      KeyTransitive(j, k, members[i].key);
    }
  }

  lemma {:induction false} InsertSorted(m: Member, sorted: seq<Member>)
    requires SortedByKey(sorted)
    requires forall x | x in sorted :: x.key != m.key
    ensures SortedByKey(InsertMember(m, sorted))
  {
    var r := InsertMember(m, sorted);
    if sorted == [] || KeyLess(m.key, sorted[0].key) {
      assert r[1..] == sorted;
      if sorted != [] {
        AllAfterTransitive(m.key, sorted[0].key, sorted[1..]);
      }
    } else {
      var head, rest := sorted[0], sorted[1..];
      InsertSorted(m, rest);
      assert r[1..] == InsertMember(m, rest);
      KeyTotal(head.key, m.key);
      forall i | 0 <= i < |r[1..]| ensures KeyLess(head.key, r[1..][i].key) {
        InsertedMembers(m, rest, r[1..][i]);
      }
    }
  }

  lemma {:induction false} SortedIsAscending(members: seq<Member>)
    requires SortedByKey(members)
    ensures Ascending(KeyLess, Keys(members))
  {
    if members != [] {
      SortedIsAscending(members[1..]);
      assert Keys(members)[1..] == Keys(members[1..]);
      forall i, j | 0 <= i < j < |members| ensures KeyLess(Keys(members)[i], Keys(members)[j]) {
        assert members[j] == members[1..][j - 1];
        assert i > 0 ==> Keys(members)[i] == Keys(members[1..])[i - 1];
        assert Keys(members)[j] == Keys(members[1..])[j - 1];
      }
    }
  }

  lemma {:induction false} SortAscending(members: seq<Member>)
    requires UniqueKeys(members)
    ensures SortedByKey(SortMembers(members))
  {
    if members != [] {
      var rest := members[1..];
      SortAscending(rest);
      SortKeepsMembers(rest);
      InsertSorted(members[0], SortMembers(rest));
    }
  }

  lemma DictAgrees(v: PyValue, sorted: seq<Member>)
    requires v.PyDict? && WellFormed(v) && sorted == SortMembers(v.members)
    ensures Keys(sorted) == SortedKeys(Denote(v).members.Keys)
    ensures forall i | 0 <= i < |sorted| ::
              && sorted[i].value < v && WellFormed(sorted[i].value)
              && sorted[i].key in Denote(v).members
              && Denote(v).members[sorted[i].key] == Denote(sorted[i].value)
  {
    var members, obj := v.members, Denote(v);
    SortKeepsMembers(members);
    SortAscending(members);
    DenoteLookup(members, v);
    assert obj.members == DenoteMembers(members, v);
    SortedKeysAgree(members, sorted, obj.members.Keys);
    forall i | 0 <= i < |sorted|
      ensures sorted[i].value < v && WellFormed(sorted[i].value)
      ensures sorted[i].key in obj.members && obj.members[sorted[i].key] == Denote(sorted[i].value)
    {
      assert sorted[i] in members;
      MemberAgrees(v, sorted[i]);
    }
  }

  lemma MemberAgrees(v: PyValue, m: Member)
    requires v.PyDict? && WellFormed(v) && m in v.members
    ensures m.value < v && WellFormed(m.value) && m.key in Denote(v).members &&
            Denote(v).members[m.key] == Denote(m.value)
  {
    DenoteLookup(v.members, v);
    var j :| 0 <= j < |v.members| && v.members[j] == m;
  }

  /** Sorting the members lists the keys in the one ascending order there is. */
  lemma SortedKeysAgree(members: seq<Member>, sorted: seq<Member>, keys: set<string>)
    requires SortedByKey(sorted) && (forall m :: m in sorted <==> m in members)
    requires forall k :: k in keys <==> exists i :: 0 <= i < |members| && members[i].key == k
    ensures Keys(sorted) == SortedKeys(keys)
  {
    SortedIsAscending(sorted);
    forall k ensures k in Keys(sorted) <==> k in keys {
      if k in keys {
        var j :| 0 <= j < |members| && members[j].key == k;
        assert members[j] in sorted;
        var i :| 0 <= i < |sorted| && sorted[i] == members[j];
        assert Keys(sorted)[i] == k;
      }
      if k in Keys(sorted) {
        var i :| 0 <= i < |sorted| && Keys(sorted)[i] == k;
        assert sorted[i] in members;
      }
    }
    KeyOrderStrictTotal();
    AscendingUnique(KeyLess, Keys(sorted), SortedKeys(keys));
  }

  lemma {:induction false} DenoteLookup(members: seq<Member>, parent: PyValue)
    requires UniqueKeys(members)
    requires forall i | 0 <= i < |members| :: members[i].value < parent
    ensures forall k :: k in DenoteMembers(members, parent) <==> exists i :: 0 <= i < |members| && members[i].key == k
    ensures forall i | 0 <= i < |members| ::
              members[i].key in DenoteMembers(members, parent) &&
              DenoteMembers(members, parent)[members[i].key] == Denote(members[i].value)
  {
    if members != [] {
      var rest := members[1..];
      DenoteLookup(rest, parent);
      var m, m' := DenoteMembers(members, parent), DenoteMembers(rest, parent);
      forall k ensures k in m <==> exists i :: 0 <= i < |members| && members[i].key == k {
        if k in m' {
          var i :| 0 <= i < |rest| && rest[i].key == k;
          assert members[i + 1].key == k;
        }
        if i :| 0 <= i < |members| && members[i].key == k {
          assert i == 0 || rest[i - 1].key == k;
        }
      }
      forall i | 0 <= i < |members|
        ensures members[i].key in m && m[members[i].key] == Denote(members[i].value)
      {
        assert i == 0 || rest[i - 1] == members[i];
      }
    }
  }

  lemma {:induction false} ItemsAgree(items: seq<PyValue>, parent: PyValue, ditems: seq<Json>, dparent: Json)
    requires forall i | 0 <= i < |items| :: items[i] < parent && WellFormed(items[i])
    requires |ditems| == |items| && forall i | 0 <= i < |items| :: ditems[i] == Denote(items[i]) && ditems[i] < dparent
    ensures PySerializeItems(items, parent) == SerializeItems(ditems, dparent)
    decreases parent, |items|
  {
    if items != [] {
      InsertionOrderIrrelevant(items[0]);
      ItemsAgree(items[1..], parent, ditems[1..], dparent);
    }
  }

  lemma {:induction false} MembersAgree(members: seq<Member>, parent: PyValue, obj: Json)
    requires forall i | 0 <= i < |members| :: members[i].value < parent && WellFormed(members[i].value)
    requires obj.Obj?
    requires forall i | 0 <= i < |members| ::
               members[i].key in obj.members && obj.members[members[i].key] == Denote(members[i].value)
    ensures PySerializeMembers(members, parent) == SerializeMembers(Keys(members), obj)
    decreases parent, |members|
  {
    if members != [] {
      InsertionOrderIrrelevant(members[0].value);
      MembersAgree(members[1..], parent, obj);
      assert Keys(members)[1..] == Keys(members[1..]);
    }
  }

  lemma AtomAgrees(v: PyValue)
    requires !v.PyList? && !v.PyDict?
    ensures PySerialize(v) == Serialize(Denote(v))
  {
  }

  /** Two dicts with the same members serialize identically, whatever their insertion orders, at every depth. */
  lemma {:induction false} InsertionOrderIrrelevant(v: PyValue)
    requires WellFormed(v)
    ensures PySerialize(v) == Serialize(Denote(v))
    decreases v
  {
    if v.PyList? {
      ItemsAgree(v.items, v, Denote(v).items, Denote(v));
    } else if v.PyDict? {
      var sorted := SortMembers(v.members);
      DictAgrees(v, sorted);
      MembersAgree(sorted, v, Denote(v));
    } else {
      AtomAgrees(v);
    }
  }
}

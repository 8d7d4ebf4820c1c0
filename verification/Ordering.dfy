/**
 Lexicographic order, the member order of RFC 8785 (section 3.2.3), and the ascending
 enumeration of a finite set under a strict total order.
 */
module Ordering {
  import opened Encodings

  // ----- lexicographic order ----------------------------------------------------------

  predicate LexLess(a: seq<int>, b: seq<int>)
  {
    b != [] && (a == [] || a[0] < b[0] || (a[0] == b[0] && LexLess(a[1..], b[1..])))
  }

  lemma LexIrreflexive(a: seq<int>)
    ensures !LexLess(a, a)
  {
  }

  lemma {:induction false} LexTransitive(a: seq<int>, b: seq<int>, c: seq<int>)
    requires LexLess(a, b) && LexLess(b, c)
    ensures LexLess(a, c)
  {
    if a != [] && a[0] == b[0] == c[0] {
      LexTransitive(a[1..], b[1..], c[1..]);
    }
  }

  lemma {:induction false} LexTotal(a: seq<int>, b: seq<int>)
    ensures a == b || LexLess(a, b) || LexLess(b, a)
  {
    if a != [] && b != [] && a[0] == b[0] {
      LexTotal(a[1..], b[1..]);
      assert a == [a[0]] + a[1..] && b == [b[0]] + b[1..];
    }
  }

  // ----- strict total orders and ascending sequences ----------------------------------

  ghost predicate StrictTotal<T(!new)>(less: (T, T) -> bool)
  {
    && (forall a :: !less(a, a))
    && (forall a, b, c :: less(a, b) && less(b, c) ==> less(a, c))
    && (forall a, b :: a == b || less(a, b) || less(b, a))
  }

  ghost predicate Ascending<T(!new)>(less: (T, T) -> bool, s: seq<T>)
  {
    forall i, j | 0 <= i < j < |s| :: less(s[i], s[j])
  }

  ghost predicate Least<T(!new)>(less: (T, T) -> bool, x: T, s: set<T>)
  {
    x in s && forall y | y in s :: y == x || less(x, y)
  }

  lemma {:induction false} LeastExists<T(!new)>(less: (T, T) -> bool, s: set<T>)
    requires StrictTotal(less) && s != {}
    ensures exists x :: Least(less, x, s)
  {
    var x :| x in s;
    var rest := s - {x};
    if rest == {} {
      assert s == {x};
      assert Least(less, x, s);
    } else {
      LeastExists(less, rest);
      var m :| Least(less, m, rest);
      var least := if less(x, m) then x else m;
      forall y | y in s ensures y == least || less(least, y) {
        assert y == x || y in rest;
      }
      assert Least(less, least, s);
    }
  }

  /** The elements of `s` in ascending order. */
  function Enumerate<T(!new, ==)>(less: (T, T) -> bool, s: set<T>): (r: seq<T>)
    requires StrictTotal(less)
    ensures Ascending(less, r)
    ensures forall x :: x in r <==> x in s
  {
    if s == {} then []
    else
      LeastExists(less, s);
      assert exists x :: x in s && forall y | y in s :: y == x || less(x, y) by {
        var m :| Least(less, m, s);
      }
      var m :| m in s && forall y | y in s :: y == m || less(m, y);
      [m] + Enumerate(less, s - {m})
  }

  /** A set has one ascending enumeration: the result of sorting depends on the members alone. */
  lemma {:induction false} AscendingUnique<T(!new)>(less: (T, T) -> bool, s: seq<T>, t: seq<T>)
    requires StrictTotal(less)
    requires Ascending(less, s) && Ascending(less, t)
    requires forall x :: x in s <==> x in t
    ensures s == t
  {
    assert t != [] ==> t[0] in s;
    if s != [] {
      assert s[0] in t && t[0] in s;
      var s', t' := s[1..], t[1..];
      assert s == [s[0]] + s' && t == [t[0]] + t';
      assert forall x | x in s' :: less(s[0], x);
      assert forall x | x in t' :: less(t[0], x);
      assert s[0] == t[0];
      forall x ensures x in s' <==> x in t' {
        assert x in s <==> x == s[0] || x in s';
        assert x in t <==> x == t[0] || x in t';
      }
      AscendingUnique(less, s', t');
    }
  }

  // ----- the RFC 8785 member order ----------------------------------------------------

  function SortKey(key: string): seq<Byte>
  {
    BigEndian(Utf16(key))
  }

  predicate KeyLess(a: string, b: string)
  {
    LexLess(SortKey(a), SortKey(b))
  }

  /** Comparing big-endian bytes is comparing 16-bit code units. */
  lemma {:induction false} ByteOrderIsUnitOrder(u: seq<CodeUnit>, v: seq<CodeUnit>)
    ensures LexLess(BigEndian(u), BigEndian(v)) <==> LexLess(u, v)
  {
    if u != [] && v != [] {
      var bu, bv := BigEndian(u), BigEndian(v);
      ByteOrderIsUnitOrder(u[1..], v[1..]);
      assert bu[1..][1..] == BigEndian(u[1..]) && bv[1..][1..] == BigEndian(v[1..]);
      assert bu[0] == u[0] / 0x100 && bu[1..][0] == u[0] % 0x100;
      assert bv[0] == v[0] / 0x100 && bv[1..][0] == v[0] % 0x100;
    }
  }

  lemma {:induction false} BigEndianInjective(u: seq<CodeUnit>, v: seq<CodeUnit>)
    requires BigEndian(u) == BigEndian(v)
    ensures u == v
  {
    if u != [] && v != [] {
      var bu, bv := BigEndian(u), BigEndian(v);
      assert bu[0] == u[0] / 0x100 && bu[1] == u[0] % 0x100;
      assert bv[0] == v[0] / 0x100 && bv[1] == v[0] % 0x100;
      assert bu[2..] == BigEndian(u[1..]) && bv[2..] == BigEndian(v[1..]);
      BigEndianInjective(u[1..], v[1..]);
      assert u == [u[0]] + u[1..] && v == [v[0]] + v[1..];
    }
  }

  /** UTF-16-BE byte order is UTF-16 code-unit order, and it separates any two distinct keys. */
  lemma KeyOrderIsUnitOrder(a: string, b: string)
    ensures KeyLess(a, b) <==> LexLess(Utf16(a), Utf16(b))
    ensures a != b ==> KeyLess(a, b) != KeyLess(b, a)
  {
    ByteOrderIsUnitOrder(Utf16(a), Utf16(b));
    KeyOrderStrictTotal();
  }

  lemma KeyTotal(a: string, b: string)
    ensures a == b || KeyLess(a, b) || KeyLess(b, a)
  {
    LexTotal(SortKey(a), SortKey(b));
    if SortKey(a) == SortKey(b) {
      BigEndianInjective(Utf16(a), Utf16(b));
      Utf16Injective(a, b);
    }
  }

  lemma KeyTransitive(a: string, b: string, c: string)
    requires KeyLess(a, b) && KeyLess(b, c)
    ensures KeyLess(a, c)
  {
    LexTransitive(SortKey(a), SortKey(b), SortKey(c));
  }

  lemma KeyOrderStrictTotal()
    ensures StrictTotal(KeyLess)
  {
    forall a ensures !KeyLess(a, a) {
      LexIrreflexive(SortKey(a));
    }
    forall a, b, c | KeyLess(a, b) && KeyLess(b, c) ensures KeyLess(a, c) {
      KeyTransitive(a, b, c);
    }
    forall a, b ensures a == b || KeyLess(a, b) || KeyLess(b, a) {
      KeyTotal(a, b);
    }
  }

  /**
   Code-unit order is not code-point order: U+FFFF precedes U+10000 by code point and follows
   it by code unit, which is why a generic key sort would not do.
   */
  lemma UnitOrderIsNotCodePointOrder()
    ensures exists a: char, b: char :: a < b && KeyLess([b], [a])
  {
    var a, b := '\U{FFFF}', '\U{10000}';
    calc {
      Utf16([b]);
      Utf16Char(b) + Utf16([b][1..]);
      [0xD800, 0xDC00] + [];
    }
    assert Utf16([a]) == [0xFFFF] + [];
    KeyOrderIsUnitOrder([b], [a]);
    assert a < b && KeyLess([b], [a]);
  }
}

/** The order of object keys in canonical JSON, by UTF-16 code units: jcs.go, section 3.2.3 of RFC 8785. */
module KeyOrder {
  import opened Sequences

  // ---------- UTF-16 ----------

  /** The code units of one scalar value. */
  function Units(c: char): (r: seq<int>)
    ensures |r| == 1 || |r| == 2
    ensures |r| == 1 ==> r[0] == c as int && !(0xD800 <= r[0] < 0xE000)
    ensures |r| == 2 ==> 0xD800 <= r[0] < 0xDC00 <= r[1] < 0xE000
    ensures |r| == 2 ==> c as int == 0x10000 + (r[0] - 0xD800) * 0x400 + (r[1] - 0xDC00)
  {
    if c as int < 0x10000 then [c as int]
    else
      var v := c as int - 0x10000;
      [0xD800 + v / 0x400, 0xDC00 + v % 0x400]
  }

  function Utf16(s: string): seq<int> {
    if s == "" then [] else Units(s[0]) + Utf16(s[1..])
  }

  /** Distinct strings have distinct encodings. */
  lemma {:induction false} Utf16IsInjective(a: string, b: string)
    requires Utf16(a) == Utf16(b)
    ensures a == b
  {
    if a != "" && b != "" {
      var ua, ub := Units(a[0]), Units(b[0]);
      assert Utf16(a)[0] == ua[0] && Utf16(b)[0] == ub[0];
      assert |ua| == |ub|;
      if |ua| == 2 {
        assert Utf16(a)[1] == ua[1] && Utf16(b)[1] == ub[1];
      }
      assert a[0] == b[0];
      assert Utf16(a)[|ua|..] == Utf16(a[1..]) && Utf16(b)[|ub|..] == Utf16(b[1..]);
      Utf16IsInjective(a[1..], b[1..]);
      assert a == [a[0]] + a[1..] && b == [b[0]] + b[1..];
    }
  }

  // ---------- The order ----------

  /** Lexicographic order on code units. */
  predicate Before(a: seq<int>, b: seq<int>) {
    if b == [] then false
    else if a == [] then true
    else a[0] < b[0] || (a[0] == b[0] && Before(a[1..], b[1..]))
  }

  predicate KeyLess(a: string, b: string) {
    Before(Utf16(a), Utf16(b))
  }

  /** The lists agree before position `k`, where `a` ends or has the smaller unit. */
  predicate SmallerAt(a: seq<int>, b: seq<int>, k: int) {
    0 <= k <= |a| && k < |b| && a[..k] == b[..k] && (k == |a| || a[k] < b[k])
  }

  lemma {:induction false} BeforeIff(a: seq<int>, b: seq<int>)
    ensures Before(a, b) <==> exists k :: SmallerAt(a, b, k)
  {
    if b != [] && a != [] && a[0] == b[0] {
      var a', b' := a[1..], b[1..];
      BeforeIff(a', b');
      if k :| SmallerAt(a', b', k) {
        OneFurther(a, b, k);
      }
      if k :| SmallerAt(a, b, k) {
        var j := k - 1;
        OneFurther(a, b, j);
      }
    } else if Before(a, b) {
      assert SmallerAt(a, b, 0);
    } else {
      forall k
        ensures !SmallerAt(a, b, k)
      {
        if 0 < k <= |a| && k < |b| {
          assert a[..k][0] == a[0] && b[..k][0] == b[0];
        }
      }
    }
  }

  lemma {:induction false} OneFurther(a: seq<int>, b: seq<int>, k: int)
    requires a != [] && b != [] && a[0] == b[0] && k >= 0
    ensures SmallerAt(a[1..], b[1..], k) <==> SmallerAt(a, b, k + 1)
  {
    if k + 1 <= |a| && k + 1 <= |b| {
      assert a[..k + 1] == [a[0]] + a[1..][..k] && b[..k + 1] == [b[0]] + b[1..][..k];
      assert a[..k + 1][1..] == a[1..][..k] && b[..k + 1][1..] == b[1..][..k];
    }
  }

  /** The code units of each character, in order. */
  function UnitsOf(s: string): seq<seq<int>> {
    seq(|s|, k requires 0 <= k < |s| => Units(s[k]))
  }

  lemma {:induction false} Utf16IsSpelled(s: string)
    ensures Spells(Utf16(s), UnitsOf(s))
  {
    if s == "" {
      SpellsNothing<int>();
      assert UnitsOf(s) == [];
    } else {
      var most, last := s[..|s| - 1], s[|s| - 1];
      Utf16IsSpelled(most);
      assert s == most + [last];
      Utf16OneMore(most, last);
      SpellsMore(Utf16(most), UnitsOf(most), Units(last));
      assert UnitsOf(s) == UnitsOf(most) + [Units(last)];
    }
  }

  lemma {:induction false} Utf16OneMore(s: string, c: char)
    ensures Utf16(s + [c]) == Utf16(s) + Units(c)
  {
    if s == "" {
      assert s + [c] == [c] && [c][1..] == "";
    } else {
      Utf16OneMore(s[1..], c);
      assert (s + [c])[1..] == s[1..] + [c];
    }
  }

  /** A key comes first exactly if, where the code units first differ, it has the smaller one or has ended. */
  lemma {:induction false} KeyLessIff(a: string, b: string)
    ensures KeyLess(a, b) <==> exists u, v, k :: Spells(u, UnitsOf(a)) && Spells(v, UnitsOf(b)) && SmallerAt(u, v, k)
  {
    var ua, ub := Utf16(a), Utf16(b);
    BeforeIff(ua, ub);
    Utf16IsSpelled(a);
    Utf16IsSpelled(b);
    if k :| SmallerAt(ua, ub, k) {
      assert Spells(ua, UnitsOf(a)) && Spells(ub, UnitsOf(b)) && SmallerAt(ua, ub, k);
    }
    if u, v, k :| Spells(u, UnitsOf(a)) && Spells(v, UnitsOf(b)) && SmallerAt(u, v, k) {
      SpellingIsUnique(u, ua, UnitsOf(a));
      SpellingIsUnique(v, ub, UnitsOf(b));
    }
  }

  lemma {:induction false} BeforeIsTransitive(a: seq<int>, b: seq<int>, c: seq<int>)
    requires Before(a, b) && Before(b, c)
    ensures Before(a, c)
  {
    if a != [] && a[0] == b[0] == c[0] {
      BeforeIsTransitive(a[1..], b[1..], c[1..]);
    }
  }

  lemma {:induction false} BeforeIsTotal(a: seq<int>, b: seq<int>)
    ensures Before(a, b) || Before(b, a) || a == b
    ensures !(Before(a, b) && Before(b, a))
    ensures a == b ==> !Before(a, b)
  {
    if a != [] && b != [] && a[0] == b[0] {
      BeforeIsTotal(a[1..], b[1..]);
      assert a == [a[0]] + a[1..] && b == [b[0]] + b[1..];
    }
  }

  /** Keys are strictly and totally ordered: of two distinct keys exactly one comes first. */
  lemma {:induction false} KeyOrderIsTotal(a: string, b: string)
    ensures a != b ==> KeyLess(a, b) != KeyLess(b, a)
    ensures a == b ==> !KeyLess(a, b)
  {
    BeforeIsTotal(Utf16(a), Utf16(b));
    if Utf16(a) == Utf16(b) {
      Utf16IsInjective(a, b);
    }
  }

  lemma {:induction false} KeyOrderIsTransitive(a: string, b: string, c: string)
    requires KeyLess(a, b) && KeyLess(b, c)
    ensures KeyLess(a, c)
  {
    BeforeIsTransitive(Utf16(a), Utf16(b), Utf16(c));
  }

  /** Where two lists agree up to `i`, the rest decides. */
  lemma {:induction false} RestDecides(a: seq<int>, b: seq<int>, i: nat)
    requires i < |a| && i < |b|
    ensures Before(a[i..], b[i..]) <==> a[i] < b[i] || (a[i] == b[i] && Before(a[i + 1..], b[i + 1..]))
  {
    var x, y := a[i..], b[i..];
    assert x[1..] == a[i + 1..] && y[1..] == b[i + 1..];
  }

  /** The comparison loop. */
  method CompareUnits(left: seq<int>, right: seq<int>) returns (order: int)
    ensures order < 0 <==> Before(left, right)
    ensures order > 0 <==> Before(right, left)
    ensures order == 0 <==> left == right
  {
    BeforeIsTotal(left, right);
    var i := 0;
    assert left[0..] == left && right[0..] == right;
    while i < |left| && i < |right|
      invariant 0 <= i <= |left| && i <= |right|
      invariant Before(left[i..], right[i..]) <==> Before(left, right)
      invariant Before(right[i..], left[i..]) <==> Before(right, left)
      invariant left[..i] == right[..i]
    {
      RestDecides(left, right, i);
      RestDecides(right, left, i);
      if left[i] < right[i] {
        return -1;
      }
      if left[i] > right[i] {
        return 1;
      }
      assert left[..i + 1] == left[..i] + [left[i]] && right[..i + 1] == right[..i] + [right[i]];
      i := i + 1;
    }
    if |left| < |right| {
      return -1;
    } else if |left| > |right| {
      return 1;
    }
    assert left == left[..i] && right == right[..i];
    return 0;
  }

  method CompareUtf16(a: string, b: string) returns (order: int)
    ensures order < 0 <==> KeyLess(a, b)
    ensures order > 0 <==> KeyLess(b, a)
    ensures order == 0 <==> a == b
  {
    order := CompareUnits(Utf16(a), Utf16(b));
    if order == 0 {
      Utf16IsInjective(a, b);
    }
  }

  // ---------- Sorted keys ----------

  ghost predicate StrictlySorted(keys: seq<string>) {
    forall i, j :: 0 <= i < j < |keys| ==> KeyLess(keys[i], keys[j])
  }

  lemma {:induction false} SplitFirst(keys: seq<string>)
    requires StrictlySorted(keys) && keys != []
    ensures StrictlySorted(keys[1..]) && forall k :: k in keys[1..] <==> k in keys && k != keys[0]
  {
    KeyOrderIsTotal(keys[0], keys[0]);
    assert keys == [keys[0]] + keys[1..];
    assert forall j :: 0 <= j < |keys[1..]| ==> keys[1..][j] == keys[j + 1] && KeyLess(keys[0], keys[j + 1]);
  }

  lemma {:induction false} EmptyTogether(a: seq<string>, b: seq<string>)
    requires forall k :: k in a <==> k in b
    ensures a == [] <==> b == []
  {
    if a != [] {
      assert a[0] in a;
    }
    if b != [] {
      assert b[0] in b;
    }
  }

  /** The one sorted listing of a set of keys is the only one. */
  lemma {:induction false} SortedListingIsUnique(a: seq<string>, b: seq<string>)
    requires StrictlySorted(a) && StrictlySorted(b)
    requires forall k :: k in a <==> k in b
    ensures a == b
  {
    EmptyTogether(a, b);
    if a != [] {
      SameFirst(a, b);
      SplitFirst(a);
      SplitFirst(b);
      SortedListingIsUnique(a[1..], b[1..]);
      assert a == [a[0]] + a[1..] && b == [b[0]] + b[1..];
    }
  }

  lemma {:induction false} SameFirst(a: seq<string>, b: seq<string>)
    requires StrictlySorted(a) && StrictlySorted(b) && a != [] && b != []
    requires forall k :: k in a <==> k in b
    ensures a[0] == b[0]
  {
    assert a[0] in b && b[0] in a;
    var i :| 0 <= i < |b| && b[i] == a[0];
    var j :| 0 <= j < |a| && a[j] == b[0];
    KeyOrderIsTotal(a[0], b[0]);
  }

  function Insert(keys: seq<string>, k: string): seq<string> {
    if keys == [] || KeyLess(k, keys[0]) then [k] + keys else [keys[0]] + Insert(keys[1..], k)
  }

  lemma {:induction false} InsertKeepsSorted(keys: seq<string>, k: string)
    requires StrictlySorted(keys) && k !in keys
    ensures StrictlySorted(Insert(keys, k))
    ensures forall x :: x in Insert(keys, k) <==> x in keys || x == k
  {
    if keys != [] && !KeyLess(k, keys[0]) {
      assert keys == [keys[0]] + keys[1..];
      KeyOrderIsTotal(k, keys[0]);
      InsertKeepsSorted(keys[1..], k);
      var rest := Insert(keys[1..], k);
      assert forall x :: x in rest ==> KeyLess(keys[0], x);
      assert forall j :: 0 <= j < |rest| ==> rest[j] in rest;
    } else if keys != [] {
      forall j | 0 <= j < |keys|
        ensures KeyLess(k, keys[j])
      {
        if j > 0 {
          KeyOrderIsTransitive(k, keys[0], keys[j]);
        }
      }
    }
  }

  /** The keys of a map, sorted. They are taken from the map in any order whatever. */
  method SortedKeys(all: set<string>) returns (keys: seq<string>)
    ensures StrictlySorted(keys) && forall k :: k in keys <==> k in all
  {
    keys := [];
    var todo := all;
    while todo != {}
      invariant todo <= all && StrictlySorted(keys)
      invariant forall k :: k in keys <==> k in all && k !in todo
    {
      var k :| k in todo;
      InsertKeepsSorted(keys, k);
      keys := Insert(keys, k);
      todo := todo - {k};
    }
  }

  /** The sorted listing as a function of the set. */
  ghost function Listing(all: set<string>): (keys: seq<string>)
    ensures StrictlySorted(keys) && forall k :: k in keys <==> k in all
  {
    if all == {} then []
    else
      var k :| k in all;
      var rest := Listing(all - {k});
      InsertKeepsSorted(rest, k);
      Insert(rest, k)
  }
}

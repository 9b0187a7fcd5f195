/** The row order the store and the client sort by: (time, id), ids compared as text. */
module Ordering {

  datatype Key = Key(time: int, id: string)

  predicate TextBefore(a: string, b: string) {
    |b| > 0 && (|a| == 0 || a[0] < b[0] || (a[0] == b[0] && TextBefore(a[1..], b[1..])))
  }

  predicate Before(a: Key, b: Key) {
    a.time < b.time || (a.time == b.time && TextBefore(a.id, b.id))
  }

  lemma {:induction false} TextTotal(a: string, b: string)
    ensures a != b ==> TextBefore(a, b) || TextBefore(b, a)
    ensures !(TextBefore(a, b) && TextBefore(b, a))
    ensures !TextBefore(a, a)
  {
    if |a| > 0 {
      TextTotal(a[1..], a[1..]);
      if |b| > 0 {
        TextTotal(a[1..], b[1..]);
        assert a == [a[0]] + a[1..] && b == [b[0]] + b[1..];
      }
    }
  }

  lemma {:induction false} TextTransitive(a: string, b: string, c: string)
    requires TextBefore(a, b) && TextBefore(b, c)
    ensures TextBefore(a, c)
  {
    if |a| > 0 && a[0] == b[0] == c[0] {
      TextTransitive(a[1..], b[1..], c[1..]);
    }
  }

  lemma BeforeTotal(a: Key, b: Key)
    ensures a != b ==> Before(a, b) || Before(b, a)
    ensures !(Before(a, b) && Before(b, a))
    ensures !Before(a, a)
  {
    TextTotal(a.id, b.id);
    TextTotal(a.id, a.id);
  }

  lemma BeforeTransitive(a: Key, b: Key, c: Key)
    requires Before(a, b) && Before(b, c)
    ensures Before(a, c)
  {
    if a.time == b.time == c.time {
      TextTransitive(a.id, b.id, c.id);
    }
  }

  ghost predicate Ascending(s: seq<Key>) {
    forall i, j :: 0 <= i < j < |s| ==> Before(s[i], s[j])
  }

  ghost predicate Descending(s: seq<Key>) {
    forall i, j :: 0 <= i < j < |s| ==> Before(s[j], s[i])
  }

  lemma LeastExists(s: set<Key>)
    requires s != {}
    ensures exists k :: k in s && forall o :: o in s && o != k ==> Before(k, o)
  {
    var x :| x in s;
    if s == {x} {
      assert forall o :: o in s && o != x ==> Before(x, o);
    } else {
      var rest := s - {x};
      LeastExists(rest);
      var m :| m in rest && forall o :: o in rest && o != m ==> Before(m, o);
      BeforeTotal(x, m);
      if Before(x, m) {
        forall o | o in s && o != x ensures Before(x, o) {
          if o != m { BeforeTransitive(x, m, o); }
        }
      } else {
        assert forall o :: o in s && o != m ==> Before(m, o);
      }
    }
  }

  lemma LeastUnique(s: set<Key>)
    ensures forall x, y :: x in s && y in s && x != y && (forall o :: o in s && o != x ==> Before(x, o)) ==>
              !(forall o :: o in s && o != y ==> Before(y, o))
  {
    forall x, y | x in s && y in s && x != y ensures !(Before(x, y) && Before(y, x)) {
      BeforeTotal(x, y);
    }
  }

  /** The first key in order. */
  function Least(s: set<Key>): (k: Key)
    requires s != {}
    ensures k in s && forall o :: o in s && o != k ==> Before(k, o)
  {
    LeastExists(s);
    LeastUnique(s);
    var k :| k in s && forall o :: o in s && o != k ==> Before(k, o);
    k
  }

  /** The set listed in order. */
  function Sorted(s: set<Key>): (r: seq<Key>)
    ensures |r| == |s| && Ascending(r)
    ensures forall k :: k in r <==> k in s
  {
    if s == {} then [] else
      var k := Least(s);
      var rest := Sorted(s - {k});
      assert Ascending([k] + rest) by {
        assert forall o :: o in rest ==> Before(k, o);
      }
      [k] + rest
  }

  function Reversed<T>(s: seq<T>): (r: seq<T>)
    ensures |r| == |s| && forall i :: 0 <= i < |s| ==> r[i] == s[|s| - 1 - i]
  {
    if |s| == 0 then [] else [s[|s| - 1]] + Reversed(s[..|s| - 1])
  }

  /** The set listed newest first. */
  function SortedDown(s: set<Key>): (r: seq<Key>)
    ensures |r| == |s| && Descending(r)
    ensures forall k :: k in r <==> k in s
  {
    var a := Sorted(s);
    var r := Reversed(a);
    assert forall k :: k in r <==> k in a by {
      forall i | 0 <= i < |a| ensures a[i] in r { assert r[|a| - 1 - i] == a[i]; }
    }
    r
  }

  ghost function Elements(s: seq<Key>): set<Key> {
    set k | k in s
  }

  lemma HeadIsListed<T>(s: seq<T>)
    requires |s| > 0
    ensures s[0] in s
  {}

  /** A set has one descending listing. */
  lemma {:induction false} DescendingListingUnique(a: seq<Key>, b: seq<Key>)
    requires Descending(a) && Descending(b)
    requires forall k :: k in a <==> k in b
    ensures a == b
  {
    if |a| == 0 {
      if |b| > 0 { HeadIsListed(b); }
    } else {
      assert a[0] in b && |b| > 0 && b[0] in a;
      BeforeTotal(a[0], b[0]);
      forall k ensures k in a[1..] <==> k in b[1..] {
        BeforeTotal(k, k);
        if k in a[1..] { assert k in a && k != a[0]; }
        if k in b[1..] { assert k in b && k != b[0]; }
      }
      DescendingListingUnique(a[1..], b[1..]);
    }
  }

  lemma {:induction false} AscendingListingUnique(a: seq<Key>, b: seq<Key>)
    requires Ascending(a) && Ascending(b)
    requires forall k :: k in a <==> k in b
    ensures a == b
  {
    if |a| == 0 {
      if |b| > 0 { HeadIsListed(b); }
    } else {
      assert a[0] in b && |b| > 0 && b[0] in a;
      BeforeTotal(a[0], b[0]);
      forall k ensures k in a[1..] <==> k in b[1..] {
        BeforeTotal(k, k);
        if k in a[1..] { assert k in a && k != a[0]; }
        if k in b[1..] { assert k in b && k != b[0]; }
      }
      AscendingListingUnique(a[1..], b[1..]);
    }
  }

  /** The library's sorts, newest first and oldest first. */
  method OrderDown(rows: set<Key>) returns (listing: seq<Key>)
    ensures Descending(listing) && forall k :: k in listing <==> k in rows
  {
    listing := SortedDown(rows);
  }

  method OrderUp(rows: set<Key>) returns (listing: seq<Key>)
    ensures Ascending(listing) && forall k :: k in listing <==> k in rows
  {
    listing := Sorted(rows);
  }

  lemma DescendingListingExists(rows: set<Key>) returns (listing: seq<Key>)
    ensures Descending(listing) && forall k :: k in listing <==> k in rows
  {
    listing := SortedDown(rows);
  }

  lemma AscendingListingExists(rows: set<Key>) returns (listing: seq<Key>)
    ensures Ascending(listing) && forall k :: k in listing <==> k in rows
  {
    listing := Sorted(rows);
  }

  /** Texts in order, as a library sort of distinct strings lists them. */
  function LeastText(s: set<string>): (x: string)
    requires s != {}
    ensures x in s && forall y :: y in s && y != x ==> TextBefore(x, y)
  {
    var keys := set y | y in s :: Key(0, y);
    assert exists y :: y in s && Key(0, y) in keys by {
      var y :| y in s;
      assert Key(0, y) in keys;
    }
    var k := Least(keys);
    assert forall y :: y in s && y != k.id ==> Key(0, y) in keys;
    k.id
  }

  function SortedText(s: set<string>): (r: seq<string>)
    ensures |r| == |s| && (forall x :: x in r <==> x in s)
    ensures forall i, j :: 0 <= i < j < |r| ==> TextBefore(r[i], r[j])
  {
    if s == {} then [] else
      var x := LeastText(s);
      [x] + SortedText(s - {x})
  }
}

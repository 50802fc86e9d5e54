/**
 * The order in which the store returns the records of a listing.
 *
 * A sort key is the value a record holds in the field named by `sortBy`.
 * Values of different kinds compare by kind first, as the store orders them:
 * a missing value (or null) first, then numbers, then strings, then object
 * ids, then dates. Records whose keys tie may come back in any order.
 */
module Ordering {

  datatype Key = Missing | Num(n: int) | Text(s: string) | Ref(r: string) | Date(t: int)

  function Rank(k: Key): nat {
    match k
    case Missing => 0
    case Num(_) => 1
    case Text(_) => 2
    case Ref(_) => 3
    case Date(_) => 4
  }

  /** Lexicographic order on strings, character by character. */
  predicate TextLeq(a: string, b: string) {
    a == [] || (b != [] && (a[0] < b[0] || (a[0] == b[0] && TextLeq(a[1..], b[1..]))))
  }

  predicate KeyLeq(a: Key, b: Key) {
    if Rank(a) != Rank(b) then Rank(a) < Rank(b)
    else match a
      case Missing => true
      case Num(x) => x <= b.n
      case Text(x) => TextLeq(x, b.s)
      case Ref(x) => TextLeq(x, b.r)
      case Date(x) => x <= b.t
  }

  /** `a` may come before `b`: ascending, or descending when `desc`. */
  predicate Before(a: Key, b: Key, desc: bool) {
    if desc then KeyLeq(b, a) else KeyLeq(a, b)
  }

  lemma {:induction false} TextLeqTotal(a: string, b: string)
    ensures TextLeq(a, b) || TextLeq(b, a)
  {
    if a != [] && b != [] && a[0] == b[0] {
      TextLeqTotal(a[1..], b[1..]);
    }
  }

  lemma {:induction false} TextLeqTransitive(a: string, b: string, c: string)
    requires TextLeq(a, b) && TextLeq(b, c)
    ensures TextLeq(a, c)
  {
    if a != [] && a[0] == b[0] && b[0] == c[0] {
      TextLeqTransitive(a[1..], b[1..], c[1..]);
    }
  }

  lemma BeforeTotal(a: Key, b: Key, desc: bool)
    ensures Before(a, b, desc) || Before(b, a, desc)
  {
    match a
    case Text(x) => if b.Text? { TextLeqTotal(x, b.s); }
    case Ref(x) => if b.Ref? { TextLeqTotal(x, b.r); }
    case _ =>
  }

  lemma BeforeTransitive(a: Key, b: Key, c: Key, desc: bool)
    requires Before(a, b, desc) && Before(b, c, desc)
    ensures Before(a, c, desc)
  {
    if a.Text? && b.Text? && c.Text? {
      if desc { TextLeqTransitive(c.s, b.s, a.s); } else { TextLeqTransitive(a.s, b.s, c.s); }
    } else if a.Ref? && b.Ref? && c.Ref? {
      if desc { TextLeqTransitive(c.r, b.r, a.r); } else { TextLeqTransitive(a.r, b.r, c.r); }
    }
  }

  /** Every record's key may come before the keys of all records after it. */
  predicate SortedBy<T>(xs: seq<T>, key: T -> Key, desc: bool) {
    forall i, j :: 0 <= i < j < |xs| ==> Before(key(xs[i]), key(xs[j]), desc)
  }

  function Insert<T>(x: T, ys: seq<T>, key: T -> Key, desc: bool): seq<T> {
    if ys == [] || Before(key(x), key(ys[0]), desc) then [x] + ys
    else [ys[0]] + Insert(x, ys[1..], key, desc)
  }

  /** The store's sort, by insertion: one of the orders the store may return. */
  function Sort<T>(xs: seq<T>, key: T -> Key, desc: bool): seq<T> {
    if xs == [] then [] else Insert(xs[0], Sort(xs[1..], key, desc), key, desc)
  }

  lemma {:induction false} InsertPermutes<T>(x: T, ys: seq<T>, key: T -> Key, desc: bool)
    ensures multiset(Insert(x, ys, key, desc)) == multiset(ys) + multiset{x}
  {
    if ys != [] && !Before(key(x), key(ys[0]), desc) {
      InsertPermutes(x, ys[1..], key, desc);
      assert ys == [ys[0]] + ys[1..];
    }
  }

  lemma {:induction false} InsertSorted<T>(x: T, ys: seq<T>, key: T -> Key, desc: bool)
    requires SortedBy(ys, key, desc)
    ensures SortedBy(Insert(x, ys, key, desc), key, desc)
  {
    if ys == [] {
    } else if Before(key(x), key(ys[0]), desc) {
      var r := [x] + ys;
      forall i, j | 0 <= i < j < |r| ensures Before(key(r[i]), key(r[j]), desc) {
        if i == 0 && j > 1 {
          BeforeTransitive(key(x), key(ys[0]), key(ys[j - 1]), desc);
        }
      }
    } else {
      BeforeTotal(key(x), key(ys[0]), desc);
      var tail := Insert(x, ys[1..], key, desc);
      InsertSorted(x, ys[1..], key, desc);
      InsertPermutes(x, ys[1..], key, desc);
      var r := [ys[0]] + tail;
      forall i, j | 0 <= i < j < |r| ensures Before(key(r[i]), key(r[j]), desc) {
        if i == 0 {
          var e := r[j];
          assert e in multiset(tail);
          if e != x {
            assert e in multiset(ys[1..]);
            var k :| 0 <= k < |ys[1..]| && ys[1..][k] == e;
            assert ys[k + 1] == e;
          }
        }
      }
    }
  }

  lemma {:induction false} SortPermutes<T>(xs: seq<T>, key: T -> Key, desc: bool)
    ensures multiset(Sort(xs, key, desc)) == multiset(xs)
  {
    if xs != [] {
      SortPermutes(xs[1..], key, desc);
      InsertPermutes(xs[0], Sort(xs[1..], key, desc), key, desc);
      assert xs == [xs[0]] + xs[1..];
    }
  }

  lemma {:induction false} SortSorted<T>(xs: seq<T>, key: T -> Key, desc: bool)
    ensures SortedBy(Sort(xs, key, desc), key, desc)
  {
    if xs != [] {
      SortSorted(xs[1..], key, desc);
      InsertSorted(xs[0], Sort(xs[1..], key, desc), key, desc);
    }
  }
}

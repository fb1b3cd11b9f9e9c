/** The order a java.util.TreeMap<String, String> keeps its keys in: Java's
    String.compareTo, i.e. lexicographic by character, a proper prefix first.
    A TreeMap's key set is modelled as the strictly ascending sequence of its keys. */
module KeyOrder {

  /** `a` sorts strictly before `b` (String.compareTo(a, b) < 0). */
  predicate Less(a: string, b: string)
    decreases |a|
  {
    |b| > 0 && (|a| == 0 || a[0] < b[0] || (a[0] == b[0] && Less(a[1..], b[1..])))
  }

  lemma {:induction false} LessIrreflexive(a: string)
    ensures !Less(a, a)
    decreases |a|
  {
    if |a| > 0 {
      LessIrreflexive(a[1..]);
    }
  }

  lemma {:induction false} LessTransitive(a: string, b: string, c: string)
    requires Less(a, b) && Less(b, c)
    ensures Less(a, c)
    decreases |a|
  {
    if |a| > 0 && a[0] == b[0] && b[0] == c[0] {
      LessTransitive(a[1..], b[1..], c[1..]);
    }
  }

  lemma {:induction false} LessTotal(a: string, b: string)
    requires a != b
    ensures Less(a, b) || Less(b, a)
    decreases |a|
  {
    if |a| > 0 && |b| > 0 && a[0] == b[0] {
      assert a == [a[0]] + a[1..] && b == [b[0]] + b[1..];
      LessTotal(a[1..], b[1..]);
    }
  }

  /** The keys of a sequence, as a set. */
  function Elems(s: seq<string>): (r: set<string>)
    ensures forall i :: 0 <= i < |s| ==> s[i] in r
    ensures forall x :: x in r ==> x in s
  {
    set x | x in s
  }

  /** Strictly ascending: the iteration order of a TreeMap's key set. */
  predicate Ascending(s: seq<string>)
  {
    forall i, j :: 0 <= i < j < |s| ==> Less(s[i], s[j])
  }

  /** Prepending a key below every key of an ascending sequence keeps it ascending. */
  lemma AscendingCons(x: string, s: seq<string>)
    requires Ascending(s)
    requires forall y :: y in s ==> Less(x, y)
    ensures Ascending([x] + s)
  {
  }

  /** The first key of an ascending sequence is below every other key in it. */
  lemma HeadIsLeast(s: seq<string>, x: string)
    requires Ascending(s) && x in s && x != s[0]
    ensures Less(s[0], x)
  {
  }

  /** TreeMap.put of key `k`: insertion into the ascending key sequence; a key
      already present stays where it is. */
  function Insert(s: seq<string>, k: string): (r: seq<string>)
    requires Ascending(s)
    ensures Ascending(r)
    ensures Elems(r) == Elems(s) + {k}
  {
    if s == [] then
      [k]
    else if k == s[0] then
      s
    else if Less(k, s[0]) then
      (forall y | y in s ensures Less(k, y) {
         if y != s[0] { HeadIsLeast(s, y); LessTransitive(k, s[0], y); }
       }
       AscendingCons(k, s);
       [k] + s)
    else
      var tail := Insert(s[1..], k);
      (LessTotal(k, s[0]);
       forall y | y in tail ensures Less(s[0], y) {
         if y != k {
           var j :| 0 <= j < |s[1..]| && s[1..][j] == y;
           assert Less(s[0], s[j + 1]);
         }
       }
       AscendingCons(s[0], tail);
       assert Elems(s) == {s[0]} + Elems(s[1..]);
       [s[0]] + tail)
  }

  /** Two ascending sequences holding the same keys are the same sequence: the
      order of a TreeMap's keys is fixed by the keys alone. */
  lemma {:induction false} AscendingUnique(s: seq<string>, t: seq<string>)
    requires Ascending(s) && Ascending(t) && Elems(s) == Elems(t)
    ensures s == t
    decreases |s|
  {
    if s != [] {
      assert s[0] in Elems(t);
      assert t != [];
      assert t[0] in Elems(s);
      if s[0] != t[0] {
        HeadIsLeast(s, t[0]);
        HeadIsLeast(t, s[0]);
        LessTransitive(s[0], t[0], s[0]);
        LessIrreflexive(s[0]);
        assert false;
      }
      forall x | x in s[1..] ensures x != s[0] {
        var j :| 0 <= j < |s[1..]| && s[1..][j] == x;
        assert Less(s[0], s[j + 1]);
        LessIrreflexive(s[0]);
      }
      forall x | x in t[1..] ensures x != t[0] {
        var j :| 0 <= j < |t[1..]| && t[1..][j] == x;
        assert Less(t[0], t[j + 1]);
        LessIrreflexive(t[0]);
      }
      assert s == [s[0]] + s[1..] && t == [t[0]] + t[1..];
      assert Elems(s[1..]) == Elems(s) - {s[0]};
      assert Elems(t[1..]) == Elems(t) - {t[0]};
      AscendingUnique(s[1..], t[1..]);
    }
  }

  /** The keys of a finite set in TreeMap order. */
  ghost function SortedKeys(keys: set<string>): (r: seq<string>)
    ensures Ascending(r) && Elems(r) == keys
    decreases keys
  {
    if keys == {} then
      []
    else
      var k :| k in keys;
      Insert(SortedKeys(keys - {k}), k)
  }
}

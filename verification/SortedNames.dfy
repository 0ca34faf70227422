/** Python's sorted() on a set of strings: by code points, so the order is the set's own. */
module SortedNames {

  /** Strictly before, character by character. */
  predicate Below(a: string, b: string) {
    if b == "" then false
    else if a == "" then true
    else a[0] < b[0] || (a[0] == b[0] && Below(a[1..], b[1..]))
  }

  lemma {:induction false} BelowIsTotal(a: string, b: string)
    ensures a == b || Below(a, b) || Below(b, a)
    ensures !(Below(a, b) && Below(b, a)) && !Below(a, a)
  {
    if a != "" && b != "" {
      BelowIsTotal(a[1..], b[1..]);
      assert a == [a[0]] + a[1..] && b == [b[0]] + b[1..];
    }
    if a != "" {
      BelowIsTotal(a[1..], a[1..]);
    }
  }

  lemma {:induction false} BelowIsTransitive(a: string, b: string, c: string)
    requires Below(a, b) && Below(b, c)
    ensures Below(a, c)
  {
    if a != "" && b != "" && c != "" && a[0] == b[0] && b[0] == c[0] {
      BelowIsTransitive(a[1..], b[1..], c[1..]);
    }
  }

  predicate IsLeast(names: set<string>, m: string) {
    m in names && forall o <- names :: o == m || Below(m, o)
  }

  lemma LeastExists(names: set<string>) returns (m: string)
    requires names != {}
    ensures IsLeast(names, m)
    decreases |names|
  {
    var first :| first in names;
    var rest := names - {first};
    if rest == {} {
      assert names == {first};
      return first;
    }
    assert |rest| < |names|;
    var best := LeastExists(rest);
    BelowIsTotal(first, best);
    m := if Below(best, first) then best else first;
    forall o | o in names && o != m ensures Below(m, o) {
      if o != first && o != best && m == first {
        assert o in rest;
        BelowIsTransitive(first, best, o);
      } else if o != first {
        assert o in rest;
      }
    }
  }

  lemma LeastIsThere(names: set<string>)
    requires names != {}
    ensures exists m :: IsLeast(names, m)
  {
    var m := LeastExists(names);
  }

  lemma LeastIsOne(names: set<string>)
    ensures forall m, n :: IsLeast(names, m) && IsLeast(names, n) ==> m == n
  {
    forall m, n | IsLeast(names, m) && IsLeast(names, n) ensures m == n {
      BelowIsTotal(m, n);
    }
  }

  function Least(names: set<string>): (m: string)
    requires names != {}
    ensures IsLeast(names, m)
  {
    LeastIsThere(names);
    LeastIsOne(names);
    var m :| m in names && IsLeast(names, m);
    m
  }

  function Sorted(names: set<string>): seq<string> {
    if names == {} then [] else [Least(names)] + Sorted(names - {Least(names)})
  }

  /** The list holds exactly the names, each once, in ascending order. */
  lemma {:induction false} SortedLists(names: set<string>)
    ensures forall n :: n in Sorted(names) <==> n in names
    ensures forall i, j :: 0 <= i < j < |Sorted(names)| ==> Below(Sorted(names)[i], Sorted(names)[j])
  {
    if names != {} {
      var m := Least(names);
      SortedLists(names - {m});
      assert Sorted(names) == [m] + Sorted(names - {m});
      assert forall j :: 0 <= j < |Sorted(names - {m})| ==> Sorted(names - {m})[j] in Sorted(names - {m});
    }
  }

  lemma SortedInjective(a: set<string>, b: set<string>)
    requires Sorted(a) == Sorted(b)
    ensures a == b
  {
    SortedLists(a);
    SortedLists(b);
  }
}

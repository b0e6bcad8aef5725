/** Names in the order `sorted` puts them in: the numbering of countries and exits follows it. */
module Ordering {

  /** String order of the program: by the first character that differs, a prefix first. */
  predicate Less(a: string, b: string) {
    if b == [] then false
    else if a == [] then true
    else if a[0] != b[0] then a[0] < b[0]
    else Less(a[1..], b[1..])
  }

  lemma {:induction false} LessIsTotal(a: string, b: string)
    ensures !Less(a, a)
    ensures Less(a, b) || Less(b, a) || a == b
    ensures !(Less(a, b) && Less(b, a))
  {
    if a != [] && b != [] {
      LessIsTotal(a[1..], b[1..]);
    } else if a != [] {
      LessIsTotal(a[1..], []);
    }
  }

  lemma {:induction false} LessIsTransitive(a: string, b: string, c: string)
    requires Less(a, b) && Less(b, c)
    ensures Less(a, c)
  {
    if a != [] && b != [] && c != [] && a[0] == b[0] == c[0] {
      LessIsTransitive(a[1..], b[1..], c[1..]);
    }
  }

  predicate IsLeast(least: string, names: set<string>) {
    least in names && forall n :: n in names && n != least ==> Less(least, n)
  }

  lemma {:induction false} LeastExists(names: set<string>)
    requires names != {}
    ensures exists least :: IsLeast(least, names)
  {
    var name :| name in names;
    if names == {name} {
      assert IsLeast(name, names);
    } else {
      var rest := names - {name};
      LeastExists(rest);
      var least :| IsLeast(least, rest);
      LessIsTotal(least, name);
      if Less(name, least) {
        forall n | n in names && n != name ensures Less(name, n) {
          if n != least {
            LessIsTransitive(name, least, n);
          }
        }
        assert IsLeast(name, names);
      } else {
        assert IsLeast(least, names);
      }
    }
  }

  lemma LeastIsUnique(names: set<string>)
    ensures forall a, b :: IsLeast(a, names) && IsLeast(b, names) ==> a == b
  {
    forall a, b | IsLeast(a, names) && IsLeast(b, names) ensures a == b {
      LessIsTotal(a, b);
    }
  }

  predicate Ascending(names: seq<string>) {
    forall i, j :: 0 <= i < j < |names| ==> Less(names[i], names[j])
  }

  function Elements(names: seq<string>): set<string> {
    set n | n in names
  }

  lemma LeastInFront(least: string, rest: seq<string>, names: set<string>)
    requires IsLeast(least, names) && Elements(rest) == names - {least} && |rest| == |names| - 1 && Ascending(rest)
    ensures Elements([least] + rest) == names && |[least] + rest| == |names| && Ascending([least] + rest)
  {
    var all := [least] + rest;
    assert forall n :: n in rest <==> n in Elements(rest);
    assert forall n :: n in all <==> n == least || n in rest;
    forall i, j | 0 <= i < j < |all| ensures Less(all[i], all[j]) {
      assert all[j] == rest[j - 1] && all[j] in rest;
      if i > 0 {
        assert all[i] == rest[i - 1];
      }
    }
  }

  /** `sorted` of a set of names. */
  function SortedNames(names: set<string>): (sorted: seq<string>)
    ensures Elements(sorted) == names && |sorted| == |names| && Ascending(sorted)
    decreases |names|
  {
    if names == {} then [] else
      var least := Least(names);
      var rest := SortedNames(names - {least});
      LeastInFront(least, rest, names);
      [least] + rest
  }

  function Least(names: set<string>): (least: string)
    requires names != {}
    ensures IsLeast(least, names)
  {
    LeastExists(names);
    LeastIsUnique(names);
    var least :| least in names && IsLeast(least, names);
    least
  }

  lemma HasElements(names: seq<string>)
    requires names != []
    ensures Elements(names) != {}
  {
    assert names[0] in Elements(names);
  }

  /** There is one ascending list of a set of names. */
  lemma {:induction false} AscendingIsUnique(a: seq<string>, b: seq<string>)
    requires Ascending(a) && Ascending(b) && Elements(a) == Elements(b)
    ensures a == b
  {
    if a == [] {
      if b != [] {
        HasElements(b);
      }
    } else {
      assert a[0] in Elements(a) && a[0] in Elements(b);
      assert b[0] in Elements(b) && b[0] in Elements(a);
      LessIsTotal(a[0], b[0]);
      assert a[0] == b[0];
      forall n ensures n in Elements(a[1..]) <==> n in Elements(b[1..]) {
        LessIsTotal(a[0], n);
        assert a == [a[0]] + a[1..] && b == [b[0]] + b[1..];
        if n in a[1..] {
          assert n in Elements(a);
        }
        if n in b[1..] {
          assert n in Elements(b);
        }
      }
      assert Elements(a[1..]) == Elements(b[1..]);
      AscendingIsUnique(a[1..], b[1..]);
    }
  }

  lemma ListedIff(sorted: seq<string>, names: set<string>)
    requires Elements(sorted) == names
    ensures forall name :: name in sorted <==> name in names
  {
    assert forall name :: name in sorted <==> name in Elements(sorted);
  }
}

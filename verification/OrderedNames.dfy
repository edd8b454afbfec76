/** Names in the order an ordered map lists them. */
module OrderedNames {

  predicate AtMost(a: string, b: string) {
    a == "" || (b != "" && (a[0] < b[0] || (a[0] == b[0] && AtMost(a[1..], b[1..]))))
  }

  lemma {:induction false} Antisymmetric(a: string, b: string)
    requires AtMost(a, b) && AtMost(b, a)
    ensures a == b
  {
    if a != "" {
      Antisymmetric(a[1..], b[1..]);
      assert a == [a[0]] + a[1..] && b == [b[0]] + b[1..];
    }
  }

  lemma {:induction false} Total(a: string, b: string)
    ensures AtMost(a, b) || AtMost(b, a)
  {
    if a != "" && b != "" {
      Total(a[1..], b[1..]);
    }
  }

  lemma {:induction false} Transitive(a: string, b: string, c: string)
    requires AtMost(a, b) && AtMost(b, c)
    ensures AtMost(a, c)
  {
    if a != "" && a[0] == b[0] == c[0] {
      Transitive(a[1..], b[1..], c[1..]);
    }
  }

  predicate IsFirst(names: set<string>, name: string) {
    name in names && forall other :: other in names ==> AtMost(name, other)
  }

  lemma {:induction false} FirstExists(names: set<string>)
    requires names != {}
    ensures exists name :: IsFirst(names, name)
  {
    var some :| some in names;
    var rest := names - {some};
    if rest == {} {
      Total(some, some);
      assert names == rest + {some};
      assert IsFirst(names, some);
    } else {
      FirstExists(rest);
      var least :| IsFirst(rest, least);
      Total(some, least);
      Total(some, some);
      var name := if AtMost(some, least) then some else least;
      forall other | other in names ensures AtMost(name, other) {
        if other in rest && name == some {
          Transitive(some, least, other);
        }
      }
      assert IsFirst(names, name);
    }
  }

  lemma FirstIsUnique(names: set<string>, a: string, b: string)
    requires IsFirst(names, a) && IsFirst(names, b)
    ensures a == b
  {
    Antisymmetric(a, b);
  }

  function Ordered(names: set<string>): (r: seq<string>)
    ensures forall name :: name in r <==> name in names
    ensures |r| == |names|
  {
    if names == {} then []
    else
      FirstExists(names);
      assert forall a, b :: IsFirst(names, a) && IsFirst(names, b) ==> a == b by {
        forall a, b | IsFirst(names, a) && IsFirst(names, b) ensures a == b {
          FirstIsUnique(names, a, b);
        }
      }
      var name :| IsFirst(names, name);
      [name] + Ordered(names - {name})
  }

  /** No name comes twice, and every name comes before the greater ones. */
  lemma {:induction false} OrderedAscends(names: set<string>)
    ensures forall i, k :: 0 <= i < k < |Ordered(names)| ==>
              AtMost(Ordered(names)[i], Ordered(names)[k]) && Ordered(names)[i] != Ordered(names)[k]
  {
    if names != {} {
      OrderedAscends(names - {Ordered(names)[0]});
    }
  }
}

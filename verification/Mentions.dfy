/** Names in the order a list first mentions them. */
module Mentions {
  function FirstNamed(names: seq<string>): seq<string> {
    if names == [] then []
    else
      var n := |names| - 1;
      FirstNamed(names[..n]) + if names[n] in names[..n] then [] else [names[n]]
  }

  /** a is mentioned before b ever is. */
  ghost predicate Before(names: seq<string>, a: string, b: string) {
    exists k :: 0 <= k < |names| && names[k] == a && b !in names[..k + 1]
  }

  lemma FirstNamedNext(names: seq<string>, x: string)
    ensures FirstNamed(names + [x]) == FirstNamed(names) + if x in names then [] else [x]
  {
    assert (names + [x])[..|names|] == names;
  }

  lemma {:induction false} FirstNamedMembers(names: seq<string>)
    ensures forall x :: x in FirstNamed(names) <==> x in names
  {
    if names != [] {
      FirstNamedMembers(names[..|names| - 1]);
      assert names == names[..|names| - 1] + [names[|names| - 1]];
    }
  }

  ghost predicate OnceEach(names: seq<string>) {
    forall i :: 0 <= i < |names| ==> names[i] !in names[..i]
  }

  lemma FirstNamedOnce(names: seq<string>)
    ensures OnceEach(FirstNamed(names))
  {
    var first := FirstNamed(names);
    forall i | 0 <= i < |first| ensures first[i] !in first[..i] {
      forall j | 0 <= j < i ensures first[j] != first[i] { FirstNamedInOrder(names, j, i); }
    }
  }

  /** What FirstNamed says of one more name, its members included. */
  lemma NextName(names: seq<string>, x: string)
    ensures var first := FirstNamed(names);
            FirstNamed(names + [x]) == if x in first then first else first + [x]
  {
    FirstNamedNext(names, x);
    FirstNamedMembers(names);
    assert FirstNamed(names) + [] == FirstNamed(names);
  }

  /** Each name is there once, behind exactly the names mentioned before it. */
  lemma {:induction false} FirstNamedInOrder(names: seq<string>, i: nat, j: nat)
    requires i < j < |FirstNamed(names)|
    ensures FirstNamed(names)[i] != FirstNamed(names)[j]
    ensures Before(names, FirstNamed(names)[i], FirstNamed(names)[j])
  {
    var n := |names| - 1;
    var front := FirstNamed(names[..n]);
    FirstNamedMembers(names[..n]);
    if j < |front| {
      FirstNamedInOrder(names[..n], i, j);
      var k :| 0 <= k < n && names[..n][k] == front[i] && front[j] !in names[..n][..k + 1];
      assert names[..n][..k + 1] == names[..k + 1];
    } else {
      assert front[i] in names[..n];
      var k :| 0 <= k < n && names[..n][k] == front[i];
      assert names[n] !in names[..k + 1] by { assert forall x :: x in names[..k + 1] ==> x in names[..n]; }
    }
  }
}

/** Sequence helpers shared by the extractors: what a loop keeps when it
    pushes only some of the values it computes. */
module Seqs {
  import opened Common

  /** The results of `f` that are present, in order: what a loop that pushes
      only some results keeps. */
  function Kept<A(==), B(==)>(xs: seq<A>, f: A -> Option<B>): (r: seq<B>)
    decreases |xs|
    ensures |r| <= |xs|
  {
    if xs == [] then []
    else
      var prev := Kept(xs[..|xs| - 1], f);
      match f(xs[|xs| - 1])
      case Some(b) => prev + [b]
      case None => prev
  }

  lemma {:induction false} KeptPrefix<A, B>(xs: seq<A>, i: nat, f: A -> Option<B>)
    requires i <= |xs|
    decreases |xs| - i
    ensures var p := Kept(xs[..i], f); var r := Kept(xs, f);
      |p| <= |r| && r[..|p|] == p
  {
    if i == |xs| {
      assert xs[..i] == xs;
    } else {
      KeptPrefix(xs, i + 1, f);
      assert xs[..i + 1][..i] == xs[..i];
    }
  }

  /** One more element: `Kept` grows by that element's entry, if any. */
  lemma KeptSnoc<A, B>(xs: seq<A>, i: nat, f: A -> Option<B>)
    requires i < |xs|
    ensures Kept(xs[..i + 1], f) == Kept(xs[..i], f) + (if f(xs[i]).Some? then [f(xs[i]).value] else [])
  {
    assert xs[..i + 1][..i] == xs[..i];
  }

  /** The same step as a loop takes it: with `acc` kept so far and `y` the
      entry just computed, the push (or not) of `y` is what `Kept` holds next. */
  lemma KeptPush<A, B>(xs: seq<A>, i: nat, f: A -> Option<B>, acc: seq<B>, y: Option<B>)
    requires i < |xs| && acc == Kept(xs[..i], f) && y == f(xs[i])
    ensures Kept(xs[..i + 1], f) == if y.Some? then acc + [y.value] else acc
  {
    KeptSnoc(xs, i, f);
  }

  /** `f` applied to every element, in order. */
  function Map<A, B>(xs: seq<A>, f: A -> B): (r: seq<B>)
    ensures |r| == |xs|
    ensures forall i :: 0 <= i < |xs| ==> r[i] == f(xs[i])
  {
    seq(|xs|, i requires 0 <= i < |xs| => f(xs[i]))
  }

  /** One more element: what a loop that pushes `f` of each element holds next. */
  lemma MapSnoc<A, B>(xs: seq<A>, i: nat, f: A -> B, acc: seq<B>, y: B)
    requires i < |xs| && acc == Map(xs[..i], f) && y == f(xs[i])
    ensures Map(xs[..i + 1], f) == acc + [y]
  {
    assert Map(xs[..i + 1], f)[..i] == acc;
  }

  /** Whatever `Kept` holds is the entry of some input element. */
  lemma {:induction false} KeptSound<A, B>(xs: seq<A>, f: A -> Option<B>, b: B)
    requires b in Kept(xs, f)
    decreases |xs|
    ensures exists x :: x in xs && f(x) == Some(b)
  {
    var init := xs[..|xs| - 1];
    var last := xs[|xs| - 1];
    if b in Kept(init, f) {
      KeptSound(init, f, b);
      var x :| x in init && f(x) == Some(b);
      assert x in xs;
    } else {
      assert f(last) == Some(b);
    }
  }

  /** The first non-empty text among the probes of `xs`, in order, and `""`
      when every probe is empty: what a loop that returns its first non-empty
      probe computes. */
  function FirstNonEmpty<A>(xs: seq<A>, probe: A -> string): string
    decreases |xs|
  {
    if xs == [] then ""
    else if probe(xs[0]) != "" then probe(xs[0])
    else FirstNonEmpty(xs[1..], probe)
  }

  /** The result is the probe of the first element whose probe is not empty,
      and `""` exactly when every probe is empty. */
  lemma {:induction false} FirstNonEmptyFirst<A>(xs: seq<A>, probe: A -> string)
    decreases |xs|
    ensures var r := FirstNonEmpty(xs, probe);
      (r != "" ==> exists i :: 0 <= i < |xs| && probe(xs[i]) == r &&
                               forall j :: 0 <= j < i ==> probe(xs[j]) == "") &&
      (r == "" <==> forall i :: 0 <= i < |xs| ==> probe(xs[i]) == "")
  {
    if xs != [] && probe(xs[0]) == "" {
      var tail := xs[1..];
      FirstNonEmptyFirst(tail, probe);
      assert forall i :: 1 <= i < |xs| ==> xs[i] == tail[i - 1];
      var r := FirstNonEmpty(tail, probe);
      if r != "" {
        var i :| 0 <= i < |tail| && probe(tail[i]) == r &&
                 forall j :: 0 <= j < i ==> probe(tail[j]) == "";
        assert probe(xs[i + 1]) == r;
      }
    }
  }
}

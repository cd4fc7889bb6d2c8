/** Mapping a fallible step over a list in order, stopping at the first
    failure: the shape of every `for ... : out.append(table[x])` loop of the
    serializer, where an unknown key raises and abandons the message. */
module Traversal {
  import opened Wrappers

  /** The results of f on xs, in order, or the error of the first element on which f fails. */
  function Traverse<A, B, E>(f: A -> Result<B, E>, xs: seq<A>): Result<seq<B>, E>
    decreases |xs|
  {
    if |xs| == 0 then Ok([])
    else
      match f(xs[0])
      case Err(e) => Err(e)
      case Ok(y) =>
        match Traverse(f, xs[1..])
        case Err(e) => Err(e)
        case Ok(ys) => Ok([y] + ys)
  }

  /** Traverse succeeds exactly when f succeeds on every element, and then
      its i-th value is f's value on the i-th element. */
  lemma {:induction false} TraverseOk<A, B, E>(f: A -> Result<B, E>, xs: seq<A>)
    ensures Traverse(f, xs).Ok? <==> forall i :: 0 <= i < |xs| ==> f(xs[i]).Ok?
    ensures Traverse(f, xs).Ok? ==>
              |Traverse(f, xs).value| == |xs| &&
              forall i :: 0 <= i < |xs| ==> f(xs[i]) == Ok(Traverse(f, xs).value[i])
    decreases |xs|
  {
    if |xs| > 0 {
      var tail := xs[1..];
      TraverseOk(f, tail);
      assert forall i :: 1 <= i < |xs| ==> xs[i] == tail[i - 1];
    }
  }

  /** When every element before position i succeeds and element i fails,
      Traverse fails with element i's error, whatever comes after it. */
  lemma {:induction false} TraverseFirstErr<A, B, E>(f: A -> Result<B, E>, xs: seq<A>, i: nat)
    requires i < |xs|
    requires forall j :: 0 <= j < i ==> f(xs[j]).Ok?
    requires f(xs[i]).Err?
    ensures Traverse(f, xs) == Err(f(xs[i]).error)
    decreases i
  {
    if i > 0 {
      var tail := xs[1..];
      assert forall j :: 0 <= j < i - 1 ==> tail[j] == xs[j + 1];
      TraverseFirstErr(f, tail, i - 1);
    }
  }

  /** The loop itself: apply f element by element, appending each value,
      and give up at the first failure. */
  method TraverseEach<A, B, E>(f: A -> Result<B, E>, xs: seq<A>) returns (r: Result<seq<B>, E>)
    ensures r == Traverse(f, xs)
  {
    var out: seq<B> := [];
    for i := 0 to |xs|
      invariant |out| == i
      invariant forall j :: 0 <= j < i ==> f(xs[j]) == Ok(out[j])
    {
      var y := f(xs[i]);
      if y.Err? {
        TraverseFirstErr(f, xs, i);
        return Err(y.error);
      }
      out := out + [y.value];
    }
    TraverseOk(f, xs);
    assert Traverse(f, xs).value == out;
    r := Ok(out);
  }
}

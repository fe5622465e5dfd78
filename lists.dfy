/**
 * The two list idioms the layer relies on: a list comprehension whose element
 * expression may raise (`[f(x) for x in xs]`, stopping at the first
 * exception), and a string grown with `+=` in a loop.
 */
module Lists {
  import opened Wrappers

  /**
   * `[f(x) for x in xs]` where `f` may raise: every result in order, or the
   * exception of the first element whose `f` raises.
   */
  function Collect<T, U>(f: T -> Result<U, string>, xs: seq<T>): (r: Result<seq<U>, string>)
    ensures r.Success? <==> forall i :: 0 <= i < |xs| ==> f(xs[i]).Success?
    ensures r.Success? ==> |r.value| == |xs|
    ensures r.Success? ==> forall i :: 0 <= i < |xs| ==> f(xs[i]) == Success(r.value[i])
    ensures r.Failure? ==>
      exists i :: 0 <= i < |xs| && f(xs[i]) == Failure(r.error) &&
        forall j :: 0 <= j < i ==> f(xs[j]).Success?
  {
    if xs == [] then Success([])
    else
      var n := |xs| - 1;
      match Collect(f, xs[..n])
      case Failure(e) =>
        assert forall j :: 0 <= j < n ==> xs[..n][j] == xs[j];
        Failure(e)
      case Success(ys) =>
        assert forall j :: 0 <= j < n ==> xs[..n][j] == xs[j];
        match f(xs[n])
        case Failure(e) => Failure(e)
        case Success(y) => Success(ys + [y])
  }

  /** `out = ""; for s in parts: out += s`. */
  function Concat(parts: seq<string>): string
  {
    if parts == [] then "" else Concat(parts[..|parts| - 1]) + parts[|parts| - 1]
  }

  /** The text after the first `i` steps of the `+=` loop is a prefix of the final text. */
  lemma {:induction false} ConcatPrefix(parts: seq<string>, i: nat)
    requires i <= |parts|
    ensures Concat(parts[..i]) <= Concat(parts)
  {
    if i < |parts| {
      var n := |parts| - 1;
      ConcatPrefix(parts[..n], i);
      assert parts[..n][..i] == parts[..i];
    } else {
      assert parts[..i] == parts;
    }
  }

  /** Extending a successful prefix by one successful element. */
  lemma CollectStep<T, U>(f: T -> Result<U, string>, xs: seq<T>, i: nat, ys: seq<U>, y: U)
    requires i < |xs| && Collect(f, xs[..i]) == Success(ys) && f(xs[i]) == Success(y)
    ensures Collect(f, xs[..i + 1]) == Success(ys + [y])
  {
    assert xs[..i + 1][..i] == xs[..i];
  }

  /** The first element that raises decides the whole comprehension. */
  lemma CollectFailsAt<T, U>(f: T -> Result<U, string>, xs: seq<T>, i: nat)
    requires i < |xs| && Collect(f, xs[..i]).Success? && f(xs[i]).Failure?
    ensures Collect(f, xs) == Failure(f(xs[i]).error)
  {
    assert forall j :: 0 <= j < i ==> xs[..i][j] == xs[j];
    var r := Collect(f, xs);
    var j :| 0 <= j < |xs| && f(xs[j]) == Failure(r.error) && forall j' :: 0 <= j' < j ==> f(xs[j']).Success?;
    assert j == i;
  }

  /** One more `+=`. */
  lemma ConcatStep(parts: seq<string>, s: string)
    ensures Concat(parts + [s]) == Concat(parts) + s
  {
    assert (parts + [s])[..|parts|] == parts;
  }
}


/** The few Python built-ins the vertex-selection rule relies on, with the
    exceptions they raise modelled as error values: indexing the last entry of
    a list, `list(range(n))`, `list.remove` and `random.choice`. */
module Builtins {

  /** The Python exceptions that can escape a modification. */
  datatype Error =
    | IndexError           // `xs[-1]` on an empty list, `random.choice([])`
    | ValueError           // `xs.remove(x)` when `x` is not in `xs`
    | NotImplementedError  // the stubs of the base modification
    | AttributeError       // reading `self.game` before the game has set it

  datatype Result<T> = Ok(value: T) | Err(error: Error)

  /** `xs[-1]`: the last entry, or IndexError on an empty list. */
  function LastEntry(xs: seq<int>): (r: Result<int>)
    ensures r.Ok? <==> |xs| > 0
    ensures r.Ok? ==> r.value in xs && xs == xs[..|xs| - 1] + [r.value]
    ensures r.Err? ==> r.error == IndexError
  {
    if |xs| == 0 then Err(IndexError) else Ok(xs[|xs| - 1])
  }

  /** `list(range(n))` for a length `n`. */
  function Range(n: nat): (r: seq<int>)
  {
    seq(n, i => i)
  }

  ghost predicate StrictlyIncreasing(xs: seq<int>)
  {
    forall i, j :: 0 <= i < j < |xs| ==> xs[i] < xs[j]
  }

  lemma RangeFacts(n: nat)
    ensures |Range(n)| == n && StrictlyIncreasing(Range(n))
    ensures forall v :: v in Range(n) <==> 0 <= v < n
  {
    forall v | 0 <= v < n
      ensures v in Range(n)
    {
      assert Range(n)[v] == v;
    }
  }

  /** What `xs.remove(x)` leaves in the list: `xs` without its FIRST
      occurrence of `x`, or ValueError when `x` does not occur. */
  function RemoveFirst(xs: seq<int>, x: int): (r: Result<seq<int>>)
    ensures r.Ok? <==> x in xs
    ensures r.Err? ==> r.error == ValueError
    ensures r.Ok? ==> |r.value| == |xs| - 1 && multiset(r.value) == multiset(xs) - multiset{x}
  {
    if |xs| == 0 then Err(ValueError)
    else if xs[0] == x then
      assert xs == [xs[0]] + xs[1..];
      Ok(xs[1..])
    else
      match RemoveFirst(xs[1..], x)
      case Err(e) => Err(e)
      case Ok(rest) =>
        assert xs == [xs[0]] + xs[1..];
        Ok([xs[0]] + rest)
  }

  /** When the first occurrence of `x` is at index `i`, the removal leaves
      the list with slot `i` closed. */
  lemma {:induction false} RemoveFirstAt(xs: seq<int>, x: int, i: nat)
    requires i < |xs| && xs[i] == x && x !in xs[..i]
    ensures RemoveFirst(xs, x) == Ok(xs[..i] + xs[i + 1..])
  {
    if i == 0 {
      assert xs[..0] + xs[1..] == xs[1..];
    } else {
      assert xs[0] == xs[..i][0];
      assert xs[1..][..i - 1] == xs[1..i];
      RemoveFirstAt(xs[1..], x, i - 1);
      assert [xs[0]] + (xs[1..][..i - 1] + xs[1..][i..]) == xs[..i] + xs[i + 1..];
    }
  }

  /** `xs.remove(x)`: a scan for the first occurrence of `x`, then the list
      closes over the removed slot. */
  method ListRemove(xs: seq<int>, x: int) returns (r: Result<seq<int>>)
    ensures r == RemoveFirst(xs, x)
  {
    var i := 0;
    while i < |xs| && xs[i] != x
      invariant 0 <= i <= |xs|
      invariant x !in xs[..i]
    {
      i := i + 1;
    }
    if i == |xs| {
      assert xs[..i] == xs;
      r := Err(ValueError);
    } else {
      RemoveFirstAt(xs, x, i);
      r := Ok(xs[..i] + xs[i + 1..]);
    }
  }

  /** Every result `random.choice(xs)` can give: the element at any index
      below `len(xs)`, or IndexError when `xs` is empty. Probabilities are not modelled. */
  ghost function ChoiceOutcomes(xs: seq<int>): set<Result<int>>
  {
    if |xs| == 0 then {Err(IndexError)} else set k | 0 <= k < |xs| :: Ok(xs[k])
  }

  /** `random.choice(xs)` can give exactly the elements of `xs`, and fails
      exactly when `xs` is empty, with IndexError. */
  lemma ChoiceOutcomesMembers(xs: seq<int>)
    ensures forall v :: Ok(v) in ChoiceOutcomes(xs) <==> v in xs
    ensures forall e :: Err(e) in ChoiceOutcomes(xs) <==> |xs| == 0 && e == IndexError
  {
  }

  /** `random.choice(xs)`: draws an index below `len(xs)` and returns that
      element; the draw is left to the verifier, which must accept any. */
  method RandomChoice(xs: seq<int>) returns (r: Result<int>)
    ensures r in ChoiceOutcomes(xs)
    ensures r.Ok? <==> |xs| > 0
    ensures r.Ok? ==> r.value in xs
  {
    if |xs| == 0 {
      r := Err(IndexError);
    } else {
      var k :| 0 <= k < |xs|;
      r := Ok(xs[k]);
    }
  }
}

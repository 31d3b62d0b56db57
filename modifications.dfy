/** Modifications extending the traditional chaos game: the capability split
    between modifications that supply the vertexes and modifications that
    supply the next vertex index, and the "ignore the current vertex" rule. */
module Modifications {
  import opened Builtins
  import opened ChaosGame

  /** A vertex coordinate. No modification here produces one. */
  type Vertex = seq<real>

  /** The two operations a modification may supply: `get_vertexes` and
      `get_next_vertex_index`. */
  datatype Capability = Vertexes | NextVertex

  /** The modification classes, from the base class down. */
  datatype ModificationClass =
    | BaseModification
    | VertexesModification
    | NextVertexModification
    | IgnoreTheCurrentVertexModification

  function Depth(c: ModificationClass): (d: nat)
  {
    match c
    case BaseModification => 0
    case IgnoreTheCurrentVertexModification => 2
    case _ => 1
  }

  /** The direct base class of every class but the base modification. */
  function Parent(c: ModificationClass): (p: ModificationClass)
    requires !c.BaseModification?
    ensures Depth(p) + 1 == Depth(c)
  {
    if c.IgnoreTheCurrentVertexModification? then NextVertexModification else BaseModification
  }

  predicate IsSubclass(c: ModificationClass, d: ModificationClass)
    decreases Depth(c)
  {
    c == d || (!c.BaseModification? && IsSubclass(Parent(c), d))
  }

  /** Whether the body of class `c` defines the operation itself. The base
      class defines both as stubs that raise; each abstract subclass redefines
      the one it commits to; the concrete strategy defines the next index. */
  predicate Declares(c: ModificationClass, op: Capability)
  {
    match c
    case BaseModification => true
    case VertexesModification => op == Vertexes
    case NextVertexModification => op == NextVertex
    case IgnoreTheCurrentVertexModification => op == NextVertex
  }

  /** Whether the definition of `op` in class `c` is an abstract method. */
  predicate IsAbstract(c: ModificationClass, op: Capability)
  {
    (c == VertexesModification && op == Vertexes) ||
    (c == NextVertexModification && op == NextVertex)
  }

  /** Method lookup: the nearest class, from `c` up, that defines `op`. */
  function Resolve(c: ModificationClass, op: Capability): (d: ModificationClass)
    ensures Declares(d, op) && IsSubclass(c, d)
    ensures forall e :: IsSubclass(c, e) && Declares(e, op) ==> IsSubclass(d, e)
    decreases Depth(c)
  {
    if Declares(c, op) then c else Resolve(Parent(c), op)
  }

  /** A class can be instantiated when none of its operations resolves to an
      abstract method. */
  predicate Instantiable(c: ModificationClass)
  {
    !IsAbstract(Resolve(c, Vertexes), Vertexes) &&
    !IsAbstract(Resolve(c, NextVertex), NextVertex)
  }

  /** The classes abc lets the program instantiate. */
  type InstantiableClass = c: ModificationClass | Instantiable(c) witness BaseModification

  /** Only the base modification and the concrete strategy can be created;
      the two capability classes are abstract. */
  lemma InstantiableClasses(c: ModificationClass)
    ensures Instantiable(c) <==> c == BaseModification || c == IgnoreTheCurrentVertexModification
  {
  }

  /** An instantiable class supplies an operation of its own exactly when it
      descends from the capability class that commits to that operation;
      every other operation falls back to the failing stub of the base class. */
  lemma CapabilitySplit(c: ModificationClass, op: Capability)
    requires Instantiable(c)
    ensures Resolve(c, op) != BaseModification <==>
              (op == Vertexes && IsSubclass(c, VertexesModification)) ||
              (op == NextVertex && IsSubclass(c, NextVertexModification))
  {
  }

  /** Every result the "ignore the current vertex" rule can give for the
      selection history `history` in a game with `n` vertexes: the current
      index is the last entry of the history, the eligible indexes are
      `0..n-1` with the current one removed, and one of them is drawn. */
  ghost function NextVertexOutcomes(history: seq<int>, n: nat): set<Result<int>>
  {
    match LastEntry(history)
    case Err(e) => {Err(e)}
    case Ok(current) =>
      match RemoveFirst(Range(n), current)
      case Err(e) => {Err(e)}
      case Ok(eligible) => ChoiceOutcomes(eligible)
  }

  /** With the current index in range, the eligible list is `0..n-1` without
      it: still in increasing order and one shorter. */
  lemma EligibleIndexes(n: nat, current: int)
    requires 0 <= current < n
    ensures RemoveFirst(Range(n), current).Ok?
    ensures var eligible := RemoveFirst(Range(n), current).value;
            |eligible| == n - 1 && StrictlyIncreasing(eligible) &&
            (forall v :: v in eligible <==> 0 <= v < n && v != current)
  {
    var all := Range(n);
    assert all[current] == current;
    assert current !in all[..current];
    RemoveFirstAt(all, current, current);
    var eligible := all[..current] + all[current + 1..];
    assert |eligible| == n - 1;
    assert forall i :: 0 <= i < n - 1 ==> eligible[i] == if i < current then i else i + 1;
    forall v | 0 <= v < n && v != current
      ensures v in eligible
    {
      assert eligible[if v < current then v else v - 1] == v;
    }
  }

  /** A current index outside `0..n-1`, a negative seed included, is not in
      the list, so the removal raises ValueError. */
  lemma CurrentOutOfRange(n: nat, current: int)
    requires current < 0 || n <= current
    ensures RemoveFirst(Range(n), current) == Err(ValueError)
  {
  }

  /** The possible successful results are exactly the indexes `0..n-1` other
      than the last entry of the history, and only when that entry is itself
      in range. */
  lemma NextVertexResults(history: seq<int>, n: nat, v: int)
    ensures Ok(v) in NextVertexOutcomes(history, n) <==>
              |history| > 0 && 0 <= history[|history| - 1] < n &&
              0 <= v < n && v != history[|history| - 1]
  {
    if |history| > 0 {
      var current := history[|history| - 1];
      if 0 <= current < n {
        EligibleIndexes(n, current);
        ChoiceOutcomesMembers(RemoveFirst(Range(n), current).value);
      } else {
        CurrentOutOfRange(n, current);
      }
    }
  }

  /** The rule fails with IndexError on an empty history, with ValueError when
      the current index is out of range, with IndexError when it removes the
      only vertex, and cannot fail otherwise. */
  lemma NextVertexFailures(history: seq<int>, n: nat)
    ensures |history| == 0 ==> NextVertexOutcomes(history, n) == {Err(IndexError)}
    ensures |history| > 0 && !(0 <= history[|history| - 1] < n) ==>
              NextVertexOutcomes(history, n) == {Err(ValueError)}
    ensures |history| > 0 && n == 1 && history[|history| - 1] == 0 ==>
              NextVertexOutcomes(history, n) == {Err(IndexError)}
    ensures |history| > 0 && 0 <= history[|history| - 1] < n && 2 <= n ==>
              forall e :: Err(e) !in NextVertexOutcomes(history, n)
  {
    if |history| > 0 {
      var current := history[|history| - 1];
      if 0 <= current < n {
        EligibleIndexes(n, current);
        ChoiceOutcomesMembers(RemoveFirst(Range(n), current).value);
      } else {
        CurrentOutOfRange(n, current);
      }
    }
  }

  /** With two vertexes the rule is forced: the only result is the other
      vertex. */
  lemma TwoVertexes(history: seq<int>)
    requires |history| > 0 && 0 <= history[|history| - 1] < 2
    ensures NextVertexOutcomes(history, 2) == {Ok(1 - history[|history| - 1])}
  {
    var current := history[|history| - 1];
    NextVertexFailures(history, 2);
    forall r | r in NextVertexOutcomes(history, 2)
      ensures r == Ok(1 - current)
    {
      NextVertexResults(history, 2, r.value);
    }
    NextVertexResults(history, 2, 1 - current);
  }

  /** Only the last entry of the history matters. */
  lemma OnlyCurrentMatters(history: seq<int>, other: seq<int>, n: nat)
    requires |history| > 0 && |other| > 0
    requires history[|history| - 1] == other[|other| - 1]
    ensures NextVertexOutcomes(history, n) == NextVertexOutcomes(other, n)
  {
  }

  /** A history grown one selection at a time by the rule never repeats a
      vertex twice in a row, stays in range, and with two vertexes alternates. */
  lemma ConsecutiveSelectionsDiffer(history: seq<int>, n: nat)
    requires forall i :: 1 <= i < |history| ==> Ok(history[i]) in NextVertexOutcomes(history[..i], n)
    ensures forall i :: 1 <= i < |history| ==> 0 <= history[i] < n && history[i] != history[i - 1]
    ensures n == 2 ==> forall i :: 1 <= i < |history| ==> history[i] == 1 - history[i - 1]
  {
    forall i | 1 <= i < |history|
      ensures 0 <= history[i] < n && history[i] != history[i - 1]
    {
      NextVertexResults(history[..i], n, history[i]);
      assert history[..i][i - 1] == history[i - 1];
    }
  }

  /** A modification of a game. */
  class Modification {
    /** The class this modification was created from. */
    const cls: InstantiableClass

    /** The game which this modification modifies; null until the game sets
        it. */
    var game: Game?

    constructor (cls: InstantiableClass)
      ensures this.cls == cls && game == null
    {
      this.cls := cls;
      game := null;
    }

    /** The game sets this attribute for each of its modifications. */
    method SetGame(g: Game)
      modifies this`game
      ensures game == g
    {
      game := g;
    }

    /** `get_vertexes`: no instantiable class supplies the vertexes, so every
        call reaches the base stub and raises NotImplementedError. */
    method GetVertexes() returns (r: Result<seq<Vertex>>)
      ensures Resolve(cls, Vertexes) == BaseModification
      ensures r == Err(NotImplementedError)
    {
      InstantiableClasses(cls);
      match Resolve(cls, Vertexes)
      case BaseModification =>
        r := Err(NotImplementedError);
      case _ =>
        assert false;
    }

    /** `get_next_vertex_index`: the base stub raises NotImplementedError;
        the "ignore the current vertex" strategy draws one of the indexes of
        the game's vertexes other than the last one selected. */
    method GetNextVertexIndex(selectedVertexIndexes: seq<int>) returns (r: Result<int>)
      ensures cls == BaseModification ==> r == Err(NotImplementedError)
      ensures cls == IgnoreTheCurrentVertexModification && game == null ==>
                r == if |selectedVertexIndexes| == 0 then Err(IndexError) else Err(AttributeError)
      ensures cls == IgnoreTheCurrentVertexModification && game != null ==>
                r in NextVertexOutcomes(selectedVertexIndexes, game.vertexCount)
      ensures cls == IgnoreTheCurrentVertexModification && game != null && r.Ok? ==>
                0 <= r.value < game.vertexCount &&
                r.value != selectedVertexIndexes[|selectedVertexIndexes| - 1]
    {
      InstantiableClasses(cls);
      if Resolve(cls, NextVertex) != IgnoreTheCurrentVertexModification {
        r := Err(NotImplementedError);
        return;
      }
      var last := LastEntry(selectedVertexIndexes);
      if last.Err? {
        r := Err(last.error);
        return;
      }
      if game == null {
        r := Err(AttributeError);
        return;
      }
      var currentVertexIndex := last.value;
      var vertexIndexes := Range(game.vertexCount);
      var removed := ListRemove(vertexIndexes, currentVertexIndex);
      if removed.Err? {
        r := Err(removed.error);
        return;
      }
      vertexIndexes := removed.value;
      r := RandomChoice(vertexIndexes);
      if r.Ok? {
        NextVertexResults(selectedVertexIndexes, game.vertexCount, r.value);
      }
    }
  }
}

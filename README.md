# Chaos game modifications

A model of the modification system of a chaos-game generator. A chaos game
repeatedly jumps part of the way toward a randomly chosen vertex of a polygon;
modifications change either which vertexes exist or which vertex may be
chosen next. The model covers:

- the class hierarchy of modifications: a base `Modification` whose two
  operations, `get_vertexes` and `get_next_vertex_index`, are stubs raising
  `NotImplementedError`, two abstract subclasses that each commit to one of
  those operations, and the concrete `IgnoreTheCurrentVertexModification`;
- the back-reference from a modification to its game, which the game sets
  from outside;
- the "ignore the current vertex" rule: take the last selected vertex index
  from the history, build the list of all vertex indexes of the game, remove
  the current one from it in place, and draw one of the rest at random.

Files:

- `builtins.dfy` (module `Builtins`): the Python built-ins the rule uses,
  with their exceptions as `Result` errors. `xs[-1]` on a list is `LastEntry`,
  `list(range(n))` is `Range`, and `list.remove` is `ListRemove`, a scan for
  the first occurrence proved against the function `RemoveFirst`.
  `random.choice` is `RandomChoice`, whose draw is a nondeterministic choice
  that the proofs must accept for any index; its admissible results are the
  set `ChoiceOutcomes`.
- `game.dfy` (module `ChaosGame`): the game, reduced to its vertex count
  (default 3).
- `modifications.dfy` (module `Modifications`): the class hierarchy as data
  (`Parent`, `Declares`, `IsAbstract`, method lookup `Resolve`, `Instantiable`),
  the `Modification` class with its `game` field and both operations, the set
  `NextVertexOutcomes` of every result the rule can give, and the lemmas that
  characterise that set.

Python's method lookup decides what each instantiable class does. Calling
`get_vertexes` on `IgnoreTheCurrentVertexModification` reaches the base
stub and raises `NotImplementedError`, and `GetVertexes` models exactly that.
Python's `abc` refuses to instantiate a class whose lookup ends at an abstract
method. This is modelled structurally by `Instantiable`: a modification's
class has the subset type `InstantiableClass`, so only those classes can be
given to the constructor.

The `game` attribute is only an annotation in the base class and has no value
until the game assigns one. The model gives the field `null` before
`SetGame`, and reading it then raises `AttributeError`. Python evaluates
`selected_vertex_indexes[-1]` before `self.game`, so an empty history still
fails with `IndexError` first. The length of the game's vertex list is taken
to be the game's `vertexCount`. The selection history is a `seq`, a value, and
the operation has no `modifies` clause, so the history cannot be changed by a
call.

## Model

| member | source | states |
|---|---|---|
| `Builtins.LastEntry` | chaos/modifications.py:69 | `xs[-1]` is the final entry of a non-empty list; an empty list gives IndexError |
| `Builtins.RangeFacts` | chaos/modifications.py:71 | `list(range(n))` has length n, is strictly increasing and holds exactly the integers 0..n-1 |
| `Builtins.RemoveFirst` | chaos/modifications.py:72 | `remove` succeeds iff the value occurs; on success the list is one shorter and its multiset loses exactly one copy of the value; otherwise ValueError |
| `Builtins.RemoveFirstAt` | chaos/modifications.py:72 | `remove` deletes the first occurrence: with the first occurrence at index i, the result is the list with slot i closed |
| `Builtins.ListRemove` | chaos/modifications.py:72 | the in-place scan-and-remove gives the same list or error as `RemoveFirst` |
| `Builtins.ChoiceOutcomesMembers` | chaos/modifications.py:74 | `random.choice` can return exactly the elements of the list, and fails exactly on an empty list, with IndexError |
| `Builtins.RandomChoice` | chaos/modifications.py:74 | the draw returns an element of the list, or IndexError exactly when the list is empty |
| `ChaosGame.Game.constructor` | chaos/game.py:15-16 | a new game has three vertexes |
| `Modifications.Resolve` | chaos/modifications.py:12-57 | method lookup ends at the NEAREST class that defines the operation: the class itself or one of its bases, and a subclass of every base of the class that also defines it |
| `Modifications.InstantiableClasses` | chaos/modifications.py:37-57 | exactly the base modification and IgnoreTheCurrentVertexModification can be instantiated; the two capability classes are abstract |
| `Modifications.CapabilitySplit` | chaos/modifications.py:30-57 | an instantiable class supplies an operation of its own iff it descends from the capability class committed to that operation; otherwise the call reaches the failing base stub |
| `Modifications.EligibleIndexes` | chaos/modifications.py:71-72 | for 0 <= current < n, removing current from `[0..n)` succeeds and leaves a strictly increasing list of length n-1 holding exactly `{0..n-1} \ {current}` |
| `Modifications.CurrentOutOfRange` | chaos/modifications.py:69-72 | a current index outside `[0, n)`, a negative seed included, makes the removal fail with ValueError |
| `Modifications.NextVertexResults` | chaos/modifications.py:69-74 | v is a possible result iff the history is non-empty, its last entry c is in `[0, n)`, `0 <= v < n` and `v != c`: every such index is possible and nothing else is |
| `Modifications.NextVertexFailures` | chaos/modifications.py:69-74 | an empty history gives only IndexError; an out-of-range current index gives only ValueError; n = 1 with current 0 gives only IndexError; with the current index in range and n >= 2 no error is possible |
| `Modifications.TwoVertexes` | chaos/modifications.py:71-74 | with two vertexes the only possible result is `1 - current` |
| `Modifications.OnlyCurrentMatters` | chaos/modifications.py:69 | two histories with the same last entry allow exactly the same results |
| `Modifications.ConsecutiveSelectionsDiffer` | chaos/modifications.py:63-74 | in a history where each entry is a possible result of the rule for the entries before it, every later entry is in range and differs from its predecessor; with two vertexes the entries alternate |
| `Modifications.Modification.constructor` | chaos/modifications.py:12-28 | only an instantiable class (the subset type `InstantiableClass`) can be created; a new modification has no game yet |
| `Modifications.Modification.SetGame` | chaos/modifications.py:17-20 | the game sets the modification's `game` attribute |
| `Modifications.Modification.GetVertexes` | chaos/modifications.py:30-31 | the call dispatches through method lookup; every instantiable class resolves `get_vertexes` to the base stub, so the call fails with NotImplementedError |
| `Modifications.Modification.GetNextVertexIndex` | chaos/modifications.py:33-74 | the base modification fails with NotImplementedError; the ignore-the-current-vertex strategy fails with IndexError on an empty history or AttributeError before its game is set, and otherwise returns one of `NextVertexOutcomes` for the game's vertex count; a successful result is in `[0, vertexCount)` and differs from the last history entry |

## Left out

- Probabilities: `random.choice` is uniform, but the model only gives the set of results it can return.
- Vertex coordinates and polygon geometry: they come from a geometry module that is not part of this model, and they involve floating point. The game's `get_vertexes` is not part of this model either. Only the length of its result is used, and that length is taken to be `vertexCount`.
- The game's `point_count` and `factor` defaults (chaos/game.py:18-22): no code shown here reads them.
- The point-generation loop and the interpolation toward the chosen vertex: they are not in the modelled source.
- The planned IgnoreSpecificVertexes, IgnoreShiftedVertexes and IgnorePreviousVertexes strategies: they exist only as comments (chaos/modifications.py:77-80).
- `abc` machinery at run time (the `TypeError` raised when instantiating an abstract class): modelled structurally by the subset type `InstantiableClass` instead.
- Python's unbounded `int` needs no width modelling.

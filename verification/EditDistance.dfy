/**
 The character-error-rate measurement of the OCR benchmark.

 `Measure` is the two-row dynamic program. Its meaning is given by edit
 scripts: it returns the least cost of any script that turns one sequence into
 the other, and from that the metric laws follow.
 */
module EditDistance {
  import opened Common

  datatype Edit<+T> = Keep | Substitute(to: T) | Insert(item: T) | Delete

  function Init<T>(s: seq<T>): seq<T>
    requires s != []
  {
    s[..|s| - 1]
  }

  function Last<T>(s: seq<T>): T
    requires s != []
  {
    s[|s| - 1]
  }

  /** The script, read up to its last edit, turns source into target. */
  ghost predicate Transforms<T>(script: seq<Edit<T>>, source: seq<T>, target: seq<T>)
    decreases |script|
  {
    if script == [] then source == [] && target == []
    else match Last(script)
      case Keep =>
        source != [] && target != [] && Last(source) == Last(target) && Transforms(Init(script), Init(source), Init(target))
      case Substitute(to) =>
        source != [] && target != [] && to == Last(target) && Transforms(Init(script), Init(source), Init(target))
      case Insert(item) =>
        target != [] && item == Last(target) && Transforms(Init(script), source, Init(target))
      case Delete =>
        source != [] && Transforms(Init(script), Init(source), target)
  }

  function Cost<T>(script: seq<Edit<T>>): nat {
    if script == [] then 0
    else Cost(Init(script)) + (if Last(script).Keep? then 0 else 1)
  }

  /** The recurrence that the rows tabulate. */
  function Distance<T(==)>(a: seq<T>, b: seq<T>): nat
    decreases |a| + |b|
  {
    if a == [] then |b|
    else if b == [] then |a|
    else Min(Min(Distance(Init(a), b) + 1, Distance(a, Init(b)) + 1),
             Distance(Init(a), Init(b)) + (if Last(a) == Last(b) then 0 else 1))
  }

  /** One cell of the table: the distance between two prefixes. */
  ghost function Cell<T>(a: seq<T>, b: seq<T>, i: nat, j: nat): nat
    requires i <= |a| && j <= |b|
  {
    Distance(a[..i], b[..j])
  }

  lemma CellFromNeighbours<T>(a: seq<T>, b: seq<T>, i: nat, j: nat)
    requires 0 < i <= |a| && 0 < j <= |b|
    ensures Cell(a, b, i, j) == Min(Min(Cell(a, b, i - 1, j) + 1, Cell(a, b, i, j - 1) + 1),
                                    Cell(a, b, i - 1, j - 1) + (if a[i - 1] == b[j - 1] then 0 else 1))
  {
    assert Init(a[..i]) == a[..i - 1] && Init(b[..j]) == b[..j - 1];
  }

  lemma EveryScriptCosts<T>(a: seq<T>, b: seq<T>)
    ensures exists script :: Transforms(script, a, b) && Cost(script) == Distance(a, b)
    ensures forall script :: Transforms(script, a, b) ==> Distance(a, b) <= Cost(script)
  {
    var best := BestScript(a, b);
    assert Transforms(best, a, b);
    forall script | Transforms(script, a, b)
      ensures Distance(a, b) <= Cost(script)
    {
      NoCheaperScript(script, a, b);
    }
  }

  /** The two-row loop: rows are rebuilt, only the previous one is kept. */
  method Measure<T(==)>(reference: seq<T>, actual: seq<T>) returns (distance: nat)
    ensures exists script :: Transforms(script, reference, actual) && Cost(script) == distance
    ensures forall script :: Transforms(script, reference, actual) ==> distance <= Cost(script)
    ensures distance == Distance(reference, actual)
  {
    var previous: seq<nat> := seq(|actual| + 1, j => j);
    assert forall j :: 0 <= j <= |actual| ==> previous[j] == Cell(reference, actual, 0, j);
    for i := 1 to |reference| + 1
      invariant |previous| == |actual| + 1
      invariant forall j :: 0 <= j <= |actual| ==> previous[j] == Cell(reference, actual, i - 1, j)
    {
      var current := [i];
      for j := 1 to |actual| + 1
        invariant |current| == j
        invariant forall k :: 0 <= k < j ==> current[k] == Cell(reference, actual, i, k)
      {
        CellFromNeighbours(reference, actual, i, j);
        var change := if reference[i - 1] != actual[j - 1] then 1 else 0;
        current := current + [Min(Min(previous[j] + 1, Last(current) + 1), previous[j - 1] + change)];
      }
      previous := current;
    }
    distance := Last(previous);
    assert reference[..|reference|] == reference && actual[..|actual|] == actual;
    EveryScriptCosts(reference, actual);
  }

  /** Some script has exactly the recurrence's cost. */
  function BestScript<T(==)>(a: seq<T>, b: seq<T>): (script: seq<Edit<T>>)
    ensures Transforms(script, a, b) && Cost(script) == Distance(a, b)
    decreases |a| + |b|
  {
    if a == [] then
      if b == [] then [] else BestScript(a, Init(b)) + [Insert(Last(b))]
    else if b == [] then BestScript(Init(a), b) + [Delete]
    else
      var distance := Distance(a, b);
      if distance == Distance(Init(a), b) + 1 then BestScript(Init(a), b) + [Delete]
      else if distance == Distance(a, Init(b)) + 1 then BestScript(a, Init(b)) + [Insert(Last(b))]
      else BestScript(Init(a), Init(b)) + [if Last(a) == Last(b) then Keep else Substitute(Last(b))]
  }

  /** No script is cheaper than the recurrence. */
  lemma {:induction false} NoCheaperScript<T>(script: seq<Edit<T>>, a: seq<T>, b: seq<T>)
    requires Transforms(script, a, b)
    ensures Distance(a, b) <= Cost(script)
    decreases |script|
  {
    if script != [] {
      match Last(script)
      case Keep => NoCheaperScript(Init(script), Init(a), Init(b));
      case Substitute(_) => NoCheaperScript(Init(script), Init(a), Init(b));
      case Insert(_) => NoCheaperScript(Init(script), a, Init(b));
      case Delete => NoCheaperScript(Init(script), Init(a), b);
    }
  }

  lemma {:induction false} Symmetric<T>(a: seq<T>, b: seq<T>)
    ensures Distance(a, b) == Distance(b, a)
    decreases |a| + |b|
  {
    if a != [] && b != [] {
      Symmetric(Init(a), b);
      Symmetric(a, Init(b));
      Symmetric(Init(a), Init(b));
    }
  }

  lemma {:induction false} ZeroOnlyWhenEqual<T>(a: seq<T>, b: seq<T>)
    ensures Distance(a, b) == 0 <==> a == b
    decreases |a| + |b|
  {
    if a != [] && b != [] {
      ZeroOnlyWhenEqual(Init(a), Init(b));
      assert a == Init(a) + [Last(a)] && b == Init(b) + [Last(b)];
    }
  }

  /** Two scripts run one after the other become one script of no greater cost. */
  lemma {:induction false} Compose<T>(first: seq<Edit<T>>, second: seq<Edit<T>>, a: seq<T>, b: seq<T>, c: seq<T>)
    returns (both: seq<Edit<T>>)
    requires Transforms(first, a, b) && Transforms(second, b, c)
    ensures Transforms(both, a, c) && Cost(both) <= Cost(first) + Cost(second)
    decreases |first| + |second|
  {
    if first != [] && Last(first).Delete? {
      both := Compose(Init(first), second, Init(a), b, c);
      both := both + [Delete];
    } else if second != [] && Last(second).Insert? {
      both := Compose(first, Init(second), a, b, Init(c));
      both := both + [Insert(Last(c))];
    } else if first == [] || second == [] {
      both := [];
    } else {
      var source := if Last(first).Insert? then a else Init(a);
      var target := if Last(second).Delete? then c else Init(c);
      both := Compose(Init(first), Init(second), source, Init(b), target);
      if !Last(first).Insert? {
        both := both + [if Last(second).Delete? then Delete
                        else if Last(a) == Last(c) then Keep else Substitute(Last(c))];
      } else if !Last(second).Delete? {
        both := both + [Insert(Last(c))];
      }
    }
  }

  lemma TriangleInequality<T>(a: seq<T>, b: seq<T>, c: seq<T>)
    ensures Distance(a, c) <= Distance(a, b) + Distance(b, c)
  {
    var both := Compose(BestScript(a, b), BestScript(b, c), a, b, c);
    NoCheaperScript(both, a, c);
  }
}

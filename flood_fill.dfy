/**
 * Span flood fill over a 2-D array.  Starting at a seed cell, the fill
 * replaces by `value` every cell it reaches for which `pred(cell, target)`
 * holds, `target` being the seed cell's value before the fill.  Work is kept
 * on a stack of spans: a run x1..x2 of row y, and the direction dy in which
 * the scan that produced it was heading.
 */
module CoreAlgorithms {
  import opened Prelude

  datatype FFError = InvalidSeed

  datatype Span = Span(x1: int, x2: int, y: int, dy: int)

  predicate InBounds<T>(arr: array2<T>, x: int, y: int)
  {
    0 <= x < arr.Length0 && 0 <= y < arr.Length1
  }

  /** The bounds check and predicate the fill consults before writing a cell. */
  predicate Inside<T>(arr: array2<T>, x: int, y: int, target: T, pred: (T, T) -> bool)
    reads arr
  {
    InBounds(arr, x, y) && pred(arr[x, y], target)
  }

  /** The cells the fill may still write; each write removes one, which bounds the work. */
  ghost function InsideCells<T>(arr: array2<T>, target: T, pred: (T, T) -> bool): set<(int, int)>
    reads arr
  {
    set x, y | 0 <= x < arr.Length0 && 0 <= y < arr.Length1 && pred(arr[x, y], target) :: (x, y)
  }

  /**
   * Fills leftwards from x (exclusive) while the cell to the left is inside;
   * returns the leftmost filled column, or x when nothing was filled.
   */
  method FillLeft<T>(arr: array2<T>, x: int, y: int, value: T, target: T, pred: (T, T) -> bool) returns (newX: int)
    requires InBounds(arr, x, y)
    modifies arr
    ensures 0 <= newX <= x
    ensures forall i, j :: InBounds(arr, i, j) ==>
      arr[i, j] == old(arr[i, j]) || (arr[i, j] == value && pred(old(arr[i, j]), target))
    ensures forall i, j :: InBounds(arr, i, j) && !(j == y && newX <= i < x) ==> arr[i, j] == old(arr[i, j])
    ensures forall i :: newX <= i < x ==> arr[i, y] == value
    ensures !pred(value, target) ==> InsideCells(arr, target, pred) <= old(InsideCells(arr, target, pred))
    ensures !pred(value, target) && newX < x ==> InsideCells(arr, target, pred) < old(InsideCells(arr, target, pred))
  {
    newX := x;
    while Inside(arr, newX - 1, y, target, pred)
      invariant 0 <= newX <= x
      invariant forall i, j :: InBounds(arr, i, j) ==>
        arr[i, j] == old(arr[i, j]) || (arr[i, j] == value && pred(old(arr[i, j]), target))
      invariant forall i, j :: InBounds(arr, i, j) && !(j == y && newX <= i < x) ==> arr[i, j] == old(arr[i, j])
      invariant forall i :: newX <= i < x ==> arr[i, y] == value
      invariant !pred(value, target) ==> InsideCells(arr, target, pred) <= old(InsideCells(arr, target, pred))
      invariant !pred(value, target) && newX < x ==> InsideCells(arr, target, pred) < old(InsideCells(arr, target, pred))
      decreases newX
    {
      ghost var before := InsideCells(arr, target, pred);
      arr[newX - 1, y] := value;
      if !pred(value, target) {
        assert InsideCells(arr, target, pred) == before - {(newX - 1, y)};
      }
      newX := newX - 1;
    }
  }

  /**
   * Fills rightwards from x1 (inclusive) while the cell is inside; returns the
   * first column that was not filled.
   */
  method FillRight<T>(arr: array2<T>, x1: int, y: int, value: T, target: T, pred: (T, T) -> bool) returns (newX1: int)
    modifies arr
    ensures x1 <= newX1
    ensures forall i, j :: InBounds(arr, i, j) ==>
      arr[i, j] == old(arr[i, j]) || (arr[i, j] == value && pred(old(arr[i, j]), target))
    ensures old(Inside(arr, x1, y, target, pred)) ==> x1 < newX1 && arr[x1, y] == value
    ensures !Inside(arr, newX1, y, target, pred)
    ensures !pred(value, target) ==> InsideCells(arr, target, pred) <= old(InsideCells(arr, target, pred))
    ensures !pred(value, target) && x1 < newX1 ==> InsideCells(arr, target, pred) < old(InsideCells(arr, target, pred))
  {
    newX1 := x1;
    while Inside(arr, newX1, y, target, pred)
      invariant x1 <= newX1
      invariant forall i, j :: InBounds(arr, i, j) ==>
        arr[i, j] == old(arr[i, j]) || (arr[i, j] == value && pred(old(arr[i, j]), target))
      invariant x1 < newX1 ==> InBounds(arr, x1, y) && arr[x1, y] == value
      invariant x1 == newX1 ==> forall i, j :: InBounds(arr, i, j) ==> arr[i, j] == old(arr[i, j])
      invariant !pred(value, target) ==> InsideCells(arr, target, pred) <= old(InsideCells(arr, target, pred))
      invariant !pred(value, target) && x1 < newX1 ==> InsideCells(arr, target, pred) < old(InsideCells(arr, target, pred))
      decreases arr.Length0 - newX1
    {
      ghost var before := InsideCells(arr, target, pred);
      arr[newX1, y] := value;
      if !pred(value, target) {
        assert InsideCells(arr, target, pred) == before - {(newX1, y)};
      }
      newX1 := newX1 + 1;
    }
  }

  /**
   * The right-hand scan of one popped span: fill runs starting inside x1..x2,
   * and collect, in push order, the spans of the rows above and below that
   * the filled runs expose.  `x` is where the left expansion stopped.
   */
  method ScanRow<T>(arr: array2<T>, x: int, x1: int, x2: int, y: int, dy: int, value: T, target: T, pred: (T, T) -> bool)
    returns (pushed: seq<Span>)
    requires x <= x1
    modifies arr
    ensures forall i, j :: InBounds(arr, i, j) ==>
      arr[i, j] == old(arr[i, j]) || (arr[i, j] == value && pred(old(arr[i, j]), target))
    ensures old(Inside(arr, x1, y, target, pred)) && x1 <= x2 ==> arr[x1, y] == value
    ensures !pred(value, target) ==> InsideCells(arr, target, pred) <= old(InsideCells(arr, target, pred))
    ensures !pred(value, target) && |pushed| > 0 ==>
      x < x1 || InsideCells(arr, target, pred) < old(InsideCells(arr, target, pred))
  {
    pushed := [];
    var cx, cx1 := x, x1;
    while cx1 <= x2
      invariant cx == cx1 || (cx == x && cx1 == x1)
      invariant forall i, j :: InBounds(arr, i, j) ==>
        arr[i, j] == old(arr[i, j]) || (arr[i, j] == value && pred(old(arr[i, j]), target))
      invariant old(Inside(arr, x1, y, target, pred)) && x1 <= x2 ==>
        (cx1 == x1 && arr[x1, y] == old(arr[x1, y])) || arr[x1, y] == value
      invariant !pred(value, target) ==> InsideCells(arr, target, pred) <= old(InsideCells(arr, target, pred))
      invariant !pred(value, target) && |pushed| > 0 ==>
        x < x1 || InsideCells(arr, target, pred) < old(InsideCells(arr, target, pred))
      decreases x2 - cx1
    {
      var nx1 := FillRight(arr, cx1, y, value, target, pred);
      if nx1 > cx {
        pushed := pushed + [Span(cx, nx1 - 1, y + dy, dy)];
      }
      if nx1 - 1 > x2 {
        pushed := pushed + [Span(x2 + 1, nx1 - 1, y - dy, -dy)];
      }
      cx1 := nx1 + 1;
      while cx1 < x2 && !Inside(arr, cx1, y, target, pred)
        decreases x2 - cx1
      {
        cx1 := cx1 + 1;
      }
      cx := cx1;
    }
  }

  /**
   * Flood fill from `seed`.  An out-of-bounds seed (a negative component
   * included) is `InvalidSeed` and leaves the array alone.  Otherwise every
   * cell either keeps its value or was inside, that is satisfied
   * `pred(cell, target)`, and now holds `value`; once the span stack is
   * empty, the seed cell itself is filled whenever `pred(target, target)`
   * holds.  When `value` fails the predicate, every write shrinks the set of
   * inside cells, so the loop ends on its own.  When `value` is itself inside,
   * cells are filled again and nothing bounds the loop: the model then pops at
   * most `fuel` spans and reports `stopped` if spans were left.
   */
  method FloodFill<T>(arr: array2<T>, seed: (int, int), value: T, pred: (T, T) -> bool, fuel: nat)
    returns (r: Result<(), FFError>, stopped: bool)
    modifies arr
    ensures r.Err? <==> !InBounds(arr, seed.0, seed.1)
    ensures r.Err? ==> r.error == InvalidSeed && unchanged(arr) && !stopped
    ensures r.Ok? ==> forall i, j :: InBounds(arr, i, j) ==>
      arr[i, j] == old(arr[i, j]) || (arr[i, j] == value && pred(old(arr[i, j]), old(arr[seed.0, seed.1])))
    ensures r.Ok? && !pred(value, old(arr[seed.0, seed.1])) ==> !stopped
    ensures r.Ok? && !stopped && pred(old(arr[seed.0, seed.1]), old(arr[seed.0, seed.1])) ==>
      arr[seed.0, seed.1] == value
  {
    var (seedX, seedY) := seed;
    stopped := false;
    if !InBounds(arr, seedX, seedY) {
      return Err(InvalidSeed), false;
    }
    var target := arr[seedX, seedY];
    var stack := [Span(seedX, seedX, seedY, 1), Span(seedX, seedX, seedY - 1, -1)];
    var steps := fuel;
    while |stack| > 0
      invariant target == old(arr[seedX, seedY])
      invariant forall i, j :: InBounds(arr, i, j) ==>
        arr[i, j] == old(arr[i, j]) || (arr[i, j] == value && pred(old(arr[i, j]), target))
      invariant pred(target, target) ==>
        arr[seedX, seedY] == value || (|stack| > 0 && stack[0] == Span(seedX, seedX, seedY, 1))
      invariant !stopped
      decreases steps, (if pred(value, target) then {} else InsideCells(arr, target, pred)), |stack|
    {
      if pred(value, target) {
        if steps == 0 {
          stopped := true;
          break;
        }
        steps := steps - 1;
      }
      var span := stack[|stack| - 1];
      stack := stack[..|stack| - 1];
      ghost var isSeedSpan := span == Span(seedX, seedX, seedY, 1);
      var x1, x2, y, dy := span.x1, span.x2, span.y, span.dy;
      var x := x1;
      if Inside(arr, x, y, target, pred) {
        x := FillLeft(arr, x, y, value, target, pred);
        if x < x1 {
          stack := stack + [Span(x, x1 - 1, y - dy, -dy)];
        }
      }
      assert isSeedSpan && pred(target, target) ==>
        arr[seedX, seedY] == value || Inside(arr, x1, y, target, pred);
      var pushed := ScanRow(arr, x, x1, x2, y, dy, value, target, pred);
      stack := stack + pushed;
    }
    return Ok(()), stopped;
  }
}

/**
  `array_chunk($xs, $n)`: cut a list into consecutive rows of `n`.
  The keyboard builders lay out their buttons with it, and `mb_str_split`
  cuts a string the same way, so both use `Chunk` below.
 */
module ArrayChunk {

  /** The rows, read left to right and top to bottom. */
  function Flatten<T>(rows: seq<seq<T>>): seq<T> {
    if rows == [] then [] else rows[0] + Flatten(rows[1..])
  }

  /**
    Every row holds between one and `n` items, and all rows but the last hold
    exactly `n`.
   */
  ghost predicate FullRows<T>(rows: seq<seq<T>>, n: nat) {
    && (forall i :: 0 <= i < |rows| ==> 1 <= |rows[i]| <= n)
    && (forall i :: 0 <= i < |rows| - 1 ==> |rows[i]| == n)
  }

  /** A layout of `xs` in rows of `n`: the rows flatten back to `xs` and are full. */
  ghost predicate IsLayout<T>(rows: seq<seq<T>>, xs: seq<T>, n: nat) {
    Flatten(rows) == xs && FullRows(rows, n)
  }

  /** PHP 8 throws a ValueError for a size below 1, so callers check `n >= 1` first. */
  function Chunk<T>(xs: seq<T>, n: nat): (rows: seq<seq<T>>)
    requires n >= 1
    ensures IsLayout(rows, xs, n)
    decreases |xs|
  {
    if xs == [] then []
    else if |xs| <= n then
      assert [xs][1..] == [];
      [xs]
    else
      var rest := Chunk(xs[n..], n);
      var rows := [xs[..n]] + rest;
      assert rows[1..] == rest;
      assert xs[..n] + xs[n..] == xs;
      FullRowsCons(xs[..n], rest, n);
      rows
  }

  /** A non-empty list gives at least one row, and more than `n` items at least two. */
  lemma ChunkRowCount<T>(xs: seq<T>, n: nat)
    requires n >= 1
    ensures xs != [] ==> |Chunk(xs, n)| >= 1
    ensures |xs| > n ==> |Chunk(xs, n)| >= 2
  {
    if |xs| > n {
      assert Chunk(xs, n) == [xs[..n]] + Chunk(xs[n..], n);
      assert Chunk(xs[n..], n) != [];
    }
  }

  lemma FullRowsCons<T>(row: seq<T>, rest: seq<seq<T>>, n: nat)
    requires |row| == n >= 1 && FullRows(rest, n)
    ensures FullRows([row] + rest, n)
  {
    var rows := [row] + rest;
    forall i | 0 <= i < |rows| ensures 1 <= |rows[i]| <= n {
      if i > 0 { assert rows[i] == rest[i - 1]; }
    }
    forall i | 0 <= i < |rows| - 1 ensures |rows[i]| == n {
      if i > 0 { assert rows[i] == rest[i - 1]; }
    }
  }

  /** `Chunk` is the only layout: any full rows that flatten to `xs` are `Chunk(xs, n)`. */
  lemma {:induction false} LayoutIsUnique<T>(rows: seq<seq<T>>, xs: seq<T>, n: nat)
    requires n >= 1
    requires IsLayout(rows, xs, n)
    ensures rows == Chunk(xs, n)
    decreases |rows|
  {
    if rows == [] {
      assert xs == [];
    } else {
      var tail := rows[1..];
      assert Flatten(rows) == rows[0] + Flatten(tail);
      assert FullRows(tail, n) by {
        forall i | 0 <= i < |tail| ensures 1 <= |tail[i]| <= n { assert tail[i] == rows[i + 1]; }
        forall i | 0 <= i < |tail| - 1 ensures |tail[i]| == n { assert tail[i] == rows[i + 1]; }
      }
      if |rows| == 1 {
        assert Flatten(tail) == [];
        assert xs == rows[0];
        assert rows == [xs];
      } else {
        assert |rows[0]| == n;
        assert |Flatten(tail)| >= |tail[0]| >= 1;
        assert xs[..n] == rows[0];
        assert xs[n..] == Flatten(tail);
        LayoutIsUnique(tail, xs[n..], n);
      }
    }
  }


  /** Appending one item opens a new row when the last row is full, and otherwise extends it. */
  lemma {:induction false} ChunkAppend<T>(xs: seq<T>, x: T, n: nat)
    requires n >= 1
    ensures var rows := Chunk(xs, n);
            Chunk(xs + [x], n) ==
              if rows == [] || |rows[|rows| - 1]| == n then rows + [[x]]
              else rows[..|rows| - 1] + [rows[|rows| - 1] + [x]]
    decreases |xs|
  {
    var ys := xs + [x];
    if xs == [] {
      assert ys == [x];
    } else if |xs| < n {
      assert Chunk(xs, n) == [xs];
    } else if |xs| == n {
      assert ys[..n] == xs && ys[n..] == [x];
      assert Chunk(xs, n) == [xs];
      assert Chunk([x], n) == [[x]];
    } else {
      assert ys[..n] == xs[..n];
      assert ys[n..] == xs[n..] + [x];
      ChunkAppend(xs[n..], x, n);
      var rest := Chunk(xs[n..], n);
      assert rest != [];
      assert Chunk(xs, n) == [xs[..n]] + rest;
    }
  }
}

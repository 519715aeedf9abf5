/**
 * A single tetromino (src/com/tetris/model/Piece.java): its variant, the
 * offsets of its four blocks relative to a pivot, kept in a 4x2 array as in
 * the source, and the pivot's position (x, y) on the board.
 *
 * Rotations are about the pivot: left maps (x, y) to (-y, x), right maps it
 * to (y, -x). They allocate a new piece and never change the receiver.
 */
module Pieces {
  import opened Shape

  /** A Java `int`: the value `Random.nextInt()` draws. */
  newtype int32 = v: int | -0x8000_0000 <= v < 0x8000_0000

  const MinInt32: int32 := -0x8000_0000

  /** `Math.abs` on an `int`: the absolute value, except that it overflows back to itself on `Integer.MIN_VALUE`. */
  function JavaAbs(v: int32): (r: int32)
    ensures v != MinInt32 ==> r >= 0 && (r == v || r == -v)
    ensures v == MinInt32 ==> r == MinInt32
  {
    if v == MinInt32 then v else if v < 0 then -v else v
  }

  /** A nonzero multiple of a positive divisor is at least the divisor in size. */
  lemma MultipleBound(d: int, b: int)
    requires b > 0
    ensures d >= 1 ==> d * b >= b
    ensures d <= -1 ==> d * b <= -b
  {
    if d >= 1 {
      assert d * b == (d - 1) * b + b;
    } else if d <= -1 {
      assert d * b == (d + 1) * b - b;
    }
  }

  /** The remainder is the only value in [0, b) that differs from x by a multiple of b. */
  lemma ModUnique(x: int, q: int, m: int, b: int)
    requires b > 0 && 0 <= m < b && x == q * b + m
    ensures x % b == m
  {
    var q', m' := x / b, x % b;
    assert (q - q') * b == m' - m;
    MultipleBound(q - q', b);
  }

  /** Java's `%` on `int`: the remainder takes the sign of the dividend and differs from it by a multiple of the divisor. */
  function JavaRem(a: int, b: int): (r: int)
    requires b > 0
    ensures a >= 0 ==> 0 <= r < b
    ensures a < 0 ==> -b < r <= 0
    ensures (a - r) % b == 0
  {
    if a >= 0 then
      ModUnique(a - a % b, a / b, 0, b);
      a % b
    else
      ModUnique(a + (-a) % b, -((-a) / b), 0, b);
      -((-a) % b)
  }

  /** The index `setRandomShape` computes from the drawn number: `Math.abs(r) % 7 + 1`. */
  function RandomIndex(r: int32): (idx: int)
    ensures r != MinInt32 ==> 1 <= idx <= 7 && (JavaAbs(r) as int - (idx - 1)) % 7 == 0
    ensures r == MinInt32 ==> idx == -1
  {
    JavaRem(JavaAbs(r) as int, 7) + 1
  }

  /** Every index `setRandomShape` reaches names a playable variant. */
  lemma RandomIndexPlayable(r: int32)
    requires r != MinInt32
    ensures 0 <= RandomIndex(r) < VariantCount && Playable(FromOrdinal(RandomIndex(r)))
  {
  }

  /** Rotation of one offset a quarter turn anticlockwise: (x, y) to (-y, x). */
  function TurnLeft(c: Offset): Offset {
    (-c.1, c.0)
  }

  /** Rotation of one offset a quarter turn clockwise: (x, y) to (y, -x). */
  function TurnRight(c: Offset): Offset {
    (c.1, -c.0)
  }

  /** The offsets of a piece after `rotateLeft`. */
  function RotatedLeft(o: seq<Offset>): (r: seq<Offset>)
    ensures |r| == |o|
  {
    seq(|o|, i requires 0 <= i < |o| => TurnLeft(o[i]))
  }

  /** The offsets of a piece after `rotateRight`. */
  function RotatedRight(o: seq<Offset>): (r: seq<Offset>)
    ensures |r| == |o|
  {
    seq(|o|, i requires 0 <= i < |o| => TurnRight(o[i]))
  }

  /** A right turn undoes a left turn and vice versa. */
  lemma RotationsAreInverse(o: seq<Offset>)
    ensures RotatedRight(RotatedLeft(o)) == o
    ensures RotatedLeft(RotatedRight(o)) == o
  {
  }

  /** Four quarter turns in the same direction give back the original offsets. */
  lemma FourTurnsIdentity(o: seq<Offset>)
    ensures RotatedLeft(RotatedLeft(RotatedLeft(RotatedLeft(o)))) == o
    ensures RotatedRight(RotatedRight(RotatedRight(RotatedRight(o)))) == o
  {
    var l4 := RotatedLeft(RotatedLeft(RotatedLeft(RotatedLeft(o))));
    var r4 := RotatedRight(RotatedRight(RotatedRight(RotatedRight(o))));
    assert forall i :: 0 <= i < |o| ==> l4[i] == o[i];
    assert forall i :: 0 <= i < |o| ==> r4[i] == o[i];
  }

  /** A rotation keeps a well-formed tetromino's cells distinct and its pivot in place. */
  lemma RotationKeepsCellsAndPivot(o: seq<Offset>)
    requires |o| == 4 && (forall i, j :: 0 <= i < j < 4 ==> o[i] != o[j]) && (0, 0) in o
    ensures forall i, j :: 0 <= i < j < 4 ==> RotatedLeft(o)[i] != RotatedLeft(o)[j] && RotatedRight(o)[i] != RotatedRight(o)[j]
    ensures (0, 0) in RotatedLeft(o) && (0, 0) in RotatedRight(o)
  {
    var k :| 0 <= k < 4 && o[k] == (0, 0);
    assert RotatedLeft(o)[k] == (0, 0) && RotatedRight(o)[k] == (0, 0);
  }

  /** Turning the square would move its cells: {(0,0),(1,0),(0,1),(1,1)} is not closed under a quarter turn, so it is exempt. */
  lemma SquareWouldMoveIfTurned()
    ensures (-1, 0) in RotatedLeft(Blocks(SquareShape)) && (-1, 0) !in Blocks(SquareShape)
    ensures (0, -1) in RotatedRight(Blocks(SquareShape)) && (0, -1) !in Blocks(SquareShape)
  {
    assert RotatedLeft(Blocks(SquareShape))[1] == (0, 1);
    assert RotatedLeft(Blocks(SquareShape))[2] == (-1, 0);
    assert RotatedRight(Blocks(SquareShape))[1] == (0, -1);
  }

  class Piece {
    var pieceShape: Tetrominoe
    const coords: array2<int>
    var x: int
    var y: int

    /** The block array is 4 blocks by 2 axes. */
    ghost predicate Valid()
      reads this
    {
      coords.Length0 == 4 && coords.Length1 == 2
    }

    /** The four block offsets, as (x, y) pairs. */
    ghost function Offsets(): (o: seq<Offset>)
      reads this, coords
      requires Valid()
      ensures |o| == 4
    {
      [(coords[0, 0], coords[0, 1]), (coords[1, 0], coords[1, 1]),
       (coords[2, 0], coords[2, 1]), (coords[3, 0], coords[3, 1])]
    }

    /** `new Piece()`: shape `NoShape`, offsets from the all-zero row, pivot at (0, 0). */
    constructor ()
      ensures Valid() && fresh(coords)
      ensures pieceShape == NoShape && Offsets() == Blocks(NoShape)
      ensures x == 0 && y == 0
    {
      x, y := 0, 0;
      pieceShape := NoShape;
      coords := new int[4, 2];
      new;
      SetShape(NoShape);
    }

    /** `setShape`: copies row `Ordinal(shape)` of the table into the block array. */
    method SetShape(shape: Tetrominoe)
      requires Valid()
      modifies this, coords
      ensures Valid()
      ensures pieceShape == shape && Offsets() == Blocks(shape)
      ensures x == old(x) && y == old(y)
    {
      TableWellShaped();
      var table := CoordsTable;
      var k := Ordinal(shape);
      for i := 0 to 4
        invariant x == old(x) && y == old(y)
        invariant forall i', j' :: 0 <= i' < i && 0 <= j' < 2 ==> coords[i', j'] == table[k][i'][j']
      {
        for j := 0 to 2
          invariant x == old(x) && y == old(y)
          invariant forall i', j' :: 0 <= i' < i && 0 <= j' < 2 ==> coords[i', j'] == table[k][i'][j']
          invariant forall j' :: 0 <= j' < j ==> coords[i, j'] == table[k][i][j']
        {
          coords[i, j] := table[k][i][j];
        }
      }
      pieceShape := shape;
    }

    /** `setX`: moves the pivot horizontally. */
    method SetX(v: int)
      modifies this`x
      ensures x == v
    {
      x := v;
    }

    /** `setY`: moves the pivot vertically. */
    method SetY(v: int)
      modifies this`y
      ensures y == v
    {
      y := v;
    }

    /** `setCoordX`: overwrites the x offset of one block. */
    method SetCoordX(index: int, v: int)
      requires Valid() && 0 <= index < 4
      modifies coords
      ensures Offsets() == old(Offsets())[index := (v, old(Offsets())[index].1)]
    {
      coords[index, 0] := v;
    }

    /** `setCoordY`: overwrites the y offset of one block. */
    method SetCoordY(index: int, v: int)
      requires Valid() && 0 <= index < 4
      modifies coords
      ensures Offsets() == old(Offsets())[index := (old(Offsets())[index].0, v)]
    {
      coords[index, 1] := v;
    }

    /** `x(index)`: the x offset of block `index`. */
    function X(index: int): (v: int)
      reads this, coords
      requires Valid() && 0 <= index < 4
      ensures v == Offsets()[index].0
    {
      coords[index, 0]
    }

    /** `y(index)`: the y offset of block `index`. */
    function Y(index: int): (v: int)
      reads this, coords
      requires Valid() && 0 <= index < 4
      ensures v == Offsets()[index].1
    {
      coords[index, 1]
    }

    /**
     * `setRandomShape`, with the drawn number `r` as a parameter. The index
     * is `Math.abs(r) % 7 + 1`; for `Integer.MIN_VALUE` it is -1 and the
     * lookup in `values()` throws, reported here as `ok == false` with the
     * piece left as it was.
     */
    method SetRandomShape(r: int32) returns (ok: bool)
      requires Valid()
      modifies this, coords
      ensures Valid()
      ensures ok <==> r != MinInt32
      ensures ok ==> Playable(pieceShape) && Ordinal(pieceShape) == RandomIndex(r) && Offsets() == Blocks(pieceShape)
      ensures !ok ==> pieceShape == old(pieceShape) && Offsets() == old(Offsets())
      ensures x == old(x) && y == old(y)
    {
      var idx := RandomIndex(r);
      if 0 <= idx < VariantCount {
        SetShape(FromOrdinal(idx));
        ok := true;
      } else {
        ok := false;
      }
    }

    /** `minX`: the smallest x offset, which is the x offset of some block. */
    method MinX() returns (m: int)
      requires Valid()
      ensures exists i :: 0 <= i < 4 && m == Offsets()[i].0
      ensures forall i :: 0 <= i < 4 ==> m <= Offsets()[i].0
    {
      m := coords[0, 0];
      ghost var at := 0;
      for i := 1 to 4
        invariant 0 <= at < i && m == coords[at, 0]
        invariant forall k :: 0 <= k < i ==> m <= coords[k, 0]
      {
        if coords[i, 0] < m {
          m, at := coords[i, 0], i;
        }
      }
      assert m == Offsets()[at].0;
    }

    /** `minY`: the smallest y offset, which is the y offset of some block. */
    method MinY() returns (m: int)
      requires Valid()
      ensures exists i :: 0 <= i < 4 && m == Offsets()[i].1
      ensures forall i :: 0 <= i < 4 ==> m <= Offsets()[i].1
    {
      m := coords[0, 1];
      ghost var at := 0;
      for i := 1 to 4
        invariant 0 <= at < i && m == coords[at, 1]
        invariant forall k :: 0 <= k < i ==> m <= coords[k, 1]
      {
        if coords[i, 1] < m {
          m, at := coords[i, 1], i;
        }
      }
      assert m == Offsets()[at].1;
    }

    /**
     * `rotateLeft`: the square is returned as it is; any other piece yields a
     * fresh piece of the same variant with every offset turned left. The
     * fresh piece keeps the constructor's pivot (0, 0): the receiver's
     * position is not copied.
     */
    method RotateLeft() returns (result: Piece)
      requires Valid()
      ensures result.Valid()
      ensures pieceShape == SquareShape ==> result == this
      ensures pieceShape != SquareShape ==>
        && fresh(result) && fresh(result.coords)
        && result.pieceShape == pieceShape
        && result.Offsets() == RotatedLeft(Offsets())
        && result.x == 0 && result.y == 0
    {
      if pieceShape == SquareShape {
        return this;
      }
      result := new Piece();
      result.pieceShape := pieceShape;
      for i := 0 to 4
        invariant result.Valid() && fresh(result) && fresh(result.coords)
        invariant result.pieceShape == pieceShape && result.x == 0 && result.y == 0
        invariant forall k :: 0 <= k < i ==> result.Offsets()[k] == TurnLeft(Offsets()[k])
      {
        result.SetCoordX(i, -Y(i));
        result.SetCoordY(i, X(i));
      }
    }

    /**
     * `rotateRight`: as `RotateLeft`, turning every offset right.
     */
    method RotateRight() returns (result: Piece)
      requires Valid()
      ensures result.Valid()
      ensures pieceShape == SquareShape ==> result == this
      ensures pieceShape != SquareShape ==>
        && fresh(result) && fresh(result.coords)
        && result.pieceShape == pieceShape
        && result.Offsets() == RotatedRight(Offsets())
        && result.x == 0 && result.y == 0
    {
      if pieceShape == SquareShape {
        return this;
      }
      result := new Piece();
      result.pieceShape := pieceShape;
      for i := 0 to 4
        invariant result.Valid() && fresh(result) && fresh(result.coords)
        invariant result.pieceShape == pieceShape && result.x == 0 && result.y == 0
        invariant forall k :: 0 <= k < i ==> result.Offsets()[k] == TurnRight(Offsets()[k])
      {
        result.SetCoordX(i, Y(i));
        result.SetCoordY(i, -X(i));
      }
    }
  }
}

/**
 * The closed set of tetromino variants and the constant table of their
 * block offsets (src/com/tetris/model/Shape.java).
 *
 * The table keeps the source's layout, `int[variant][block][axis]`, indexed
 * by the variant's ordinal; `Blocks` gives a row as four (x, y) pairs.
 */
module Shape {

  /** The enum in its declaration order; `Ordinal` gives each position. */
  datatype Tetrominoe =
    | NoShape
    | ZShape
    | SShape
    | LineShape
    | TShape
    | SquareShape
    | LShape
    | MirroredLShape
    | GarbageShape

  /** Number of variants, `Tetrominoe.values().length`. */
  const VariantCount: nat := 9

  /** A block offset relative to the piece's pivot. */
  type Offset = (int, int)

  /** Java's `ordinal()`: the position of `s` in the declaration above. */
  function Ordinal(s: Tetrominoe): (r: nat)
    ensures r < VariantCount
    ensures r == 0 <==> s == NoShape
    ensures r == VariantCount - 1 <==> s == GarbageShape
  {
    match s
    case NoShape => 0
    case ZShape => 1
    case SShape => 2
    case LineShape => 3
    case TShape => 4
    case SquareShape => 5
    case LShape => 6
    case MirroredLShape => 7
    case GarbageShape => 8
  }

  /** Java's `values()[i]`: the variant at position `i`. */
  function FromOrdinal(i: nat): (s: Tetrominoe)
    requires i < VariantCount
    ensures Ordinal(s) == i
  {
    [NoShape, ZShape, SShape, LineShape, TShape, SquareShape, LShape, MirroredLShape, GarbageShape][i]
  }

  /** `values()` lists every variant exactly once, in ordinal order. */
  lemma OrdinalRoundTrip(s: Tetrominoe)
    ensures FromOrdinal(Ordinal(s)) == s
  {
  }

  /** A variant that can be spawned as a controllable piece. */
  predicate Playable(s: Tetrominoe) {
    s != NoShape && s != GarbageShape
  }

  /** `coordsTable[shape][block][axis]`, one row per variant in ordinal order. */
  const CoordsTable: seq<seq<seq<int>>> := [
    [[0, 0], [0, 0], [0, 0], [0, 0]],      // NoShape
    [[0, -1], [0, 0], [-1, 0], [-1, 1]],   // ZShape
    [[0, -1], [0, 0], [1, 0], [1, 1]],     // SShape
    [[0, -1], [0, 0], [0, 1], [0, 2]],     // LineShape
    [[-1, 0], [0, 0], [1, 0], [0, 1]],     // TShape
    [[0, 0], [1, 0], [0, 1], [1, 1]],      // SquareShape
    [[-1, -1], [0, -1], [0, 0], [0, 1]],   // LShape
    [[1, -1], [0, -1], [0, 0], [0, 1]],    // MirroredLShape
    [[0, 0], [0, 0], [0, 0], [0, 0]]       // GarbageShape
  ]

  /** The table has one row per variant, each of 4 blocks of 2 coordinates. */
  predicate WellShapedTable(t: seq<seq<seq<int>>>) {
    && |t| == VariantCount
    && (forall k :: 0 <= k < |t| ==> |t[k]| == 4)
    && (forall k, i :: 0 <= k < |t| && 0 <= i < |t[k]| ==> |t[k][i]| == 2)
  }

  lemma TableWellShaped()
    ensures WellShapedTable(CoordsTable)
  {
    var t := CoordsTable;
    forall k | 0 <= k < |t| ensures |t[k]| == 4 && forall i :: 0 <= i < 4 ==> |t[k][i]| == 2 {
      assert k in {0, 1, 2, 3, 4, 5, 6, 7, 8};
    }
  }

  /** Row `Ordinal(s)` of the table, as the four (x, y) block offsets. */
  function Blocks(s: Tetrominoe): (b: seq<Offset>)
    ensures |b| == 4
    ensures forall i :: 0 <= i < 4 ==> b[i] == (CoordsTable[Ordinal(s)][i][0], CoordsTable[Ordinal(s)][i][1])
  {
    TableWellShaped();
    var row := CoordsTable[Ordinal(s)];
    [(row[0][0], row[0][1]), (row[1][0], row[1][1]), (row[2][0], row[2][1]), (row[3][0], row[3][1])]
  }

  /** Four pairwise-distinct cells, one of them the pivot (0, 0), all within [-1, 2] on both axes. */
  predicate WellFormedTetromino(b: seq<Offset>) {
    && |b| == 4
    && (forall i, j :: 0 <= i < j < 4 ==> b[i] != b[j])
    && (0, 0) in b
    && (forall i :: 0 <= i < 4 ==> -1 <= b[i].0 <= 2 && -1 <= b[i].1 <= 2)
  }

  /** Every one of the seven playable rows describes a real tetromino around its pivot. */
  lemma PlayableRowsWellFormed(s: Tetrominoe)
    requires Playable(s)
    ensures WellFormedTetromino(Blocks(s))
  {
  }

  /** The two rows that are never spawned are dummy rows of zeros. */
  lemma DummyRowsAreZero(s: Tetrominoe)
    requires !Playable(s)
    ensures Blocks(s) == [(0, 0), (0, 0), (0, 0), (0, 0)]
  {
  }

  /** The square row is the 2x2 block whose lower-left cell is the pivot. */
  lemma SquareIsTwoByTwo()
    ensures multiset(Blocks(SquareShape)) == multiset{(0, 0), (1, 0), (0, 1), (1, 1)}
  {
  }
}

/**
 * The chess board of study/chess.js: where the centre of each of the 8 x 8 cells
 * lies, the fixed opening layout of the 32 pieces, and the scene into which the
 * piece meshes are placed.
 */
module ChessBoard {
  import opened Wrappers
  import opened Geometry

  /** The height at which every piece rests on the board. */
  const RestHeight: real := 0.3

  /** Cells per side of the board. */
  const Cells: int := 8

  /** The board's width, taken along x from its bounding box. */
  function BoardWidth(board: Box3): real {
    board.max.x - board.min.x
  }

  /**
   * The centre of cell `index` along one side of a board `size` wide that is
   * centred on the origin. It is (2 * index - 7) / 16 of the width, so for the
   * eight cells it lies strictly inside the board, at most 7/16 of the width
   * from the middle.
   */
  function CellCentre(index: int, size: real): (c: real)
    ensures c == (2 * index - 7) as real * size / 16.0
    ensures 0 <= index < Cells && size > 0.0 ==> -size / 2.0 < c < size / 2.0
    ensures 0 <= index < Cells && size >= 0.0 ==> -7.0 * size / 16.0 <= c <= 7.0 * size / 16.0
  {
    var cellWidth := size / Cells as real;
    var c := index as real * cellWidth + cellWidth / 2.0 - size / 2.0;
    var m := (2 * index - 7) as real;
    assert c == m * size / 16.0;
    if 0 <= index < Cells && size >= 0.0 then
      ProductNonNegative(m + 7.0, size);
      ProductNonNegative(7.0 - m, size);
      c
    else
      c
  }

  lemma ProductNonNegative(a: real, b: real)
    requires a >= 0.0 && b >= 0.0
    ensures a * b >= 0.0
  {
  }

  /** Cells mirrored about the middle of the board have mirrored centres. */
  lemma CellCentreMirror(index: int, size: real)
    ensures CellCentre(7 - index, size) == -CellCentre(index, size)
  {
  }

  /** Neighbouring cells are exactly one cell width apart. */
  lemma CellCentreStep(index: int, size: real)
    ensures CellCentre(index + 1, size) - CellCentre(index, size) == size / 8.0
  {
  }

  /** On a board of positive width, centres strictly increase with the cell index. */
  lemma CellCentreIncreasing(i: int, j: int, size: real)
    requires i < j && size > 0.0
    ensures CellCentre(i, size) < CellCentre(j, size)
  {
    assert (2 * j - 7) as real - (2 * i - 7) as real >= 2.0;
    var d := ((2 * j - 7) as real - (2 * i - 7) as real) * size / 16.0;
    assert d > 0.0;
  }

  /**
   * `_getBoardPosition`: the centre of cell (row, col) in the board plane; x comes
   * from the column and the second coordinate from the row.
   */
  function BoardPosition(row: int, col: int, board: Box3): (p: Vec2)
    ensures p.x == (2 * col - 7) as real * BoardWidth(board) / 16.0
    ensures p.y == (2 * row - 7) as real * BoardWidth(board) / 16.0
  {
    Vec2(CellCentre(col, BoardWidth(board)), CellCentre(row, BoardWidth(board)))
  }

  datatype Color = White | Black

  /** The piece models of the scene file; "Rock" is the scene's own name for the rook. */
  datatype Kind = Pawn | Rock | Knight | Bishop | Queen | King

  type Digit = d: int | 0 <= d < 10

  /**
   * One entry of the opening layout: the cell, the model it is cloned from and the
   * ordinal that tells apart the meshes cloned from the same model.
   */
  datatype Placement = Placement(row: int, col: int, color: Color, kind: Kind, ordinal: Option<Digit>)

  function ColorName(c: Color): string {
    match c
    case White => "White"
    case Black => "Black"
  }

  function KindName(k: Kind): string {
    match k
    case Pawn => "Pawn"
    case Rock => "Rock"
    case Knight => "Knight"
    case Bishop => "Bishop"
    case Queen => "Queen"
    case King => "King"
  }

  function DigitChar(d: Digit): char {
    "0123456789"[d]
  }

  /** The name of the model a piece is cloned from, such as "White-Pawn". */
  function ModelName(p: Placement): string {
    ColorName(p.color) + "-" + KindName(p.kind)
  }

  /** The name given to the cloned mesh, such as "White-Pawn-3" or "Black-King". */
  function MeshName(p: Placement): string {
    ModelName(p) + (match p.ordinal case Some(d) => "-" + [DigitChar(d)] case None => "")
  }

  /** The opening layout, entry for entry and in the order the pieces are created. */
  function Layout(): (t: seq<Placement>)
    ensures |t| == 32
  {
    [ Placement(1, 0, White, Pawn, Some(0)),
      Placement(1, 1, White, Pawn, Some(1)),
      Placement(1, 2, White, Pawn, Some(2)),
      Placement(1, 3, White, Pawn, Some(3)),
      Placement(1, 4, White, Pawn, Some(4)),
      Placement(1, 5, White, Pawn, Some(5)),
      Placement(1, 6, White, Pawn, Some(6)),
      Placement(1, 7, White, Pawn, Some(7)),

      Placement(0, 0, White, Rock, Some(0)),
      Placement(0, 1, White, Knight, Some(0)),
      Placement(0, 2, White, Bishop, Some(0)),
      Placement(0, 3, White, Queen, None),
      Placement(0, 4, White, King, None),
      Placement(0, 5, White, Bishop, Some(1)),
      Placement(0, 6, White, Knight, Some(1)),
      Placement(0, 7, White, Rock, Some(1)),

      Placement(6, 0, Black, Pawn, Some(0)),
      Placement(6, 1, Black, Pawn, Some(1)),
      Placement(6, 2, Black, Pawn, Some(2)),
      Placement(6, 3, Black, Pawn, Some(3)),
      Placement(6, 4, Black, Pawn, Some(4)),
      Placement(6, 5, Black, Pawn, Some(5)),
      Placement(6, 6, Black, Pawn, Some(6)),
      Placement(6, 7, Black, Pawn, Some(7)),

      Placement(7, 0, Black, Rock, Some(0)),
      Placement(7, 1, Black, Knight, Some(0)),
      Placement(7, 2, Black, Bishop, Some(0)),
      Placement(7, 3, Black, Queen, None),
      Placement(7, 4, Black, King, None),
      Placement(7, 5, Black, Bishop, Some(1)),
      Placement(7, 6, Black, Knight, Some(1)),
      Placement(7, 7, Black, Rock, Some(1)) ]
  }

  /** The rows that hold pieces at the start: the two back ranks and the two pawn ranks. */
  predicate StartRow(r: int) {
    r == 0 || r == 1 || r == 6 || r == 7
  }

  function BackRankKind(col: int): Kind
    requires 0 <= col < 8
  {
    [Rock, Knight, Bishop, Queen, King, Bishop, Knight, Rock][col]
  }

  /** Rooks, knights and bishops are numbered 0 on the queen's side and 1 on the king's. */
  function BackRankOrdinal(col: int): Option<Digit> {
    if col == 3 || col == 4 then None else if col < 4 then Some(0) else Some(1)
  }

  /**
   * The layout as a rule: entries come in four groups of eight, one per start row
   * (1, 0, 6, 7), files 0 to 7 in order; White owns rows 0 and 1; pawn rows number
   * their pawns by file.
   */
  function Entry(k: int): (p: Placement)
    requires 0 <= k < 32
    ensures StartRow(p.row) && 0 <= p.col < 8
  {
    var g, c := k / 8, k % 8;
    var row := [1, 0, 6, 7][g];
    var color := if g < 2 then White else Black;
    if g % 2 == 0 then Placement(row, c, color, Pawn, Some(c))
    else Placement(row, c, color, BackRankKind(c), BackRankOrdinal(c))
  }

  /** The literal table follows the rule, entry for entry. */
  lemma LayoutFollowsRule()
    ensures forall k | 0 <= k < 32 :: Layout()[k] == Entry(k)
  {
    forall k | 0 <= k < 32
      ensures Layout()[k] == Entry(k)
    {
      assert k == 0 || k == 1 || k == 2 || k == 3 || k == 4 || k == 5 || k == 6 || k == 7 ||
             k == 8 || k == 9 || k == 10 || k == 11 || k == 12 || k == 13 || k == 14 || k == 15 ||
             k == 16 || k == 17 || k == 18 || k == 19 || k == 20 || k == 21 || k == 22 || k == 23 ||
             k == 24 || k == 25 || k == 26 || k == 27 || k == 28 || k == 29 || k == 30 || k == 31;
    }
  }

  /** Different entries of the rule stand on different cells. */
  lemma EntrySquaresDistinct(i: int, j: int)
    requires 0 <= i < 32 && 0 <= j < 32 && i != j
    ensures (Entry(i).row, Entry(i).col) != (Entry(j).row, Entry(j).col)
  {
  }

  /** The back rank holds no pawn. */
  lemma BackRankNotPawn(col: int)
    requires 0 <= col < 8
    ensures BackRankKind(col) != Pawn
  {
  }

  /** Different files of the back rank hold different (kind, ordinal) pairs. */
  lemma BackRankDistinct(c1: int, c2: int)
    requires 0 <= c1 < 8 && 0 <= c2 < 8 && c1 != c2
    ensures (BackRankKind(c1), BackRankOrdinal(c1)) != (BackRankKind(c2), BackRankOrdinal(c2))
  {
  }

  /** Different entries of the rule carry different (colour, kind, ordinal) names. */
  lemma EntryNamesDistinct(i: int, j: int)
    requires 0 <= i < 32 && 0 <= j < 32 && i != j
    ensures (Entry(i).color, Entry(i).kind, Entry(i).ordinal) != (Entry(j).color, Entry(j).kind, Entry(j).ordinal)
  {
    var gi, ci, gj, cj := i / 8, i % 8, j / 8, j % 8;
    if gi == gj {
      assert ci != cj;
      if gi % 2 == 1 {
        BackRankDistinct(ci, cj);
      }
    } else if (gi < 2) == (gj < 2) {
      assert gi % 2 != gj % 2;
      if gi % 2 == 1 { BackRankNotPawn(ci); } else { BackRankNotPawn(cj); }
    }
  }

  /** The length and the telling characters of a mesh name. */
  lemma MeshNameShape(p: Placement)
    ensures |MeshName(p)| == 6 + |KindName(p.kind)| + (if p.ordinal.Some? then 2 else 0)
    ensures MeshName(p)[0] == ColorName(p.color)[0]
    ensures MeshName(p)[6] == KindName(p.kind)[0] && MeshName(p)[7] == KindName(p.kind)[1]
    ensures p.ordinal.Some? ==> MeshName(p)[|MeshName(p)| - 1] == DigitChar(p.ordinal.value)
  {
    var s := ModelName(p);
    assert |s| == 6 + |KindName(p.kind)|;
    assert s[0] == ColorName(p.color)[0];
    assert s[6] == KindName(p.kind)[0] && s[7] == KindName(p.kind)[1];
  }

  /** A mesh name gives back the colour, kind and ordinal it was made from. */
  lemma MeshNameInjective(a: Placement, b: Placement)
    requires MeshName(a) == MeshName(b)
    ensures a.color == b.color && a.kind == b.kind && a.ordinal == b.ordinal
  {
    MeshNameShape(a);
    MeshNameShape(b);
    assert a.color == b.color;
    assert a.kind == b.kind;
    if a.ordinal.Some? && b.ordinal.Some? {
      assert DigitChar(a.ordinal.value) == DigitChar(b.ordinal.value);
    }
  }

  /**
   * The opening layout: 32 pieces, all in the start rows and on the board, on
   * pairwise distinct cells, with pairwise distinct mesh names.
   */
  lemma LayoutWellFormed()
    ensures |Layout()| == 32
    ensures forall k | 0 <= k < 32 :: StartRow(Layout()[k].row) && 0 <= Layout()[k].col < 8
    ensures forall i, j | 0 <= i < 32 && 0 <= j < 32 && i != j ::
      (Layout()[i].row, Layout()[i].col) != (Layout()[j].row, Layout()[j].col)
    ensures forall i, j | 0 <= i < 32 && 0 <= j < 32 && i != j ::
      MeshName(Layout()[i]) != MeshName(Layout()[j])
  {
    LayoutFollowsRule();
    forall i, j | 0 <= i < 32 && 0 <= j < 32 && i != j
      ensures (Layout()[i].row, Layout()[i].col) != (Layout()[j].row, Layout()[j].col)
      ensures MeshName(Layout()[i]) != MeshName(Layout()[j])
    {
      EntrySquaresDistinct(i, j);
      EntryNamesDistinct(i, j);
      if MeshName(Layout()[i]) == MeshName(Layout()[j]) {
        MeshNameInjective(Layout()[i], Layout()[j]);
      }
    }
  }

  /** Every cell of every start row holds a piece, so each of those rows holds eight. */
  lemma LayoutFillsStartRows(r: int, c: int)
    requires StartRow(r) && 0 <= c < 8
    ensures exists k | 0 <= k < 32 :: Layout()[k].row == r && Layout()[k].col == c
  {
    LayoutFollowsRule();
    var g := if r == 1 then 0 else if r == 0 then 1 else if r == 6 then 2 else 3;
    var k := 8 * g + c;
    assert k / 8 == g && k % 8 == c;
    assert Layout()[k] == Entry(k);
  }

  /** A piece mesh in the scene: its name, the model it was cloned from, its position. */
  datatype PieceMesh = PieceMesh(name: string, model: string, position: Vec3)

  /** The mesh `_createHorse` makes for one layout entry on the given board. */
  function HorseMesh(p: Placement, board: Box3): PieceMesh {
    var posRC := BoardPosition(p.row, p.col, board);
    PieceMesh(MeshName(p), ModelName(p), Vec3(posRC.x, RestHeight, posRC.y))
  }

  /** The meshes for the entries of a table, in table order. */
  function HorseMeshes(table: seq<Placement>, board: Box3): seq<PieceMesh> {
    seq(|table|, k requires 0 <= k < |table| => HorseMesh(table[k], board))
  }

  /** The meshes of the whole opening layout, in creation order. */
  function Horses(board: Box3): seq<PieceMesh> {
    HorseMeshes(Layout(), board)
  }

  /** The creation order: the first k + 1 meshes are the first k and then entry k's. */
  lemma HorseMeshesPrefix(table: seq<Placement>, board: Box3, k: int)
    requires 0 <= k < |table|
    ensures HorseMeshes(table, board)[..k + 1] == HorseMeshes(table, board)[..k] + [HorseMesh(table[k], board)]
  {
  }

  /**
   * The opening meshes: 32 of them, named apart, resting at the rest height on the
   * centre of their cell (x from the column, z from the row), strictly inside the
   * board, and no two in the same place.
   */
  lemma HorsesPlacement(board: Box3)
    requires BoardWidth(board) > 0.0
    ensures |Horses(board)| == 32
    ensures var size := BoardWidth(board); forall k | 0 <= k < 32 ::
      && Horses(board)[k].position.y == RestHeight
      && Horses(board)[k].position.x == (2 * Layout()[k].col - 7) as real * size / 16.0
      && Horses(board)[k].position.z == (2 * Layout()[k].row - 7) as real * size / 16.0
      && -size / 2.0 < Horses(board)[k].position.x < size / 2.0
      && -size / 2.0 < Horses(board)[k].position.z < size / 2.0
    ensures forall i, j | 0 <= i < 32 && 0 <= j < 32 && i != j ::
      Horses(board)[i].name != Horses(board)[j].name &&
      Horses(board)[i].position != Horses(board)[j].position
  {
    LayoutWellFormed();
    var size := BoardWidth(board);
    var h := Horses(board);
    forall k | 0 <= k < 32
      ensures h[k].name == MeshName(Layout()[k])
      ensures h[k].position == Vec3(CellCentre(Layout()[k].col, size), RestHeight, CellCentre(Layout()[k].row, size))
    {
      assert h[k] == HorseMesh(Layout()[k], board);
    }
    forall i, j | 0 <= i < 32 && 0 <= j < 32 && i != j
      ensures h[i].position != h[j].position
    {
      var a, b := Layout()[i], Layout()[j];
      if a.col != b.col {
        if a.col < b.col { CellCentreIncreasing(a.col, b.col, size); }
        else { CellCentreIncreasing(b.col, a.col, size); }
      } else {
        assert a.row != b.row;
        if a.row < b.row { CellCentreIncreasing(a.row, b.row, size); }
        else { CellCentreIncreasing(b.row, a.row, size); }
      }
    }
  }

  /**
   * The scene of the chess script as far as piece creation goes: the board's
   * bounding box, fixed once the board is added, and the piece meshes added so far.
   */
  class ChessScene {
    const board: Box3
    var meshes: seq<PieceMesh>

    /** `_createBoard`: the scene holds the board and no pieces yet. */
    constructor (board: Box3)
      ensures this.board == board && meshes == []
    {
      this.board := board;
      meshes := [];
    }

    /** `_createHorse`: clone the model, name it, put it on its cell, add it to the scene. */
    method CreateHorse(p: Placement)
      modifies this
      ensures meshes == old(meshes) + [HorseMesh(p, board)]
    {
      var posRC := BoardPosition(p.row, p.col, board);
      var mesh := PieceMesh(MeshName(p), ModelName(p), Vec3(posRC.x, RestHeight, posRC.y));
      meshes := meshes + [mesh];
    }

    /** `_createHorses`: create the 32 pieces of the opening layout in table order. */
    method CreateHorses()
      modifies this
      ensures meshes == old(meshes) + Horses(board)
    {
      var table := Layout();
      for k := 0 to |table|
        invariant meshes == old(meshes) + HorseMeshes(table, board)[..k]
      {
        CreateHorse(table[k]);
        HorseMeshesPrefix(table, board, k);
      }
      assert HorseMeshes(table, board)[..|table|] == HorseMeshes(table, board);
    }
  }
}

/** The 5x5 board of cell stacks, its top-card view, the coordinate mirror for
    the second player, and the clash rule of the move generator
    (src/Gamestate.py:35-104). The board is indexed field[j][i]: row j, column i. */
module Board {
  import opened Records

  /** The whole board: a row of cells per j, a stack of entries per cell. */
  type Field = seq<seq<seq<Entry>>>

  /** The visible board: one entry per cell. */
  type Grid = seq<seq<Entry>>

  predicate IsBoard(f: Field)
  {
    |f| == 5 && forall j :: 0 <= j < 5 ==> |f[j]| == 5
  }

  predicate IsGrid(t: Grid)
  {
    |t| == 5 && forall j :: 0 <= j < 5 ==> |t[j]| == 5
  }

  /** _create_empty_field: every cell holds one entry, the filler (i, j). */
  function EmptyField(): (f: Field)
    ensures IsBoard(f)
    ensures forall j, i :: 0 <= j < 5 && 0 <= i < 5 ==> f[j][i] == [Filler(i, j)]
  {
    seq(5, j => seq(5, i => [Filler(i, j)]))
  }

  /** The visible entry of one cell stack. */
  function Top(stack: seq<Entry>): Entry
  {
    if |stack| > 0 then stack[|stack| - 1] else C(EmptyCard)
  }

  /** _get_top_card_field: the last entry of every cell, or the empty card
      for an empty stack, with the shape of the board. */
  function TopCardField(f: Field): (t: Grid)
    ensures |t| == |f|
    ensures forall j :: 0 <= j < |f| ==> |t[j]| == |f[j]|
    ensures forall j, i :: 0 <= j < |f| && 0 <= i < |f[j]| && f[j][i] != [] ==>
              t[j][i] == f[j][i][|f[j][i]| - 1]
    ensures forall j, i :: 0 <= j < |f| && 0 <= i < |f[j]| && f[j][i] == [] ==>
              t[j][i] == C(EmptyCard)
  {
    seq(|f|, j requires 0 <= j < |f| => seq(|f[j]|, i requires 0 <= i < |f[j]| => Top(f[j][i])))
  }

  /** On a fresh board every visible entry is the filler of its own cell. */
  lemma FreshFieldTop()
    ensures IsGrid(TopCardField(EmptyField()))
    ensures forall j, i :: 0 <= j < 5 && 0 <= i < 5 ==> TopCardField(EmptyField())[j][i] == Filler(i, j)
  {
  }

  /** _mirror_coords(i, j), defined for i, j in 0..4. */
  function MirrorCoords(i: int, j: int): (r: (int, int))
    requires 0 <= i <= 4 && 0 <= j <= 4
    ensures 0 <= r.0 <= 4 && 0 <= r.1 <= 4
  {
    (4 - j, 4 - i)
  }

  lemma MirrorInvolution(i: int, j: int)
    requires 0 <= i <= 4 && 0 <= j <= 4
    ensures MirrorCoords(MirrorCoords(i, j).0, MirrorCoords(i, j).1) == (i, j)
  {
  }

  /** The view of the second player: entry [j][i] reads the grid at the
      mirrored coordinates used as indexes [row][column]. */
  function MirrorGrid(t: Grid): (r: Grid)
    requires IsGrid(t)
    ensures IsGrid(r)
    ensures forall j, i :: 0 <= j < 5 && 0 <= i < 5 ==> r[j][i] == t[4 - j][4 - i]
  {
    seq(5, j requires 0 <= j < 5 =>
      seq(5, i requires 0 <= i < 5 => t[MirrorCoords(i, j).0][MirrorCoords(i, j).1]))
  }

  /** Mirroring the view again gives back the grid it was taken from. */
  lemma MirrorGridInvolution(t: Grid)
    requires IsGrid(t)
    ensures MirrorGrid(MirrorGrid(t)) == t
  {
    var r := MirrorGrid(MirrorGrid(t));
    forall j | 0 <= j < 5 ensures r[j] == t[j] {
      forall i | 0 <= i < 5 ensures r[j][i] == t[j][i] {
        MirrorInvolution(i, j);
      }
    }
  }

  /** _get_reversed_top_card_field: the top-card view through the mirror. */
  function ReversedTopCardField(f: Field): (r: Grid)
    requires IsBoard(f)
    ensures IsGrid(r)
    ensures forall j, i :: 0 <= j < 5 && 0 <= i < 5 ==> r[j][i] == Top(f[4 - j][4 - i])
  {
    MirrorGrid(TopCardField(f))
  }

  /** What the move generator demands of a visible board: every entry is a
      card (reading `side` of a filler fails) whose side is None, 0 or 1. */
  predicate Faultless(t: Grid)
  {
    forall j, i :: 0 <= j < |t| && 0 <= i < |t[j]| ==>
      t[j][i].C? && t[j][i].card.side in {None, Some(0), Some(1)}
  }

  /** Two cards clash when they differ and share the character or the number. */
  predicate Clashes(a: Card, b: Card)
  {
    a != b && (a.character == b.character || a.number == b.number)
  }

  /** The visible card at column i of row j belongs to `active` and clashes
      with some card of the same row, of either side. */
  predicate RowClashAt(t: Grid, active: int, i: int, j: int)
  {
    && 0 <= j < |t| && 0 <= i < |t[j]|
    && t[j][i].C? && t[j][i].card.side == Some(active)
    && exists k :: 0 <= k < |t[j]| && t[j][k].C? && Clashes(t[j][i].card, t[j][k].card)
  }

  /** The moves the generator emits: from a clashing cell (i, j) to (i, j + 1). */
  predicate IsClashMove(t: Grid, active: int, m: Move)
  {
    RowClashAt(t, active, m.start.0, m.start.1) && m.end == (m.start.0, m.start.1 + 1)
  }

  /** The second player's clashes are those of the absolute board at the
      mirrored cell: row j of the view is absolute row 4 - j reversed. */
  lemma MirroredRowClash(t: Grid, active: int, i: int, j: int)
    requires IsGrid(t)
    requires 0 <= i < 5 && 0 <= j < 5
    ensures RowClashAt(MirrorGrid(t), active, i, j) <==> RowClashAt(t, active, 4 - i, 4 - j)
  {
    var r := MirrorGrid(t);
    if RowClashAt(r, active, i, j) {
      var k :| 0 <= k < 5 && r[j][k].C? && Clashes(r[j][i].card, r[j][k].card);
      assert t[4 - j][4 - k] == r[j][k];
    }
    if RowClashAt(t, active, 4 - i, 4 - j) {
      var k :| 0 <= k < 5 && t[4 - j][k].C? && Clashes(t[4 - j][4 - i].card, t[4 - j][k].card);
      assert r[j][4 - k] == t[4 - j][k];
    }
  }

  /** A board whose visible entry is a filler cannot be scanned for moves; on a
      fresh board that holds for both players' views. */
  lemma FreshFieldNotFaultless()
    ensures !Faultless(TopCardField(EmptyField()))
    ensures !Faultless(ReversedTopCardField(EmptyField()))
  {
    FreshFieldTop();
    assert TopCardField(EmptyField())[0][0] == Filler(0, 0);
    assert ReversedTopCardField(EmptyField())[0][0] == Filler(4, 4);
  }
}

/** Drag-to-paint: the pointer handlers of the page, abstracted into three
    events acting on the pair (schedule, paint state). A press toggles the
    cell under the pointer and remembers the slot it painted; entering further
    cells while the button is held paints them with that slot; releasing the
    button anywhere ends the session. */
module Paint {
  import opened Store

  datatype Option<T> = None | Some(value: T)

  /** The two module fields `isPainting` and `paintMode` (null when not painting). */
  datatype PaintState = PaintState(isPainting: bool, paintMode: Option<Slot>)

  /** The state before any press and after every release. */
  const Idle := PaintState(false, None)

  /** A mode is set exactly while painting: every handler keeps this. */
  predicate Consistent(ps: PaintState) {
    ps.isPainting <==> ps.paintMode.Some?
  }

  /** `mousedown` on a cell, `mouseenter` on a cell, and the document-wide `mouseup`. */
  datatype Event = Down(person: nat, idx: nat) | Enter(person: nat, idx: nat) | Up

  /** Everything the handlers act on. */
  datatype Config = Config(grid: Grid, paint: PaintState)

  /** The cell an event addresses exists whenever the handler reads or writes it:
      a press always does, an enter only while painting. */
  predicate Accepts(c: Config, e: Event) {
    match e
    case Down(p, i) => InRange(c.grid, p, i)
    case Enter(p, i) => c.paint.isPainting ==> InRange(c.grid, p, i)
    case Up => true
  }

  /** The handlers `onCellDown`, `onCellEnter` and the `mouseup` listener. */
  function Next(c: Config, e: Event): (r: Config)
    requires Consistent(c.paint) && Accepts(c, e)
    ensures Consistent(r.paint)
    ensures |r.grid| == |c.grid| && forall q :: 0 <= q < |c.grid| ==> |r.grid[q]| == |c.grid[q]|
  {
    match e
    case Down(p, i) =>
      var mode := Opposite(c.grid[p][i]);
      Config(WriteSlot(c.grid, p, i, mode), PaintState(true, Some(mode)))
    case Enter(p, i) =>
      if !c.paint.isPainting then c
      else Config(WriteSlot(c.grid, p, i, c.paint.paintMode.value), c.paint)
    case Up =>
      Config(c.grid, Idle)
  }

  /** A press flips the pressed cell, starts painting with the slot it wrote, and
      leaves every other cell as it was. */
  lemma DownToggles(c: Config, p: nat, i: nat)
    requires Consistent(c.paint) && InRange(c.grid, p, i)
    ensures var r := Next(c, Down(p, i));
      && r.grid[p][i] != c.grid[p][i]
      && r.paint == PaintState(true, Some(r.grid[p][i]))
      && forall q: nat, j: nat :: InRange(c.grid, q, j) && (q, j) != (p, i) ==> r.grid[q][j] == c.grid[q][j]
  {
  }

  /** Entering a cell while not painting changes nothing. */
  lemma EnterIgnoredWhenIdle(c: Config, p: nat, i: nat)
    requires Consistent(c.paint) && !c.paint.isPainting
    ensures Next(c, Enter(p, i)) == c
  {
  }

  /** Entering a cell while painting overwrites it with the mode and keeps the rest. */
  lemma EnterPaints(c: Config, p: nat, i: nat)
    requires Consistent(c.paint) && c.paint.isPainting && InRange(c.grid, p, i)
    ensures var r := Next(c, Enter(p, i));
      && r.paint == c.paint
      && Some(r.grid[p][i]) == c.paint.paintMode
      && forall q: nat, j: nat :: InRange(c.grid, q, j) && (q, j) != (p, i) ==> r.grid[q][j] == c.grid[q][j]
  {
  }

  /** Entering the same cell again has no further effect. */
  lemma EnterIdempotent(c: Config, p: nat, i: nat)
    requires Consistent(c.paint) && Accepts(c, Enter(p, i))
    ensures var r := Next(c, Enter(p, i)); Next(r, Enter(p, i)) == r
  {
    var r := Next(c, Enter(p, i));
    if c.paint.isPainting {
      var m := c.paint.paintMode.value;
      assert r.grid == WriteSlot(c.grid, p, i, m);
      assert r.grid[p][i := m] == r.grid[p];
      assert WriteSlot(r.grid, p, i, m) == r.grid;
    }
  }

  /** A release ends painting and leaves the schedule alone, whatever came before. */
  lemma UpEndsSession(c: Config)
    requires Consistent(c.paint)
    ensures Next(c, Up) == Config(c.grid, Idle)
  {
  }

  /** A drag over three resting cells: press on the first, enter the other two,
      release. The three cells are work afterwards, every other cell is unchanged,
      and the machine is idle again. */
  lemma DragSession(g: Grid, p0: nat, i0: nat, p1: nat, i1: nat, p2: nat, i2: nat)
    requires InRange(g, p0, i0) && InRange(g, p1, i1) && InRange(g, p2, i2)
    requires g[p0][i0] == Rest && g[p1][i1] == Rest && g[p2][i2] == Rest
    ensures var c1 := Next(Config(g, Idle), Down(p0, i0));
      var c2 := Next(c1, Enter(p1, i1));
      var c3 := Next(c2, Enter(p2, i2));
      var c4 := Next(c3, Up);
      && c4.paint == Idle
      && |c4.grid| == |g|
      && forall q: nat, j: nat :: InRange(g, q, j) ==>
           c4.grid[q][j] == if (q, j) in {(p0, i0), (p1, i1), (p2, i2)} then Work else g[q][j]
  {
  }
}

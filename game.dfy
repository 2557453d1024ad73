/** The page state as a whole: the schedule store, the two paint fields, and the
    readings of the three meter bars, which `updateMeters` rewrites after every
    change of the schedule and `evaluate` reads back. */
module Game {
  import opened Store
  import opened Metrics
  import opened Paint
  import opened Evaluator

  class GameState {
    /** The `schedule` dictionary. */
    const store: Schedule
    var isPainting: bool
    var paintMode: Option<Slot>
    /** The widths of the balance, flow and surplus bars. */
    var bars: Meters

    /** The store is well formed, a paint mode is set exactly while painting,
        and the bars show the meters of the current schedule. */
    ghost predicate Valid()
      reads this, store.rows
    {
      && store.Valid()
      && Consistent(PaintState(isPainting, paintMode))
      && bars == MetersOf(store.Snapshot(), store.hours)
    }

    /** The state the pointer handlers act on. */
    ghost function State(): Config
      reads this, store.rows
      requires store.Valid()
    {
      Config(store.Snapshot(), PaintState(isPainting, paintMode))
    }

    /** Start-up of the page: `initData` followed by `updateMeters`. */
    constructor (people: nat, hours: nat)
      requires people >= 1 && hours >= 1
      ensures Valid() && |store.rows| == people && store.hours == hours
      ensures State() == Config(Blank(people, hours), Idle)
      ensures bars == Meters(70, 60, 65)
    {
      var s := new Schedule.InitData(people, hours);
      var m := UpdateMeters(s);
      BlankMeters(people, hours);
      store := s;
      isPainting := false;
      paintMode := None;
      bars := m;
    }

    /** `setCell`: write the slot, then recompute the meters. */
    method SetCell(p: nat, i: nat, s: Slot)
      requires Valid() && p < |store.rows| && i < store.hours
      modifies this, store.rows[p]
      ensures Valid()
      ensures store.Snapshot() == WriteSlot(old(store.Snapshot()), p, i, s)
      ensures isPainting == old(isPainting) && paintMode == old(paintMode)
    {
      store.SetCell(p, i, s);
      bars := UpdateMeters(store);
    }

    /** `onCellDown`: paint with the opposite of the pressed cell, starting with that cell. */
    method OnCellDown(p: nat, i: nat)
      requires Valid() && p < |store.rows| && i < store.hours
      modifies this, store.rows[p]
      ensures Valid()
      ensures State() == Next(old(State()), Down(p, i))
    {
      var current := store.rows[p][i];
      paintMode := Some(Opposite(current));
      isPainting := true;
      SetCell(p, i, paintMode.value);
    }

    /** `onCellEnter`: while painting, overwrite the entered cell with the mode. */
    method OnCellEnter(p: nat, i: nat)
      requires Valid() && (isPainting ==> p < |store.rows| && i < store.hours)
      modifies this, store.rows
      ensures Valid()
      ensures State() == Next(old(State()), Enter(p, i))
    {
      if !isPainting {
        return;
      }
      SetCell(p, i, paintMode.value);
    }

    /** The document-wide `mouseup` listener. */
    method OnMouseUp()
      requires Valid()
      modifies this
      ensures Valid() && bars == old(bars)
      ensures State() == Next(old(State()), Up)
    {
      isPainting := false;
      paintMode := None;
    }

    /** `clearAll`: every slot back to rest, then recompute the meters. */
    method ClearAll()
      requires Valid()
      modifies this, store.rows
      ensures Valid()
      ensures State() == Config(Blank(|store.rows|, store.hours), old(State()).paint)
      ensures bars == Meters(70, 60, 65)
    {
      store.ClearAll();
      bars := UpdateMeters(store);
      BlankMeters(|store.rows|, store.hours);
    }

    /** `evaluate`, on the readings of the bars. */
    method Evaluate() returns (v: Verdict)
      requires Valid()
      ensures v == Classify(bars.balance, bars.flow, bars.surplus)
      ensures var m := MetersOf(store.Snapshot(), store.hours);
        v == Classify(m.balance, m.flow, m.surplus)
    {
      v := Classify(bars.balance, bars.flow, bars.surplus);
    }
  }

  /** The all-rest schedule (at start-up and after clearing) is judged Acceptable. */
  lemma BlankIsAcceptable(people: nat, hours: nat)
    requires people >= 1 && hours >= 1
    ensures var m := MetersOf(Blank(people, hours), hours);
      Classify(m.balance, m.flow, m.surplus) == Acceptable
  {
    BlankMeters(people, hours);
  }
}

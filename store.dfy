/** The schedule store of the page: for every person of the roster, one array
    of day slots, each either a rest day or a work day. The arrays are created
    once, all rest, and afterwards only written in place. */
module Store {

  /** The state of one cell of the grid. */
  datatype Slot = Rest | Work

  /** The state a toggle switches a cell to. */
  function Opposite(s: Slot): (r: Slot)
    ensures r != s
  {
    if s == Work then Rest else Work
  }

  /** A snapshot of the whole schedule: row q holds person q's days in order. */
  type Grid = seq<seq<Slot>>

  /** At least one person, at least one day, and every person has `hours` slots. */
  predicate Shaped(g: Grid, hours: nat) {
    |g| >= 1 && hours >= 1 && forall q :: 0 <= q < |g| ==> |g[q]| == hours
  }

  /** Cell (p, i) exists in the grid. */
  predicate InRange(g: Grid, p: nat, i: nat) {
    p < |g| && i < |g[p]|
  }

  /** A row of n slots, all equal to v (what `Array(n).fill(v)` holds). */
  function Filled(n: nat, v: Slot): (r: seq<Slot>)
    ensures |r| == n && forall k :: 0 <= k < n ==> r[k] == v
  {
    seq(n, _ => v)
  }

  /** The schedule in which every person rests on every day. */
  function Blank(people: nat, hours: nat): (g: Grid)
    ensures |g| == people
    ensures forall q :: 0 <= q < people ==> |g[q]| == hours
    ensures forall q, j :: 0 <= q < people && 0 <= j < hours ==> g[q][j] == Rest
  {
    seq(people, _ => Filled(hours, Rest))
  }

  /** The grid after writing slot `s` into cell (p, i). */
  function WriteSlot(g: Grid, p: nat, i: nat, s: Slot): (r: Grid)
    requires InRange(g, p, i)
    ensures |r| == |g| && forall q :: 0 <= q < |g| ==> |r[q]| == |g[q]|
    ensures r[p][i] == s
    ensures forall q, j :: 0 <= q < |g| && 0 <= j < |g[q]| && (q != p || j != i) ==> r[q][j] == g[q][j]
  {
    g[p := g[p][i := s]]
  }

  /** `Array.prototype.fill`: overwrite every element of `a` with `v`. */
  method Fill(a: array<Slot>, v: Slot)
    modifies a
    ensures a[..] == Filled(a.Length, v)
  {
    for i := 0 to a.Length
      invariant forall j :: 0 <= j < i ==> a[j] == v
    {
      a[i] := v;
    }
  }

  /** The module-level `schedule` dictionary of the page. */
  class Schedule {
    /** One array per person, in roster order. */
    const rows: seq<array<Slot>>
    /** The number of slots per person (seven on the page: one per weekday). */
    const hours: nat

    /** Persons q and r own different arrays. */
    ghost predicate Separate(q: nat, r: nat)
      requires q < |rows| && r < |rows|
    {
      rows[q] != rows[r]
    }

    /** Every person has exactly `hours` slots and no two persons share an array. */
    ghost predicate Valid() {
      && |rows| >= 1 && hours >= 1
      && (forall q :: 0 <= q < |rows| ==> rows[q].Length == hours)
      && (forall q: nat, r: nat :: q < r < |rows| ==> Separate(q, r))
    }

    /** The current contents of the arrays, as a value. */
    ghost function Snapshot(): (g: Grid)
      reads rows
      requires Valid()
      ensures Shaped(g, hours) && |g| == |rows|
      ensures forall q :: 0 <= q < |rows| ==> g[q] == rows[q][..]
    {
      seq(|rows|, q reads rows requires 0 <= q < |rows| => rows[q][..])
    }

    /** `initData`: one fresh all-rest array of `hours` slots per person. */
    constructor InitData(people: nat, hours: nat)
      requires people >= 1 && hours >= 1
      ensures Valid() && |rows| == people && this.hours == hours
      ensures forall q :: 0 <= q < |rows| ==> fresh(rows[q])
      ensures Snapshot() == Blank(people, hours)
    {
      var rs: seq<array<Slot>> := [];
      while |rs| < people
        invariant |rs| <= people
        invariant forall q :: 0 <= q < |rs| ==> fresh(rs[q]) && rs[q].Length == hours
        invariant forall q :: 0 <= q < |rs| ==> rs[q][..] == Filled(hours, Rest)
        invariant forall q, r :: 0 <= q < r < |rs| ==> rs[q] != rs[r]
      {
        var a := new Slot[hours](_ => Rest);
        rs := rs + [a];
      }
      rows := rs;
      this.hours := hours;
    }

    /** The schedule write of `setCell`: slot i of person p becomes s. */
    method SetCell(p: nat, i: nat, s: Slot)
      requires Valid() && p < |rows| && i < hours
      modifies rows[p]
      ensures Snapshot() == WriteSlot(old(Snapshot()), p, i, s)
    {
      forall q | 0 <= q < |rows| && q != p ensures rows[q] != rows[p] {
        if q < p { assert Separate(q, p); } else { assert Separate(p, q); }
      }
      rows[p][i] := s;
    }

    /** The fill of `clearAll`: every slot of every person becomes rest. */
    method ClearAll()
      requires Valid()
      modifies rows
      ensures Snapshot() == Blank(|rows|, hours)
    {
      for q := 0 to |rows|
        invariant forall r :: 0 <= r < q ==> rows[r][..] == Filled(hours, Rest)
      {
        forall r | 0 <= r < q ensures rows[r] != rows[q] {
          assert Separate(r, q);
        }
        Fill(rows[q], Rest);
      }
    }
  }
}

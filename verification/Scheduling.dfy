/** Runtime cells: the capacity a release asks for, what a cell can hold, and which cell is chosen. */
module Scheduling {
  import opened Int64
  import opened Normalize
  import Order
  import Sums

  type Id = string

  datatype CellState = ActiveCell | Draining | Offline

  datatype Cell = Cell(region: string, isolations: set<Isolation>, state: CellState, capacity: int, used: int, domain: string)
  {
    predicate CanPlace(wanted: string, isolation: Isolation, units: int) {
      state == ActiveCell && region == wanted && isolation in isolations && units > 0 && used <= capacity - units
    }

    function Allocate(units: int): (r: Option<Cell>)
      ensures r.Some? <==> state == ActiveCell && units > 0 && used + units <= capacity
    {
      if state != ActiveCell || units <= 0 || used > capacity - units then None
      else Some(this.(used := used + units))
    }

    function Release(units: int): (r: Option<Cell>)
      ensures r.Some? <==> 0 < units <= used
    {
      if units <= 0 || units > used then None else Some(this.(used := used - units))
    }

    function Free(): int {
      capacity - used
    }
  }

  // ---------------------------------------------------------------- requested units

  ghost function Minimum(): Process -> int {
    (p: Process) => p.minReplicas
  }

  /** Units per minimum replica, summed over the processes; None when that is not a positive 64-bit amount. */
  ghost function Units(weight: Option<int>, processes: map<string, Process>): Option<int> {
    var replicas := Sums.Sum(processes, Minimum());
    if weight.None? || weight.value <= 0 then None
    else if (exists n | n in processes :: processes[n].minReplicas < 0) || replicas <= 0 || weight.value * replicas > MAX then None
    else Some(weight.value * replicas)
  }

  /** A single process asks for the weight times its minimum replicas, if that is a positive 64-bit amount. */
  lemma UnitsOfOne(weight: int, n: string, p: Process)
    ensures Units(Some(weight), map[n := p]) ==
      if weight > 0 && p.minReplicas > 0 && weight * p.minReplicas <= MAX then Some(weight * p.minReplicas) else None
  {
    var one := map[n := p];
    Sums.Remove(one, n, Minimum());
    assert one - {n} == map[];
    assert one[n] == p;
  }

  /** One more process asks for the weight times its minimum replicas on top, whatever its name. */
  lemma UnitsOfAnother(weight: int, processes: map<string, Process>, n: string, p: Process)
    requires n !in processes && p.minReplicas >= 0 && Units(Some(weight), processes).Some?
    ensures var units := Units(Some(weight), processes).value + weight * p.minReplicas;
      Units(Some(weight), processes[n := p]) == if units <= MAX then Some(units) else None
  {
    var more := processes[n := p];
    Sums.Update(processes, n, p, Minimum());
    var r := Sums.Sum(processes, Minimum());
    assert weight * (r + p.minReplicas) == weight * r + weight * p.minReplicas;
  }

  /** Nothing is asked for by an unknown or weightless unit, nor with a negative minimum. */
  lemma NoUnits(weight: Option<int>, processes: map<string, Process>)
    ensures weight.None? || weight.value <= 0 || (exists n | n in processes :: processes[n].minReplicas < 0) ==> Units(weight, processes).None?
    ensures Units(weight, map[]).None?
  {}

  /** Processes come in whatever order the map yields them. */
  method RequestedUnits(weight: Option<int>, processes: map<string, Process>) returns (units: Option<int>)
    ensures units == Units(weight, processes)
    ensures units.Some? ==> 0 < units.value <= MAX
  {
    if weight.None? || weight.value <= 0 {
      return None;
    }
    var replicas := 0;
    var rest := processes;
    while rest != map[]
      invariant forall n | n in rest :: n in processes && rest[n] == processes[n]
      invariant forall n | n in processes && n !in rest :: processes[n].minReplicas >= 0
      invariant 0 <= replicas <= MAX
      invariant Sums.Sum(processes, Minimum()) == replicas + Sums.Sum(rest, Minimum())
      decreases |rest|
    {
      var n :| n in rest;
      Sums.Remove(rest, n, Minimum());
      var p := rest[n];
      rest := rest - {n};
      if p.minReplicas < 0 {
        return None;
      }
      assert Minimum()(p) == p.minReplicas;
      if replicas > MAX - p.minReplicas {
        OverflowsAnyway(weight.value, processes, rest, replicas + p.minReplicas);
        return None;
      }
      replicas := replicas + p.minReplicas;
    }
    assert forall n | n in processes :: processes[n].minReplicas >= 0;
    if replicas <= 0 {
      return None;
    }
    units := Weighed(weight.value, replicas);
  }

  /** The product, when it is in range: the guard divides rather than multiply. */
  method Weighed(weight: int, replicas: int) returns (units: Option<int>)
    requires 0 < weight && 0 < replicas
    ensures units == if weight * replicas > MAX then None else Some(weight * replicas)
    ensures units.Some? ==> 0 < units.value
  {
    Quotient(weight, replicas);
    Larger(1, weight, replicas);
    if weight > MAX / replicas {
      return None;
    }
    return Some(weight * replicas);
  }

  lemma OverflowsAnyway(weight: int, processes: map<string, Process>, rest: map<string, Process>, seen: int)
    requires weight > 0 && seen > MAX
    requires forall n | n in rest :: n in processes && rest[n] == processes[n]
    requires Sums.Sum(processes, Minimum()) == seen + Sums.Sum(rest, Minimum())
    ensures Units(Some(weight), processes) == None
  {
    if forall n | n in processes :: processes[n].minReplicas >= 0 {
      Sums.NonNegative(rest, Minimum());
      var replicas := Sums.Sum(processes, Minimum());
      Larger(1, weight, replicas);
    }
  }

  lemma Quotient(w: int, r: int)
    requires w > 0 && r > 0
    ensures w > MAX / r <==> w * r > MAX
  {
    QuotientOf(MAX, w, r);
  }

  lemma QuotientOf(m: int, w: int, r: int)
    requires w > 0 && r > 0 && m >= 0
    ensures w > m / r <==> w * r > m
  {
    var q := m / r;
    assert m == q * r + m % r;
    if w > q {
      Larger(q + 1, w, r);
    } else {
      Larger(w, q, r);
    }
  }

  lemma Larger(a: int, b: int, r: int)
    requires a <= b && r > 0
    ensures a * r <= b * r
  {}

  // ---------------------------------------------------------------- the scheduler

  /** Freest first, ties by identifier. */
  predicate Preferred(cells: map<Id, Cell>, a: Id, b: Id)
    requires a in cells && b in cells
  {
    cells[a].Free() > cells[b].Free() || (cells[a].Free() == cells[b].Free() && Order.Less(a, b))
  }

  ghost predicate IsBest(cells: map<Id, Cell>, region: string, isolation: Isolation, units: int, id: Id) {
    && id in cells && cells[id].CanPlace(region, isolation, units)
    && forall x | x in cells && x != id && cells[x].CanPlace(region, isolation, units) :: Preferred(cells, id, x)
  }

  lemma PreferredTransitive(cells: map<Id, Cell>, a: Id, b: Id, c: Id)
    requires a in cells && b in cells && c in cells && Preferred(cells, a, b) && Preferred(cells, b, c)
    ensures Preferred(cells, a, c)
  {
    if Order.Less(a, b) && Order.Less(b, c) {
      Order.Transitive(a, b, c);
    }
  }

  lemma PreferredTotal(cells: map<Id, Cell>, a: Id, b: Id)
    requires a in cells && b in cells
    ensures Preferred(cells, a, b) || a == b || Preferred(cells, b, a)
    ensures !(Preferred(cells, a, b) && Preferred(cells, b, a))
  {
    Order.Total(a, b);
    if Order.Less(a, b) && Order.Less(b, a) {
      Order.Transitive(a, b, a);
      Order.Irreflexive(a);
    }
  }

  /** Sorted by preference. */
  ghost predicate Ranked(cells: map<Id, Cell>, ids: seq<Id>) {
    && (forall x | x in ids :: x in cells)
    && forall i, j | 0 <= i < j < |ids| :: Preferred(cells, ids[i], ids[j])
  }

  method InsertRanked(cells: map<Id, Cell>, id: Id, ids: seq<Id>) returns (out: seq<Id>)
    requires id in cells && id !in ids && Ranked(cells, ids)
    ensures Ranked(cells, out) && forall x :: x in out <==> x == id || x in ids
  {
    var p := 0;
    while p < |ids| && Preferred(cells, ids[p], id)
      invariant 0 <= p <= |ids|
      invariant forall q | 0 <= q < p :: Preferred(cells, ids[q], id)
    {
      p := p + 1;
    }
    out := ids[..p] + [id] + ids[p..];
    forall q | p <= q < |ids| ensures Preferred(cells, id, ids[q]) {
      PreferredTotal(cells, ids[p], id);
      if q > p {
        PreferredTransitive(cells, id, ids[p], ids[q]);
      }
    }
    assert ids == ids[..p] + ids[p..];
  }

  method SortCells(cells: map<Id, Cell>) returns (ids: seq<Id>)
    ensures Ranked(cells, ids) && forall x :: x in ids <==> x in cells
  {
    ids := [];
    var rest := cells.Keys;
    while rest != {}
      invariant rest <= cells.Keys && Ranked(cells, ids)
      invariant forall x :: x in ids <==> x in cells.Keys - rest
      decreases |rest|
    {
      var id :| id in rest;
      ids := InsertRanked(cells, id, ids);
      rest := rest - {id};
    }
  }

  /** An active cell of the region that supports the isolation and has room for a positive number of units. */
  predicate Serves(c: Cell, region: string, isolation: Isolation, units: int) {
    c.state == ActiveCell && c.region == region && isolation in c.isolations && 0 < units && c.used + units <= c.capacity
  }

  /** The freest cell that fits, the smallest identifier among equals; nothing exactly when none fits. */
  method Select(cells: map<Id, Cell>, region: string, isolation: Isolation, units: int) returns (choice: Option<Id>)
    ensures choice.Some? ==> IsBest(cells, region, isolation, units, choice.value)
    ensures choice.None? ==> forall x | x in cells :: !cells[x].CanPlace(region, isolation, units)
    ensures choice.Some? ==> choice.value in cells && Serves(cells[choice.value], region, isolation, units)
    ensures forall x | x in cells && Serves(cells[x], region, isolation, units) && choice != Some(x) ::
      choice.Some? &&
      (|| cells[choice.value].capacity - cells[choice.value].used > cells[x].capacity - cells[x].used
       || (cells[choice.value].capacity - cells[choice.value].used == cells[x].capacity - cells[x].used && Order.Less(choice.value, x)))
  {
    var ids := SortCells(cells);
    for i := 0 to |ids|
      invariant forall j | 0 <= j < i :: !cells[ids[j]].CanPlace(region, isolation, units)
    {
      if cells[ids[i]].CanPlace(region, isolation, units) {
        forall x | x in cells && x != ids[i] && cells[x].CanPlace(region, isolation, units) ensures Preferred(cells, ids[i], x) {
          assert x in ids;
        }
        return Some(ids[i]);
      }
    }
    forall x | x in cells ensures !cells[x].CanPlace(region, isolation, units) {
      assert x in ids;
    }
    return None;
  }

  lemma BestUnique(cells: map<Id, Cell>, region: string, isolation: Isolation, units: int, a: Id, b: Id)
    requires IsBest(cells, region, isolation, units, a) && IsBest(cells, region, isolation, units, b)
    ensures a == b
  {
    PreferredTotal(cells, a, b);
  }

  /** The best cell is one that serves, and any other one that does has less to spare, or as much under a later identifier. */
  lemma BestExactly(cells: map<Id, Cell>, region: string, isolation: Isolation, units: int, id: Id)
    ensures IsBest(cells, region, isolation, units, id) <==>
      && id in cells && Serves(cells[id], region, isolation, units)
      && forall x | x in cells && x != id && Serves(cells[x], region, isolation, units) ::
           || cells[id].capacity - cells[id].used > cells[x].capacity - cells[x].used
           || (cells[id].capacity - cells[id].used == cells[x].capacity - cells[x].used && Order.Less(id, x))
  {
    hide Order.Less;
    forall x | x in cells ensures Serves(cells[x], region, isolation, units) <==> cells[x].CanPlace(region, isolation, units) {}
  }
}

/** Runtime metering: the sweep line that turns replica observations into unit-seconds.
    Times are nanoseconds. The reference meaning is an integral over every nanosecond of the
    window of the rate of the observation in force at that nanosecond. */
module Metering {
  import opened Int64

  const SECOND: int := 1_000_000_000

  datatype Observation = Observation(at: int, replicas: int, unitWeight: int, suspended: bool)

  datatype Indexed = Indexed(o: Observation, i: nat)

  // ---------------------------------------------------------------- reference meaning

  /** Units consumed per unit of time while this observation is in force. */
  function Rate(o: Observation): (r: nat)
    ensures (o.suspended || o.replicas <= 0 || o.unitWeight <= 0) ==> r == 0
  {
    if !o.suspended && o.replicas > 0 && o.unitWeight > 0 then
      Positive(o.replicas, o.unitWeight);
      o.replicas * o.unitWeight
    else 0
  }

  lemma Positive(a: int, b: int)
    requires a > 0 && b > 0
    ensures a * b > 0
  {}

  /** Index of the observation in force at t: the latest one not after t, ties won by the later input. */
  function Latest(obs: seq<Observation>, t: int): (k: int)
    ensures -1 <= k < |obs|
    ensures k == -1 <==> forall j | 0 <= j < |obs| :: obs[j].at > t
    ensures k >= 0 ==> obs[k].at <= t
    ensures k >= 0 ==> forall j | 0 <= j < |obs| && obs[j].at <= t ::
      obs[j].at < obs[k].at || (obs[j].at == obs[k].at && j <= k)
  {
    if obs == [] then -1
    else
      var n := |obs| - 1;
      var b := Latest(obs[..n], t);
      if obs[n].at <= t && (b < 0 || obs[b].at <= obs[n].at) then n else b
  }

  function RateAt(obs: seq<Observation>, t: int): nat {
    var k := Latest(obs, t);
    if k < 0 then 0 else Rate(obs[k])
  }

  predicate IsInstant(obs: seq<Observation>, t: int) {
    exists j | 0 <= j < |obs| :: obs[j].at == t
  }

  /** Exact consumption over [s, e), one nanosecond at a time. */
  function Integral(obs: seq<Observation>, s: int, e: int): nat
    decreases e - s
  {
    if s >= e then 0 else Integral(obs, s, e - 1) + RateAt(obs, e - 1)
  }

  /** Total rate of the constant segments of [s, e): one term at s and one at every observation instant. */
  function SegmentRates(obs: seq<Observation>, s: int, e: int): nat
    decreases e - s
  {
    if s >= e then 0
    else SegmentRates(obs, s, e - 1) + (if e - 1 == s || IsInstant(obs, e - 1) then RateAt(obs, e - 1) else 0)
  }

  /** Where the constant segment that ends at e begins: at the last instant in the window before e, or at s. */
  function SegmentStart(obs: seq<Observation>, s: int, e: int): (c: int)
    requires s < e
    ensures s <= c < e && (c == s || IsInstant(obs, c)) && (forall t | c < t < e :: !IsInstant(obs, t))
    decreases e - s
  {
    if e - 1 == s || IsInstant(obs, e - 1) then e - 1 else SegmentStart(obs, s, e - 1)
  }

  /** Whole seconds only: every constant segment of [s, e) counts with its length rounded down to seconds. */
  function Metered(obs: seq<Observation>, s: int, e: int): int
    decreases e - s
  {
    if s >= e then 0
    else
      var c := SegmentStart(obs, s, e);
      Metered(obs, s, c) + Sub(e, c) / SECOND * RateAt(obs, c)
  }

  /** Two readings that put the same rate in force at every moment. */
  ghost predicate SameReading(a: seq<Observation>, b: seq<Observation>) {
    && (forall t :: RateAt(a, t) == RateAt(b, t))
    && (forall t :: IsInstant(a, t) <==> IsInstant(b, t))
  }

  predicate WholeSeconds(obs: seq<Observation>, s: int, e: int) {
    && s % SECOND == 0 && e % SECOND == 0
    && forall j | 0 <= j < |obs| :: obs[j].at % SECOND == 0
  }

  lemma {:induction false} SameReadingSums(a: seq<Observation>, b: seq<Observation>, s: int, e: int)
    requires SameReading(a, b)
    ensures Integral(a, s, e) == Integral(b, s, e)
    ensures SegmentRates(a, s, e) == SegmentRates(b, s, e)
    decreases e - s
  {
    if s < e {
      SameReadingSums(a, b, s, e - 1);
    }
  }

  lemma {:induction false} SameReadingMetered(a: seq<Observation>, b: seq<Observation>, s: int, e: int)
    requires SameReading(a, b)
    ensures Metered(a, s, e) == Metered(b, s, e)
    decreases e - s
  {
    hide RateAt, IsInstant;
    if s < e {
      SegmentStartUnique(a, s, e, SegmentStart(b, s, e));
      SameReadingMetered(a, b, s, SegmentStart(a, s, e));
    }
  }

  lemma SegmentStartUnique(obs: seq<Observation>, s: int, e: int, c: int)
    requires s <= c < e && (c == s || IsInstant(obs, c)) && (forall t | c < t < e :: !IsInstant(obs, t))
    ensures SegmentStart(obs, s, e) == c
  {
    hide IsInstant;
  }

  lemma OneMore(r: int, n: int)
    ensures r * n + r == r * (n + 1)
  {}

  lemma {:induction false} IntegralConstant(obs: seq<Observation>, s: int, c: int, u: int, r: nat)
    requires s <= c <= u
    requires forall t | c <= t < u :: RateAt(obs, t) == r
    ensures Integral(obs, s, u) == Integral(obs, s, c) + r * (u - c)
    decreases u - c
  {
    hide RateAt;
    if c < u {
      IntegralConstant(obs, s, c, u - 1, r);
      OneMore(r, u - 1 - c);
    }
  }

  lemma {:induction false} SegmentConstant(obs: seq<Observation>, s: int, c: int, u: int)
    requires s <= c < u
    requires c == s || IsInstant(obs, c)
    requires forall t | c < t < u :: !IsInstant(obs, t)
    ensures SegmentRates(obs, s, u) == SegmentRates(obs, s, c) + RateAt(obs, c)
    decreases u - c
  {
    if c + 1 < u {
      SegmentConstant(obs, s, c, u - 1);
      assert !IsInstant(obs, u - 1);
    }
  }

  /** The exact integral splits at any point of the window. */
  lemma {:induction false} IntegralAdditive(obs: seq<Observation>, a: int, b: int, c: int)
    requires a <= b <= c
    ensures Integral(obs, a, c) == Integral(obs, a, b) + Integral(obs, b, c)
    decreases c - b
  {
    if b < c {
      IntegralAdditive(obs, a, b, c - 1);
    }
  }

  // ---------------------------------------------------------------- the sorted, deduplicated timeline

  predicate Before(a: Indexed, b: Indexed) {
    a.o.at < b.o.at || (a.o.at == b.o.at && a.i < b.i)
  }

  ghost predicate Sorted(items: seq<Indexed>) {
    forall p, q | 0 <= p < q < |items| :: Before(items[p], items[q])
  }

  /** Insertion of an item with a fresh position into a sorted list. */
  method Insert(x: Indexed, items: seq<Indexed>) returns (out: seq<Indexed>)
    requires Sorted(items)
    requires forall y | y in items :: y.i != x.i
    ensures Sorted(out) && |out| == |items| + 1
    ensures forall y :: y in out <==> y == x || y in items
  {
    var p := 0;
    while p < |items| && Before(items[p], x)
      invariant 0 <= p <= |items|
      invariant forall q | 0 <= q < p :: Before(items[q], x)
    {
      p := p + 1;
    }
    out := items[..p] + [x] + items[p..];
    forall q | p <= q < |items| ensures Before(x, items[q]) {
      assert items[q] in items && items[p] in items;
    }
    assert items == items[..p] + items[p..];
  }

  /** The cleaned items of the first n readings. */
  ghost predicate Holds(items: seq<Indexed>, obs: seq<Observation>, n: nat)
    requires n <= |obs|
  {
    forall y :: y in items <==> 0 <= y.i < n && y.o == Cleaned(obs[y.i])
  }

  function Cleaned(o: Observation): (c: Observation)
    ensures c.at == o.at && Rate(c) == Rate(o)
  {
    o.(replicas := Max(0, o.replicas), unitWeight := Max(0, o.unitWeight))
  }

  function Strip(items: seq<Indexed>): (r: seq<Observation>)
    ensures |r| == |items|
    ensures forall p | 0 <= p < |r| :: r[p] == items[p].o
  {
    seq(|items|, p requires 0 <= p < |items| => items[p].o)
  }

  /** Negative readings are clamped to zero, then everything is ordered by time and input position. */
  method SortReadings(obs: seq<Observation>) returns (items: seq<Indexed>)
    ensures Sorted(items) && Holds(items, obs, |obs|)
  {
    items := [];
    for i := 0 to |obs|
      invariant Sorted(items) && Holds(items, obs, i)
    {
      items := Insert(Indexed(Cleaned(obs[i]), i), items);
    }
  }

  lemma SortedInstant(items: seq<Indexed>, obs: seq<Observation>, t: int)
    requires Sorted(items) && Holds(items, obs, |obs|)
    ensures IsInstant(Strip(items), t) <==> IsInstant(obs, t)
  {
    var d := Strip(items);
    if IsInstant(d, t) {
      var p :| 0 <= p < |d| && d[p].at == t;
      assert items[p] in items;
      assert obs[items[p].i].at == t;
    }
    if IsInstant(obs, t) {
      var k :| 0 <= k < |obs| && obs[k].at == t;
      var q := Position(items, obs, k);
      assert d[q].at == t;
    }
  }

  /** Sorting keeps the observation in force: it is the last sorted item not after t. */
  lemma SortedReading(items: seq<Indexed>, obs: seq<Observation>, t: int)
    requires Sorted(items) && Holds(items, obs, |obs|)
    ensures RateAt(Strip(items), t) == RateAt(obs, t)
    ensures IsInstant(Strip(items), t) <==> IsInstant(obs, t)
  {
    SortedInstant(items, obs, t);
    hide IsInstant;
    var d := Strip(items);
    var k, p := Latest(obs, t), Latest(d, t);
    if k >= 0 {
      var q := Position(items, obs, k);
      assert d[q].at == obs[k].at <= t;
      assert p >= 0;
    }
    if p >= 0 {
      assert items[p] in items;
      var i := items[p].i;
      assert obs[i].at == d[p].at <= t;
      assert k >= 0;
      var q := Position(items, obs, k);
      assert d[q].at == obs[k].at;
    }
  }

  lemma Position(items: seq<Indexed>, obs: seq<Observation>, k: nat) returns (q: nat)
    requires k < |obs| && Holds(items, obs, |obs|)
    ensures q < |items| && items[q] == Indexed(Cleaned(obs[k]), k)
  {
    assert Indexed(Cleaned(obs[k]), k) in items;
    q :| 0 <= q < |items| && items[q] == Indexed(Cleaned(obs[k]), k);
  }

  ghost predicate Rising(d: seq<Observation>) {
    forall p, q | 0 <= p < q < |d| :: d[p].at < d[q].at
  }

  /** The last reading of a time-ordered list takes over from its own instant on. */
  lemma RateAppend(s: seq<Observation>, x: Observation, t: int)
    requires forall p | 0 <= p < |s| :: s[p].at <= x.at
    ensures RateAt(s + [x], t) == if x.at <= t then Rate(x) else RateAt(s, t)
    ensures IsInstant(s + [x], t) <==> IsInstant(s, t) || t == x.at
  {
    var u := s + [x];
    assert u[..|u| - 1] == s && u[|u| - 1] == x;
    if IsInstant(s, t) {
      var j :| 0 <= j < |s| && s[j].at == t;
      assert u[j].at == t;
    }
    if t == x.at {
      assert u[|s|].at == t;
    }
    if IsInstant(u, t) && t != x.at {
      var j :| 0 <= j < |u| && u[j].at == t;
      assert s[j].at == t;
    }
  }

  lemma AppendLater(d: seq<Observation>, a: seq<Observation>, x: Observation)
    requires SameReading(d, a)
    requires forall p | 0 <= p < |d| :: d[p].at <= x.at
    requires forall p | 0 <= p < |a| :: a[p].at <= x.at
    ensures SameReading(d + [x], a + [x])
  {
    forall t ensures RateAt(d + [x], t) == RateAt(a + [x], t) && (IsInstant(d + [x], t) <==> IsInstant(a + [x], t)) {
      RateAppend(d, x, t);
      RateAppend(a, x, t);
    }
  }

  /** A second reading of the last instant makes the first one irrelevant. */
  lemma ReplaceLast(d: seq<Observation>, a: seq<Observation>, x: Observation)
    requires SameReading(d, a) && Rising(d) && d != [] && d[|d| - 1].at == x.at
    requires forall p | 0 <= p < |a| :: a[p].at <= x.at
    ensures SameReading(d[..|d| - 1] + [x], a + [x])
  {
    var h, z := d[..|d| - 1], d[|d| - 1];
    assert h + [z] == d;
    forall t ensures RateAt(h + [x], t) == RateAt(a + [x], t) && (IsInstant(h + [x], t) <==> IsInstant(a + [x], t)) {
      RateAppend(h, z, t);
      RateAppend(h, x, t);
      RateAppend(a, x, t);
    }
  }

  /** One more reading, not before the others: it replaces a last one of the same instant. */
  method Absorb(d: seq<Observation>, x: Observation, ghost a: seq<Observation>) returns (out: seq<Observation>)
    requires Rising(d) && SameReading(d, a) && (a == [] <==> d == []) && (a != [] ==> d[|d| - 1] == a[|a| - 1])
    requires forall p | 0 <= p < |a| :: a[p].at <= x.at
    ensures Rising(out) && SameReading(out, a + [x]) && out != [] && out[|out| - 1] == x
  {
    if |d| > 0 && d[|d| - 1].at == x.at {
      ReplaceLast(d, a, x);
      out := d[..|d| - 1] + [x];
    } else {
      AppendLater(d, a, x);
      out := d + [x];
    }
  }

  /** Readings of the same instant collapse to the last one. */
  method Dedup(items: seq<Indexed>) returns (d: seq<Observation>)
    requires Sorted(items)
    ensures Rising(d) && SameReading(d, Strip(items))
  {
    d := [];
    ghost var src := Strip(items);
    assert SameReading(d, src[..0]);
    for n := 0 to |items|
      invariant Rising(d) && SameReading(d, src[..n])
      invariant n == 0 <==> d == []
      invariant n > 0 ==> d[|d| - 1] == src[n - 1]
    {
      hide SameReading, Rising;
      var x := items[n].o;
      assert src[..n + 1] == src[..n] + [x];
      assert forall p | 0 <= p < n :: Before(items[p], items[n]);
      d := Absorb(d, x, src[..n]);
    }
    assert src[..|items|] == src;
  }

  // ---------------------------------------------------------------- the sweep

  /** time.Sub: a duration saturates at the largest 64-bit nanosecond count. */
  function Sub(u: int, c: int): int {
    Min(u - c, MAX)
  }

  /** The integral of a segment and its whole-second approximation. */
  lemma SegmentTerm(length: nat, rate: nat)
    ensures var term := Sub(length, 0) / SECOND * rate;
      && term >= 0
      && SECOND * term <= rate * length
      && (length <= MAX ==> rate * length <= SECOND * term + (SECOND - 1) * rate)
      && (length <= MAX && length % SECOND == 0 ==> SECOND * term == rate * length)
  {
    var m := Min(length, MAX);
    var seconds := m / SECOND;
    var rest := m - SECOND * seconds;
    assert 0 <= rest <= SECOND - 1 && m == SECOND * seconds + rest;
    calc {
      rate * m;
      rate * (SECOND * seconds + rest);
      SECOND * (seconds * rate) + rate * rest;
    }
    ScaleLe(rate, rest, SECOND - 1);
    ScaleLe(rate, m, length);
    ScaleLe(rate, 0, rest);
    assert rate * 0 == 0;
    ScaleLe(seconds, 0, rate);
  }

  lemma ScaleLe(k: nat, a: int, b: int)
    requires a <= b
    ensures k * a <= k * b
  {}

  /** In a rising timeline the observation in force between two instants is the earlier one. */
  lemma RisingReading(d: seq<Observation>, n: nat, t: int)
    requires Rising(d) && n <= |d|
    requires n > 0 ==> d[n - 1].at <= t
    requires n < |d| ==> t < d[n].at
    ensures RateAt(d, t) == if n == 0 then 0 else Rate(d[n - 1])
    ensures IsInstant(d, t) <==> n > 0 && d[n - 1].at == t
  {
    if n > 0 {
      assert IsInstant(d, d[n - 1].at);
    }
  }

  /** What the running total owes to the exact integral up to the cursor. */
  ghost predicate Tracks(d: seq<Observation>, start: int, end: int, cursor: int, total: int) {
    && start <= cursor <= end
    && total == Metered(d, start, cursor)
    && 0 <= SECOND * total <= Integral(d, start, cursor)
    && (end - start <= MAX ==> Integral(d, start, cursor) <= SECOND * total + (SECOND - 1) * SegmentRates(d, start, cursor))
    && (end - start <= MAX && WholeSeconds(d, start, end) ==> cursor % SECOND == 0 && SECOND * total == Integral(d, start, cursor))
  }

  /** A tracked total plus the term of the next constant segment is tracked again. */
  lemma TracksStep(d: seq<Observation>, start: int, end: int, cursor: int, u: int, total: int, rate: nat, area: nat, term: nat)
    requires Tracks(d, start, end, cursor, total) && cursor < u <= end
    requires Integral(d, start, u) == Integral(d, start, cursor) + area
    requires SegmentRates(d, start, u) == SegmentRates(d, start, cursor) + rate
    requires Metered(d, start, u) == Metered(d, start, cursor) + term
    requires SECOND * term <= area
    requires u - cursor <= MAX ==> area <= SECOND * term + (SECOND - 1) * rate
    requires u - cursor <= MAX && (u - cursor) % SECOND == 0 ==> SECOND * term == area
    requires WholeSeconds(d, start, end) ==> u % SECOND == 0
    ensures Tracks(d, start, end, u, total + term)
  {
    hide Metered, Integral, SegmentRates;
    Distribute(SECOND, total, term);
    Distribute(SECOND - 1, SegmentRates(d, start, cursor), rate);
    if WholeSeconds(d, start, end) && end - start <= MAX {
      assert (u - cursor) % SECOND == 0;
    }
  }

  lemma Distribute(k: int, a: int, b: int)
    ensures k * (a + b) == k * a + k * b
  {}

  /** The reading in force stays constant between two neighbouring instants. */
  lemma ConstantStretch(d: seq<Observation>, start: int, cursor: int, u: int, n: nat, rate: nat)
    requires Rising(d) && n <= |d| && start <= cursor < u
    requires cursor == start || IsInstant(d, cursor)
    requires rate == if n == 0 then 0 else Rate(d[n - 1])
    requires n > 0 ==> d[n - 1].at <= cursor
    requires n < |d| ==> u <= d[n].at
    ensures Integral(d, start, u) == Integral(d, start, cursor) + rate * (u - cursor)
    ensures SegmentRates(d, start, u) == SegmentRates(d, start, cursor) + rate
    ensures Metered(d, start, u) == Metered(d, start, cursor) + Sub(u, cursor) / SECOND * rate
  {
    forall t | cursor <= t < u ensures RateAt(d, t) == rate {
      RisingReading(d, n, t);
    }
    forall t | cursor < t < u ensures !IsInstant(d, t) {
      RisingReading(d, n, t);
    }
    IntegralConstant(d, start, cursor, u, rate);
    SegmentConstant(d, start, cursor, u);
    SegmentStartUnique(d, start, u, cursor);
  }

  /** The term of the segment from the cursor to u keeps the total on track. */
  lemma SegmentTracked(current: Observation, d: seq<Observation>, start: int, end: int, cursor: int, u: int, n: nat, total: int, term: int)
    requires Rising(d) && n <= |d| && cursor < u <= end
    requires Tracks(d, start, end, cursor, total)
    requires cursor == start || IsInstant(d, cursor)
    requires Rate(current) == if n == 0 then 0 else Rate(d[n - 1])
    requires n > 0 ==> d[n - 1].at <= cursor
    requires n < |d| ==> u <= d[n].at
    requires WholeSeconds(d, start, end) ==> u % SECOND == 0
    requires term == Sub(u, cursor) / SECOND * Rate(current)
    ensures Tracks(d, start, end, u, total + term)
  {
    hide Metered, Integral, SegmentRates, IsInstant, WholeSeconds, Rising, Rate, RateAt;
    ConstantStretch(d, start, cursor, u, n, Rate(current));
    SegmentTerm(u - cursor, Rate(current));
    TracksStep(d, start, end, cursor, u, total, Rate(current), Rate(current) * (u - cursor), term);
  }

  /** One constant segment: the closure that the sweep calls at every instant and at the end. */
  method Advance(current: Observation, until: int, end: int, cursor: int, total: int,
    ghost d: seq<Observation>, ghost start: int, ghost n: nat)
    returns (cursor': int, total': int)
    requires Rising(d) && n <= |d| && cursor < end && cursor < until
    requires Tracks(d, start, end, cursor, total)
    requires cursor == start || IsInstant(d, cursor)
    requires Rate(current) == if n == 0 then 0 else Rate(d[n - 1])
    requires n > 0 ==> d[n - 1].at <= cursor
    requires n < |d| ==> Min(until, end) <= d[n].at
    requires WholeSeconds(d, start, end) ==> until % SECOND == 0
    ensures cursor' == Min(until, end)
    ensures Tracks(d, start, end, cursor', total')
    ensures total' - total ==
      if current.suspended || current.replicas <= 0 || current.unitWeight <= 0 then 0
      else Min(cursor' - cursor, MAX) / 1_000_000_000 * current.replicas * current.unitWeight
  {
    hide Tracks, IsInstant, Rising;
    var u := if until > end then end else until;
    var term := 0;
    if !current.suspended && current.replicas > 0 && current.unitWeight > 0 {
      var seconds := Sub(u, cursor) / SECOND;
      term := seconds * current.replicas * current.unitWeight;
      Associate(seconds, current.replicas, current.unitWeight);
    }
    SegmentTracked(current, d, start, end, cursor, u, n, total, term);
    cursor', total' := u, total + term;
  }

  lemma Associate(a: int, b: int, c: int)
    ensures a * b * c == a * (b * c)
  {}

  /** The reading in force as the window starts, and how many are not after that. */
  method Preceding(d: seq<Observation>, start: int) returns (current: Observation, idx: nat)
    requires Rising(d)
    ensures idx <= |d| && Rate(current) == if idx == 0 then 0 else Rate(d[idx - 1])
    ensures idx > 0 ==> d[idx - 1].at <= start
    ensures idx < |d| ==> start < d[idx].at
  {
    current := Observation(start, 0, 0, false);
    idx := 0;
    while idx < |d| && d[idx].at <= start
      invariant 0 <= idx <= |d|
      invariant idx > 0 ==> d[idx - 1].at <= start && current == d[idx - 1]
      invariant idx == 0 ==> Rate(current) == 0
    {
      current := d[idx];
      idx := idx + 1;
    }
  }

  lemma TracksNothing(d: seq<Observation>, start: int, end: int)
    requires start < end
    ensures Tracks(d, start, end, start, 0)
  {}

  lemma NextInstant(d: seq<Observation>, start: int, end: int, idx: nat)
    requires Rising(d) && idx < |d|
    ensures IsInstant(d, d[idx].at) && (WholeSeconds(d, start, end) ==> d[idx].at % SECOND == 0)
    ensures idx + 1 < |d| ==> d[idx].at < d[idx + 1].at
  {}

  /** The sweep over a rising timeline. */
  method Sweep(d: seq<Observation>, start: int, end: int) returns (total: int)
    requires Rising(d) && start < end
    ensures Tracks(d, start, end, end, total)
  {
    hide Tracks, IsInstant, RateAt, Rate, WholeSeconds, Rising;
    var current, idx := Preceding(d, start);
    var cursor := start;
    total := 0;
    TracksNothing(d, start, end);
    assert WholeSeconds(d, start, end) ==> end % SECOND == 0 by {
      EndsWhole(d, start, end);
    }
    while idx < |d| && d[idx].at < end
      invariant 0 <= idx <= |d|
      invariant start <= cursor < end && Tracks(d, start, end, cursor, total)
      invariant cursor == start || IsInstant(d, cursor)
      invariant Rate(current) == if idx == 0 then 0 else Rate(d[idx - 1])
      invariant idx > 0 ==> d[idx - 1].at <= cursor
      invariant idx < |d| ==> cursor < d[idx].at
    {
      NextInstant(d, start, end, idx);
      if d[idx].at > cursor {
        cursor, total := Advance(current, d[idx].at, end, cursor, total, d, start, idx);
      }
      current := d[idx];
      idx := idx + 1;
    }
    cursor, total := Advance(current, end, end, cursor, total, d, start, idx);
  }

  lemma EndsWhole(d: seq<Observation>, start: int, end: int)
    ensures WholeSeconds(d, start, end) ==> end % SECOND == 0
  {}

  // ---------------------------------------------------------------- the metered quantity

  /** What a window owes, in whole unit-seconds: its consumption rounded down, capped at the 64-bit maximum. */
  function UnitSeconds(obs: seq<Observation>, start: int, end: int): int {
    Min(Integral(obs, start, end) / SECOND, MAX)
  }

  /** The whole seconds of every constant segment at its rate, capped; on whole seconds, with times that a duration can hold,
      replicas times weight of the observation in force, second by second. Never more than the exact consumption; for windows whose length a duration can hold, less than one
      second of each segment's rate is lost, and nothing at all when every time is a whole second. */
  method CalculateRuntimeUnitSeconds(obs: seq<Observation>, start: int, end: int) returns (result: int)
    ensures 0 <= result <= MAX
    ensures result == Min(Metered(obs, start, end), MAX)
    ensures forall n: nat | end == start + n * 1_000_000_000 && n * 1_000_000_000 <= MAX && OnTheSecond(obs, start) ::
      result == Min(SecondBySecond(obs, start, n), MAX)
    ensures SECOND * result <= Integral(obs, start, end)
    ensures end - start <= MAX && result < MAX ==>
      Integral(obs, start, end) <= SECOND * result + (SECOND - 1) * SegmentRates(obs, start, end)
    ensures end - start <= MAX && WholeSeconds(obs, start, end) ==> result == UnitSeconds(obs, start, end)
    ensures end - start <= MAX && WholeSeconds(obs, start, end) && result < MAX ==>
      SECOND * result == Integral(obs, start, end)
  {
    if start >= end {
      return 0;
    }
    var items := SortReadings(obs);
    var d := Dedup(items);
    var total := Sweep(d, start, end);
    TimelineMeaning(obs, items, d, start, end);
    result := if total > MAX then MAX else total;
    SecondsBilled(obs, start, end, total);
    if end - start <= MAX && WholeSeconds(obs, start, end) {
      assert Integral(obs, start, end) / SECOND == total;
    }
  }

  lemma SecondsBilled(obs: seq<Observation>, start: int, end: int, total: int)
    requires start < end && 0 <= total
    requires end - start <= MAX && WholeSeconds(obs, start, end) ==> SECOND * total == Integral(obs, start, end)
    ensures forall n: nat | end == start + n * 1_000_000_000 && n * 1_000_000_000 <= MAX && OnTheSecond(obs, start) ::
      total == SecondBySecond(obs, start, n)
  {
    hide Integral, SecondBySecond;
    forall n: nat | end == start + n * 1_000_000_000 && n * 1_000_000_000 <= MAX && OnTheSecond(obs, start)
      ensures total == SecondBySecond(obs, start, n)
    {
      SecondsWrittenOut(obs, start, n);
      WholeIntegral(obs, start, end);
    }
  }

  /** The window starts, and every observation is made, on a whole second. */
  predicate OnTheSecond(obs: seq<Observation>, s: int) {
    s % 1_000_000_000 == 0 && forall j | 0 <= j < |obs| :: obs[j].at % 1_000_000_000 == 0
  }

  /** Replicas times weight of the observation in force as each of n seconds begins. */
  function SecondBySecond(obs: seq<Observation>, s: int, n: nat): int {
    if n == 0 then 0
    else
      var k := Latest(obs, s + (n - 1) * 1_000_000_000);
      SecondBySecond(obs, s, n - 1) +
      if k < 0 || obs[k].suspended || obs[k].replicas <= 0 || obs[k].unitWeight <= 0 then 0
      else obs[k].replicas * obs[k].unitWeight
  }

  lemma RateWrittenOut(obs: seq<Observation>, t: int)
    ensures var k := Latest(obs, t);
      RateAt(obs, t) ==
      if k < 0 || obs[k].suspended || obs[k].replicas <= 0 || obs[k].unitWeight <= 0 then 0
      else obs[k].replicas * obs[k].unitWeight
  {
    hide Latest;
  }

  lemma WholeMultiple(s: int, n: nat)
    requires s % SECOND == 0
    ensures (s + n * SECOND) % SECOND == 0
  {}

  lemma {:induction false} SecondsWrittenOut(obs: seq<Observation>, s: int, n: nat)
    requires s % SECOND == 0
    ensures (s + n * SECOND) % SECOND == 0
    ensures PerSecond(obs, s, s + n * SECOND) == SecondBySecond(obs, s, n)
    decreases n
  {
    hide RateAt, Latest;
    WholeMultiple(s, n);
    if n > 0 {
      SecondsWrittenOut(obs, s, n - 1);
      var b := s + (n - 1) * SECOND;
      assert s + n * SECOND - SECOND == b;
      RateWrittenOut(obs, b);
    }
  }

  lemma LatestIs(obs: seq<Observation>, k: nat, s: int, e: int, t: int)
    requires k < |obs| && obs[k].at <= s <= t < e
    requires forall j | 0 <= j < |obs| && j != k :: obs[j].at < obs[k].at || (obs[j].at == obs[k].at && j < k) || obs[j].at >= e
    ensures Latest(obs, t) == k
    ensures IsInstant(obs, t) ==> t == s
  {
    hide Latest;
  }

  /** While one observation is in force its replicas and weight are owed for every whole second, and nothing if it is suspended. */
  lemma SteadyUse(obs: seq<Observation>, k: nat, s: int, e: int)
    requires k < |obs| && obs[k].at <= s < e <= s + MAX
    requires forall j | 0 <= j < |obs| && j != k :: obs[j].at < obs[k].at || (obs[j].at == obs[k].at && j < k) || obs[j].at >= e
    ensures Metered(obs, s, e) ==
      if obs[k].suspended || obs[k].replicas <= 0 || obs[k].unitWeight <= 0 then 0
      else (e - s) / 1_000_000_000 * (obs[k].replicas * obs[k].unitWeight)
    ensures Integral(obs, s, e) ==
      if obs[k].suspended || obs[k].replicas <= 0 || obs[k].unitWeight <= 0 then 0
      else obs[k].replicas * obs[k].unitWeight * (e - s)
  {
    hide RateAt, IsInstant, Latest, Integral, SegmentStart;
    var rate := RateAt(obs, s);
    forall t | s <= t < e ensures RateAt(obs, t) == rate && (IsInstant(obs, t) ==> t == s) {
      LatestIs(obs, k, s, e, t);
      LatestIs(obs, k, s, e, s);
      RateWrittenOut(obs, t);
      RateWrittenOut(obs, s);
    }
    LatestIs(obs, k, s, e, s);
    RateWrittenOut(obs, s);
    IntegralConstant(obs, s, s, e, rate);
    SegmentStartUnique(obs, s, e, s);
    assert Integral(obs, s, s) == 0 && Metered(obs, s, s) == 0 by {
      NothingYet(obs, s);
    }
  }

  lemma NothingYet(obs: seq<Observation>, s: int)
    ensures Integral(obs, s, s) == 0 && Metered(obs, s, s) == 0
  {}

  /** The same readings with every weight multiplied by k. */
  function Scaled(obs: seq<Observation>, k: nat): (r: seq<Observation>)
    ensures |r| == |obs|
    ensures forall j | 0 <= j < |obs| :: r[j] == obs[j].(unitWeight := k * obs[j].unitWeight)
  {
    seq(|obs|, j requires 0 <= j < |obs| => obs[j].(unitWeight := k * obs[j].unitWeight))
  }

  lemma ScaledReading(obs: seq<Observation>, k: nat, t: int)
    ensures RateAt(Scaled(obs, k), t) == k * RateAt(obs, t)
    ensures IsInstant(Scaled(obs, k), t) <==> IsInstant(obs, t)
  {
    hide RateAt, Latest;
    var b := Latest(obs, t);
    assert Latest(Scaled(obs, k), t) == b;
    RateWrittenOut(obs, t);
    RateWrittenOut(Scaled(obs, k), t);
    if b >= 0 && obs[b].replicas > 0 {
      ScaledRate(obs[b].replicas, obs[b].unitWeight, k);
    }
    if IsInstant(obs, t) {
      var j :| 0 <= j < |obs| && obs[j].at == t;
      assert Scaled(obs, k)[j].at == t;
    }
  }

  lemma ScaledRate(replicas: nat, weight: int, k: nat)
    ensures replicas * (k * weight) == k * (replicas * weight)
    ensures weight <= 0 ==> k * weight <= 0
    ensures k * weight <= 0 ==> weight <= 0 || k == 0
  {
    assert replicas * (k * weight) == (replicas * k) * weight == k * (replicas * weight);
  }

  /** Weights that are k times as large use k times as much. */
  lemma ScaledUse(obs: seq<Observation>, k: nat, s: int, e: int)
    ensures Metered(Scaled(obs, k), s, e) == k * Metered(obs, s, e)
    ensures Integral(Scaled(obs, k), s, e) == k * Integral(obs, s, e)
  {
    ScaledMetered(obs, k, s, e);
    ScaledIntegral(obs, k, s, e);
  }

  lemma {:induction false} ScaledIntegral(obs: seq<Observation>, k: nat, s: int, e: int)
    ensures Integral(Scaled(obs, k), s, e) == k * Integral(obs, s, e)
    decreases e - s
  {
    hide RateAt;
    if s < e {
      ScaledReading(obs, k, e - 1);
      ScaledIntegral(obs, k, s, e - 1);
      Distribute(k, Integral(obs, s, e - 1), RateAt(obs, e - 1));
    }
  }

  lemma ScaledTerm(k: int, sum: int, seconds: int, rate: int)
    ensures k * sum + seconds * (k * rate) == k * (sum + seconds * rate)
  {
    assert seconds * (k * rate) == (seconds * k) * rate == k * (seconds * rate);
    Distribute(k, sum, seconds * rate);
  }

  lemma {:induction false} ScaledMetered(obs: seq<Observation>, k: nat, s: int, e: int)
    ensures Metered(Scaled(obs, k), s, e) == k * Metered(obs, s, e)
    decreases e - s
  {
    hide RateAt, IsInstant, SegmentStart;
    if s < e {
      var c := SegmentStart(obs, s, e);
      forall t ensures IsInstant(Scaled(obs, k), t) <==> IsInstant(obs, t) {
        ScaledReading(obs, k, t);
      }
      SegmentStartUnique(Scaled(obs, k), s, e, c);
      ScaledReading(obs, k, c);
      ScaledMetered(obs, k, s, c);
      ScaledTerm(k, Metered(obs, s, c), Sub(e, c) / SECOND, RateAt(obs, c));
    }
  }

  lemma TimelineMeaning(obs: seq<Observation>, items: seq<Indexed>, d: seq<Observation>, start: int, end: int)
    requires Sorted(items) && Holds(items, obs, |obs|)
    requires SameReading(d, Strip(items))
    ensures Integral(d, start, end) == Integral(obs, start, end)
    ensures SegmentRates(d, start, end) == SegmentRates(obs, start, end)
    ensures Metered(d, start, end) == Metered(obs, start, end)
    ensures WholeSeconds(obs, start, end) ==> WholeSeconds(d, start, end)
  {
    forall t ensures RateAt(d, t) == RateAt(obs, t) && (IsInstant(d, t) <==> IsInstant(obs, t)) {
      SortedReading(items, obs, t);
    }
    assert SameReading(d, obs);
    SameReadingSums(d, obs, start, end);
    SameReadingMetered(d, obs, start, end);
    forall p | 0 <= p < |d| && WholeSeconds(obs, start, end) ensures d[p].at % SECOND == 0 {
      assert IsInstant(d, d[p].at);
      var j :| 0 <= j < |obs| && obs[j].at == d[p].at;
    }
  }

  /** Adjacent windows of whole seconds add up. */
  lemma UnitSecondsAdditive(obs: seq<Observation>, a: int, b: int, c: int)
    requires a <= b <= c && WholeSeconds(obs, a, b) && WholeSeconds(obs, b, c)
    requires UnitSeconds(obs, a, c) < MAX
    ensures UnitSeconds(obs, a, c) == UnitSeconds(obs, a, b) + UnitSeconds(obs, b, c)
  {
    IntegralAdditive(obs, a, b, c);
    WholeIntegral(obs, a, b);
    WholeIntegral(obs, b, c);
  }

  /** Consumption one second at a time: the rate of the observation in force as each second begins. */
  function PerSecond(obs: seq<Observation>, s: int, e: int): nat
    requires s % SECOND == 0 && e % SECOND == 0
    decreases e - s
  {
    if s >= e then 0 else PerSecond(obs, s, e - SECOND) + RateAt(obs, e - SECOND)
  }

  /** With whole-second times the exact integral is the per-second sum. */
  lemma {:induction false} WholeIntegral(obs: seq<Observation>, s: int, e: int)
    requires s <= e && WholeSeconds(obs, s, e)
    ensures Integral(obs, s, e) == SECOND * PerSecond(obs, s, e)
    ensures e - s <= MAX ==> UnitSeconds(obs, s, e) == Min(PerSecond(obs, s, e), MAX)
    decreases e - s
  {
    if s < e {
      var b := e - SECOND;
      WholeIntegral(obs, s, b);
      IntegralAdditive(obs, s, b, e);
      forall t | b <= t < e ensures RateAt(obs, t) == RateAt(obs, b) {
        SecondReading(obs, b, t);
      }
      IntegralConstant(obs, b, b, e, RateAt(obs, b));
    }
  }

  lemma NextSecond(b: int, x: int)
    requires b % SECOND == 0 && x % SECOND == 0 && b < x
    ensures b + SECOND <= x
  {}

  lemma SecondReading(obs: seq<Observation>, b: int, t: int)
    requires b % SECOND == 0 && b <= t < b + SECOND
    requires forall j | 0 <= j < |obs| :: obs[j].at % SECOND == 0
    ensures RateAt(obs, t) == RateAt(obs, b)
  {
    forall j | 0 <= j < |obs| ensures obs[j].at <= t <==> obs[j].at <= b {
      if obs[j].at > b {
        NextSecond(b, obs[j].at);
      }
    }
    assert Latest(obs, t) == Latest(obs, b);
  }
}

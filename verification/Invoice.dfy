/** Invoice preview: the ledger of a period grouped into lines, the included allowance drawn down line by
    line, every line rated on its own. */
module Invoice {
  import opened Int64
  import opened Rating
  import opened Ledger
  import Order

  datatype LineKey = LineKey(resourceType: string, resourceId: string, meter: string, kind: Kind)

  datatype Line = Line(key: LineKey, quantity: int, billable: int, amount: int)

  datatype Tariff = Tariff(prices: map<string, Price>, included: map<string, int>) {
    predicate Valid() {
      && (forall m | m in prices :: prices[m].Valid())
      && (forall m | m in included :: 0 <= included[m] <= MAX)
    }

    function Allowance(meter: string): int {
      if meter in included then included[meter] else 0
    }

    /** The exact amount of a billable quantity, before any range check. */
    function Charge(meter: string, billable: int): int
      requires Valid()
    {
      if meter in prices then Round(billable * prices[meter].minorUnits, prices[meter].perQuantity) else 0
    }
  }

  datatype Preview = Preview(lines: seq<Line>, total: int) | Overflowed

  // ---------------------------------------------------------------- line order

  function KindRank(k: Kind): nat {
    match k
    case Correction => 0
    case Credit => 1
    case Standard => 2
  }

  predicate KeyLess(a: LineKey, b: LineKey) {
    if a.resourceType != b.resourceType then Order.Less(a.resourceType, b.resourceType)
    else if a.resourceId != b.resourceId then Order.Less(a.resourceId, b.resourceId)
    else if a.meter != b.meter then Order.Less(a.meter, b.meter)
    else KindRank(a.kind) < KindRank(b.kind)
  }

  lemma KeyTotal(a: LineKey, b: LineKey)
    ensures KeyLess(a, b) || a == b || KeyLess(b, a)
    ensures !(KeyLess(a, b) && KeyLess(b, a)) && !KeyLess(a, a)
  {
    Order.Total(a.resourceType, b.resourceType);
    Order.Total(a.resourceId, b.resourceId);
    Order.Total(a.meter, b.meter);
    Asymmetric(a.resourceType, b.resourceType);
    Asymmetric(a.resourceId, b.resourceId);
    Asymmetric(a.meter, b.meter);
  }

  lemma Asymmetric(a: string, b: string)
    ensures !(Order.Less(a, b) && Order.Less(b, a))
  {
    if Order.Less(a, b) && Order.Less(b, a) {
      Order.Transitive(a, b, a);
      Order.Irreflexive(a);
    }
  }

  lemma KeyTransitive(a: LineKey, b: LineKey, c: LineKey)
    requires KeyLess(a, b) && KeyLess(b, c)
    ensures KeyLess(a, c)
  {
    if a.resourceType != b.resourceType && b.resourceType != c.resourceType {
      Order.Transitive(a.resourceType, b.resourceType, c.resourceType);
    } else if a.resourceType == b.resourceType == c.resourceType {
      if a.resourceId != b.resourceId && b.resourceId != c.resourceId {
        Order.Transitive(a.resourceId, b.resourceId, c.resourceId);
      } else if a.resourceId == b.resourceId == c.resourceId && a.meter != b.meter && b.meter != c.meter {
        Order.Transitive(a.meter, b.meter, c.meter);
      }
    }
    Asymmetric(a.resourceType, b.resourceType);
    Asymmetric(a.resourceId, b.resourceId);
    Asymmetric(a.meter, b.meter);
  }

  ghost predicate Ordered(keys: seq<LineKey>) {
    forall i, j | 0 <= i < j < |keys| :: KeyLess(keys[i], keys[j])
  }

  lemma OrderedHead(keys: seq<LineKey>, k: LineKey)
    requires Ordered(keys) && k in keys
    requires forall x | x in keys :: x == k || KeyLess(k, x)
    ensures keys[0] == k
  {
    var i :| 0 <= i < |keys| && keys[i] == k;
    if i > 0 {
      KeyTotal(keys[0], k);
      assert keys[0] in keys;
    }
  }

  /** A set of keys has only one ordered listing, so the map's iteration order cannot show. */
  lemma {:induction false} OrderedUnique(a: seq<LineKey>, b: seq<LineKey>)
    requires Ordered(a) && Ordered(b)
    requires forall k :: k in a <==> k in b
    ensures a == b
  {
    assert b != [] ==> exists k :: k in b by {
      if b != [] {
        assert b[0] in b;
      }
    }
    if a != [] {
      assert a[0] in b;
      forall x | x in b ensures x == a[0] || KeyLess(a[0], x) {
        assert x in a;
      }
      OrderedHead(b, a[0]);
      forall k ensures k in a[1..] <==> k in b[1..] {
        KeyTotal(a[0], a[0]);
        assert k in a <==> k == a[0] || k in a[1..];
        assert k in b <==> k == b[0] || k in b[1..];
      }
      OrderedUnique(a[1..], b[1..]);
    }
  }

  // ---------------------------------------------------------------- grouping

  function KeyOf(e: Event): LineKey {
    LineKey(e.resourceType, e.resourceId, e.meter, e.kind)
  }

  function Total(usage: seq<Event>, k: LineKey): int {
    if usage == [] then 0
    else
      var n := |usage| - 1;
      Total(usage[..n], k) + if KeyOf(usage[n]) == k then usage[n].quantity else 0
  }

  /** A selection of the ledger: everything, or one meter's standard usage. */
  datatype Selection = Everything | StandardOf(meter: string) {
    predicate Has(k: LineKey) {
      Everything? || (k.meter == meter && k.kind == Standard)
    }
  }

  function LedgerTotal(usage: seq<Event>, sel: Selection): int {
    if usage == [] then 0
    else
      var n := |usage| - 1;
      LedgerTotal(usage[..n], sel) + if sel.Has(KeyOf(usage[n])) then usage[n].quantity else 0
  }

  function KeysTotal(keys: seq<LineKey>, usage: seq<Event>, sel: Selection): int {
    if keys == [] then 0
    else
      var n := |keys| - 1;
      KeysTotal(keys[..n], usage, sel) + if sel.Has(keys[n]) then Total(usage, keys[n]) else 0
  }

  lemma {:induction false} OneEvent(keys: seq<LineKey>, usage: seq<Event>, sel: Selection)
    requires usage != [] && Ordered(keys)
    ensures var n := |usage| - 1;
      KeysTotal(keys, usage, sel) == KeysTotal(keys, usage[..n], sel) +
        if KeyOf(usage[n]) in keys && sel.Has(KeyOf(usage[n])) then usage[n].quantity else 0
  {
    if keys != [] {
      var m, n := |keys| - 1, |usage| - 1;
      OneEvent(keys[..m], usage, sel);
      KeyTotal(keys[m], keys[m]);
      assert keys[m] !in keys[..m];
      assert KeyOf(usage[n]) in keys <==> KeyOf(usage[n]) == keys[m] || KeyOf(usage[n]) in keys[..m];
    }
  }

  /** Grouping by line loses and invents nothing. */
  lemma {:induction false} GroupingConserves(keys: seq<LineKey>, usage: seq<Event>, sel: Selection)
    requires Ordered(keys) && forall e | e in usage :: KeyOf(e) in keys
    ensures KeysTotal(keys, usage, sel) == LedgerTotal(usage, sel)
  {
    if usage == [] {
      NothingUsed(keys, sel);
    } else {
      var n := |usage| - 1;
      assert usage[n] in usage;
      forall e | e in usage[..n] ensures KeyOf(e) in keys {
        assert e in usage;
      }
      GroupingConserves(keys, usage[..n], sel);
      OneEvent(keys, usage, sel);
    }
  }

  lemma {:induction false} NothingUsed(keys: seq<LineKey>, sel: Selection)
    ensures KeysTotal(keys, [], sel) == 0
  {
    if keys != [] {
      NothingUsed(keys[..|keys| - 1], sel);
    }
  }

  // ---------------------------------------------------------------- what a preview is

  function LineKeys(lines: seq<Line>): (keys: seq<LineKey>)
    ensures |keys| == |lines|
    ensures forall i | 0 <= i < |lines| :: keys[i] == lines[i].key
  {
    seq(|lines|, i requires 0 <= i < |lines| => lines[i].key)
  }

  function LineTotal(lines: seq<Line>): int {
    if lines == [] then 0 else LineTotal(lines[..|lines| - 1]) + lines[|lines| - 1].amount
  }

  function QuantityTotal(lines: seq<Line>): int {
    if lines == [] then 0 else QuantityTotal(lines[..|lines| - 1]) + lines[|lines| - 1].quantity
  }

  /** Positive standard usage of a meter on these lines: what draws the allowance down. */
  function StandardUse(lines: seq<Line>, meter: string): nat {
    if lines == [] then 0
    else
      var l := lines[|lines| - 1];
      StandardUse(lines[..|lines| - 1], meter) +
        if l.key.meter == meter && l.key.kind == Standard && l.quantity > 0 then l.quantity else 0
  }

  function BillableUse(lines: seq<Line>, meter: string): int {
    if lines == [] then 0
    else
      var l := lines[|lines| - 1];
      BillableUse(lines[..|lines| - 1], meter) + if l.key.meter == meter && l.key.kind == Standard then l.billable else 0
  }

  /** The next line given the ones before it: its own total, less the allowance nobody has used yet. */
  predicate Follows(usage: seq<Event>, tariff: Tariff, before: seq<Line>, l: Line)
    requires tariff.Valid()
  {
    && l.quantity == Total(usage, l.key)
    && l.billable == (
      if l.key.kind == Standard && l.quantity > 0
      then l.quantity - Min(l.quantity, Max(0, tariff.Allowance(l.key.meter) - StandardUse(before, l.key.meter)))
      else l.quantity)
    && l.amount == tariff.Charge(l.key.meter, l.billable)
  }

  /** The lines of the smallest keys, in order, each exactly as it must be. */
  ghost predicate IsBill(usage: seq<Event>, tariff: Tariff, lines: seq<Line>)
    requires tariff.Valid()
  {
    && Ordered(LineKeys(lines))
    && (forall i | 0 <= i < |lines| :: exists e | e in usage :: KeyOf(e) == lines[i].key)
    && AllFollow(usage, tariff, lines)
  }

  ghost predicate IsComplete(usage: seq<Event>, lines: seq<Line>) {
    forall e | e in usage :: KeyOf(e) in LineKeys(lines)
  }

  /** The preview is determined by the ledger and the tariff alone. */
  lemma {:induction false} BillUnique(usage: seq<Event>, tariff: Tariff, a: seq<Line>, b: seq<Line>)
    requires tariff.Valid() && IsBill(usage, tariff, a) && IsBill(usage, tariff, b)
    requires IsComplete(usage, a) && IsComplete(usage, b)
    ensures a == b
  {
    BillKeys(usage, tariff, a);
    BillKeys(usage, tariff, b);
    OrderedUnique(LineKeys(a), LineKeys(b));
    SameLines(usage, tariff, a, b, |a|);
  }

  lemma BillKeys(usage: seq<Event>, tariff: Tariff, lines: seq<Line>)
    requires tariff.Valid() && IsBill(usage, tariff, lines) && IsComplete(usage, lines)
    ensures forall k :: k in LineKeys(lines) <==> exists e :: e in usage && KeyOf(e) == k
  {
    forall k | k in LineKeys(lines) ensures exists e :: e in usage && KeyOf(e) == k {
      var i :| 0 <= i < |LineKeys(lines)| && LineKeys(lines)[i] == k;
    }
  }

  /** The lines before it and its key determine a line. */
  lemma SameLine(usage: seq<Event>, tariff: Tariff, before: seq<Line>, x: Line, y: Line)
    requires tariff.Valid() && Follows(usage, tariff, before, x) && Follows(usage, tariff, before, y) && x.key == y.key
    ensures x == y
  {}

  lemma {:induction false} SameLines(usage: seq<Event>, tariff: Tariff, a: seq<Line>, b: seq<Line>, n: nat)
    requires tariff.Valid() && IsBill(usage, tariff, a) && IsBill(usage, tariff, b)
    requires LineKeys(a) == LineKeys(b) && n <= |a|
    ensures |a| == |b| && a[..n] == b[..n]
  {
    hide Follows;
    assert |LineKeys(a)| == |LineKeys(b)|;
    if n > 0 {
      SameLines(usage, tariff, a, b, n - 1);
      assert LineKeys(a)[n - 1] == LineKeys(b)[n - 1];
      assert Follows(usage, tariff, a[..n - 1], a[n - 1]) && Follows(usage, tariff, b[..n - 1], b[n - 1]);
      SameLine(usage, tariff, a[..n - 1], a[n - 1], b[n - 1]);
      assert a[..n] == a[..n - 1] + [a[n - 1]] && b[..n] == b[..n - 1] + [b[n - 1]];
    }
  }

  /** Line quantities add up to the ledger. */
  lemma InvoiceConserves(usage: seq<Event>, tariff: Tariff, lines: seq<Line>)
    requires tariff.Valid() && IsBill(usage, tariff, lines) && IsComplete(usage, lines)
    ensures QuantityTotal(lines) == LedgerTotal(usage, Everything)
  {
    GroupingConserves(LineKeys(lines), usage, Everything);
    KeysAreLines(usage, tariff, lines);
  }

  /** Every line of a bill, also of a bill cut short. */
  ghost predicate AllFollow(usage: seq<Event>, tariff: Tariff, lines: seq<Line>)
    requires tariff.Valid()
  {
    forall i {:trigger Follows(usage, tariff, lines[..i], lines[i])} | 0 <= i < |lines| :: Follows(usage, tariff, lines[..i], lines[i])
  }

  lemma PrefixFollows(usage: seq<Event>, tariff: Tariff, lines: seq<Line>)
    requires tariff.Valid() && AllFollow(usage, tariff, lines) && lines != []
    ensures AllFollow(usage, tariff, lines[..|lines| - 1])
    ensures Follows(usage, tariff, lines[..|lines| - 1], lines[|lines| - 1])
    ensures LineKeys(lines)[..|lines| - 1] == LineKeys(lines[..|lines| - 1])
  {
    var n := |lines| - 1;
    forall i | 0 <= i < n ensures Follows(usage, tariff, lines[..n][..i], lines[..n][i]) {
      assert lines[..n][..i] == lines[..i];
    }
  }

  lemma {:induction false} KeysAreLines(usage: seq<Event>, tariff: Tariff, lines: seq<Line>)
    requires tariff.Valid() && AllFollow(usage, tariff, lines)
    ensures QuantityTotal(lines) == KeysTotal(LineKeys(lines), usage, Everything)
  {
    if lines != [] {
      PrefixFollows(usage, tariff, lines);
      KeysAreLines(usage, tariff, lines[..|lines| - 1]);
    }
  }

  ghost predicate NoNegativeStandard(usage: seq<Event>) {
    forall e | e in usage && e.kind == Standard :: e.quantity >= 0
  }

  lemma {:induction false} StandardLines(usage: seq<Event>, tariff: Tariff, lines: seq<Line>, meter: string)
    requires tariff.Valid() && AllFollow(usage, tariff, lines) && NoNegativeStandard(usage)
    ensures StandardUse(lines, meter) == KeysTotal(LineKeys(lines), usage, StandardOf(meter))
  {
    if lines != [] {
      PrefixFollows(usage, tariff, lines);
      StandardLines(usage, tariff, lines[..|lines| - 1], meter);
      StandardNonNegative(usage, lines[|lines| - 1].key);
    }
  }

  lemma {:induction false} StandardNonNegative(usage: seq<Event>, k: LineKey)
    requires NoNegativeStandard(usage)
    ensures k.kind == Standard ==> Total(usage, k) >= 0
  {
    if usage != [] {
      var n := |usage| - 1;
      assert usage[n] in usage;
      StandardNonNegative(usage[..n], k);
    }
  }

  /** However the lines share it, the allowance is used up before anything is billed: a meter's billable standard
      usage is what exceeds the allowance. */
  lemma AllowanceFirst(usage: seq<Event>, tariff: Tariff, lines: seq<Line>, meter: string)
    requires tariff.Valid() && IsBill(usage, tariff, lines) && IsComplete(usage, lines)
    requires NoNegativeStandard(usage)
    ensures BillableUse(lines, meter) == Max(0, LedgerTotal(usage, StandardOf(meter)) - tariff.Allowance(meter))
  {
    GroupingConserves(LineKeys(lines), usage, StandardOf(meter));
    StandardLines(usage, tariff, lines, meter);
    DrawDown(usage, tariff, lines, meter);
  }

  lemma {:induction false} DrawDown(usage: seq<Event>, tariff: Tariff, lines: seq<Line>, meter: string)
    requires tariff.Valid() && AllFollow(usage, tariff, lines) && NoNegativeStandard(usage)
    ensures BillableUse(lines, meter) == Max(0, StandardUse(lines, meter) - tariff.Allowance(meter))
  {
    if lines != [] {
      PrefixFollows(usage, tariff, lines);
      DrawDown(usage, tariff, lines[..|lines| - 1], meter);
      StandardNonNegative(usage, lines[|lines| - 1].key);
    }
  }

  // ---------------------------------------------------------------- lines and totals, written out

  function KindName(k: Kind): string {
    match k
    case Standard => "STANDARD"
    case Credit => "CREDIT"
    case Correction => "CORRECTION"
  }

  /** Lines are listed by resource type, then resource, then meter, then the name of the kind. */
  lemma KeyOrder(a: LineKey, b: LineKey)
    ensures KeyLess(a, b) <==>
      || Order.Less(a.resourceType, b.resourceType)
      || (a.resourceType == b.resourceType && Order.Less(a.resourceId, b.resourceId))
      || (a.resourceType == b.resourceType && a.resourceId == b.resourceId && Order.Less(a.meter, b.meter))
      || (a.resourceType == b.resourceType && a.resourceId == b.resourceId && a.meter == b.meter
          && Order.Less(KindName(a.kind), KindName(b.kind)))
  {
    Order.Irreflexive(a.resourceType);
    Order.Irreflexive(a.resourceId);
    Order.Irreflexive(a.meter);
    KindOrder(a.kind, b.kind);
  }

  lemma KindOrder(a: Kind, b: Kind)
    ensures Order.Less(KindName(a), KindName(b)) <==> KindRank(a) < KindRank(b)
  {
    assert "CORRECTION"[1..] == "ORRECTION" && "CREDIT"[1..] == "REDIT" && "STANDARD"[0] == 'S';
    Order.Irreflexive(KindName(a));
  }

  /** A line's quantity is the sum of the usage of its resource type, resource, meter and kind; a selection's likewise. */
  lemma TotalsExactly(usage: seq<Event>, e: Event, k: LineKey, meter: string)
    ensures Total([], k) == 0 && LedgerTotal([], Everything) == 0 && LedgerTotal([], StandardOf(meter)) == 0
    ensures Total(usage + [e], k) == Total(usage, k) +
      if e.resourceType == k.resourceType && e.resourceId == k.resourceId && e.meter == k.meter && e.kind == k.kind then e.quantity else 0
    ensures LedgerTotal(usage + [e], Everything) == LedgerTotal(usage, Everything) + e.quantity
    ensures LedgerTotal(usage + [e], StandardOf(meter)) == LedgerTotal(usage, StandardOf(meter)) +
      if e.meter == meter && e.kind == Standard then e.quantity else 0
  {
    assert (usage + [e])[..|usage|] == usage;
  }

  /** The amount due is the sum over the lines. */
  lemma AmountsAddUp(lines: seq<Line>, l: Line)
    ensures LineTotal([]) == 0 && QuantityTotal([]) == 0
    ensures LineTotal(lines + [l]) == LineTotal(lines) + l.amount
    ensures QuantityTotal(lines + [l]) == QuantityTotal(lines) + l.quantity
  {
    assert (lines + [l])[..|lines|] == lines;
  }

  /** Every line of a bill: all the usage of its key; in full unless it is positive standard usage, which the allowance that
      earlier lines of its meter left over reduces; and the nearest amount to its price, nothing without one. */
  lemma LinesExactly(usage: seq<Event>, tariff: Tariff, lines: seq<Line>, i: nat)
    requires tariff.Valid() && IsBill(usage, tariff, lines) && i < |lines|
    ensures var l := lines[i];
      && l.quantity == Total(usage, l.key)
      && (l.key.kind != Standard || l.quantity <= 0 ==> l.billable == l.quantity)
      && (l.key.meter !in tariff.prices ==> l.amount == 0)
      && (l.key.meter in tariff.prices ==>
            IsNearest(l.amount, l.billable * tariff.prices[l.key.meter].minorUnits, tariff.prices[l.key.meter].perQuantity))
  {
    assert Follows(usage, tariff, lines[..i], lines[i]);
  }

  /** After any number of lines a meter's billed standard usage is what exceeds the allowance so far. */
  lemma {:induction false} AllowanceInOrder(usage: seq<Event>, tariff: Tariff, lines: seq<Line>, i: nat, meter: string)
    requires tariff.Valid() && AllFollow(usage, tariff, lines) && NoNegativeStandard(usage) && i <= |lines|
    ensures var allowance := if meter in tariff.included then tariff.included[meter] else 0;
      var used := StandardUse(lines[..i], meter);
      BillableUse(lines[..i], meter) == if used > allowance then used - allowance else 0
    decreases |lines|
  {
    if i == |lines| {
      assert lines[..i] == lines;
      DrawDown(usage, tariff, lines, meter);
    } else {
      PrefixFollows(usage, tariff, lines);
      assert lines[..|lines| - 1][..i] == lines[..i];
      AllowanceInOrder(usage, tariff, lines[..|lines| - 1], i, meter);
    }
  }

  /** What counts as a meter's standard and billed usage, line by line. */
  lemma UseAddsUp(lines: seq<Line>, l: Line, meter: string)
    ensures StandardUse([], meter) == 0 && BillableUse([], meter) == 0
    ensures StandardUse(lines + [l], meter) == StandardUse(lines, meter) +
      if l.key.meter == meter && l.key.kind == Standard && l.quantity > 0 then l.quantity else 0
    ensures BillableUse(lines + [l], meter) == BillableUse(lines, meter) +
      if l.key.meter == meter && l.key.kind == Standard then l.billable else 0
  {
    assert (lines + [l])[..|lines|] == lines;
  }

  // ---------------------------------------------------------------- rounding drift of one meter

  function MeterAmount(lines: seq<Line>, meter: string): int {
    if lines == [] then 0
    else MeterAmount(lines[..|lines| - 1], meter) + if lines[|lines| - 1].key.meter == meter then lines[|lines| - 1].amount else 0
  }

  function MeterBillable(lines: seq<Line>, meter: string): int {
    if lines == [] then 0
    else MeterBillable(lines[..|lines| - 1], meter) + if lines[|lines| - 1].key.meter == meter then lines[|lines| - 1].billable else 0
  }

  function MeterLines(lines: seq<Line>, meter: string): nat {
    if lines == [] then 0
    else MeterLines(lines[..|lines| - 1], meter) + if lines[|lines| - 1].key.meter == meter then 1 else 0
  }

  /** A meter's invoiced amount is within half a minor unit a line of the exact price of all it bills. */
  lemma {:induction false} MeterWithinHalfUnit(usage: seq<Event>, tariff: Tariff, lines: seq<Line>, meter: string)
    requires tariff.Valid() && AllFollow(usage, tariff, lines) && meter in tariff.prices
    ensures var p := tariff.prices[meter];
      2 * Abs(MeterAmount(lines, meter) * p.perQuantity - MeterBillable(lines, meter) * p.minorUnits)
        <= MeterLines(lines, meter) * p.perQuantity
  {
    if lines != [] {
      var before, l, p := lines[..|lines| - 1], lines[|lines| - 1], tariff.prices[meter];
      PrefixFollows(usage, tariff, lines);
      MeterWithinHalfUnit(usage, tariff, before, meter);
      if l.key.meter == meter {
        OneMoreLine(MeterAmount(before, meter), MeterBillable(before, meter), MeterLines(before, meter),
          l.amount, l.billable, p.perQuantity, p.minorUnits);
      }
    }
  }

  // ---------------------------------------------------------------- the service

  method SortKeys(s: set<LineKey>) returns (keys: seq<LineKey>)
    ensures Ordered(keys) && forall k :: k in keys <==> k in s
  {
    keys := [];
    var rest := s;
    while rest != {}
      invariant rest <= s && Ordered(keys)
      invariant forall k :: k in keys <==> k in s - rest
      decreases |rest|
    {
      var k :| k in rest;
      keys := InsertKey(k, keys);
      rest := rest - {k};
    }
  }

  method InsertKey(k: LineKey, keys: seq<LineKey>) returns (out: seq<LineKey>)
    requires Ordered(keys) && k !in keys
    ensures Ordered(out) && forall x :: x in out <==> x == k || x in keys
  {
    var p := 0;
    while p < |keys| && KeyLess(keys[p], k)
      invariant 0 <= p <= |keys|
      invariant forall q | 0 <= q < p :: KeyLess(keys[q], k)
    {
      p := p + 1;
    }
    out := keys[..p] + [k] + keys[p..];
    forall q | p <= q < |keys| ensures KeyLess(k, keys[q]) {
      KeyTotal(keys[p], k);
      if q > p {
        KeyTransitive(k, keys[p], keys[q]);
      }
    }
    assert keys == keys[..p] + keys[p..];
  }

  /** Quantities of the ledger grouped by line; None reports a sum that left the 64-bit range. */
  method Group(usage: seq<Event>) returns (quantities: Option<map<LineKey, int>>)
    requires forall e | e in usage :: Fits(e.quantity)
    ensures quantities.Some? ==> forall k :: k in quantities.value <==> exists e :: e in usage && KeyOf(e) == k
    ensures quantities.Some? ==> forall k | k in quantities.value ::
      quantities.value[k] == Total(usage, k) && Fits(quantities.value[k])
    ensures quantities.None? ==> exists n, k :: 0 <= n <= |usage| && !Fits(Total(usage[..n], k))
  {
    var m: map<LineKey, int> := map[];
    for n := 0 to |usage|
      invariant forall k :: k in m <==> exists e :: e in usage[..n] && KeyOf(e) == k
      invariant forall k | k in m :: m[k] == Total(usage[..n], k) && Fits(m[k])
      invariant forall k | k !in m :: Total(usage[..n], k) == 0
    {
      var e := usage[n];
      assert usage[..n + 1] == usage[..n] + [e];
      assert usage[..n + 1][..n] == usage[..n];
      var k := KeyOf(e);
      var next := SafeAdd(if k in m then m[k] else 0, e.quantity);
      if next.None? {
        assert !Fits(Total(usage[..n + 1], k));
        return None;
      }
      m := m[k := next.value];
    }
    assert usage[..|usage|] == usage;
    return Some(m);
  }

  /** Allowance left for a meter after some lines. */
  ghost predicate Left(remaining: map<string, int>, tariff: Tariff, lines: seq<Line>)
    requires tariff.Valid()
  {
    && remaining.Keys == tariff.included.Keys
    && forall m | m in remaining :: remaining[m] == Max(0, tariff.included[m] - StandardUse(lines, m))
  }

  /** One line of the billing loop. */
  method BillLine(usage: seq<Event>, tariff: Tariff, k: LineKey, q: int, remaining: map<string, int>, ghost lines: seq<Line>)
    returns (line: Line, remaining': map<string, int>, rated: Rated)
    requires tariff.Valid() && Fits(q) && q == Total(usage, k)
    requires Left(remaining, tariff, lines)
    ensures Follows(usage, tariff, lines, line) && line.key == k
    ensures Left(remaining', tariff, lines + [line])
    ensures rated.Amount? <==> Fits(line.amount)
    ensures rated.Amount? ==> rated.value == line.amount
  {
    var billable := q;
    remaining' := remaining;
    if k.kind == Standard && q > 0 {
      var allowance := if k.meter in remaining then remaining[k.meter] else 0;
      if allowance > 0 {
        var used := Min(q, allowance);
        billable := q - used;
        remaining' := remaining[k.meter := remaining[k.meter] - used];
      }
    }
    rated := Amount(0);
    if k.meter in tariff.prices {
      rated := RateQuantity(billable, tariff.prices[k.meter]);
    }
    line := Line(k, q, billable, tariff.Charge(k.meter, billable));
    if k.meter in tariff.prices {
      var p := tariff.prices[k.meter];
      RatedIsCharge(billable, p);
    }
    assert (lines + [line])[..|lines|] == lines;
  }

  lemma RatedIsCharge(billable: int, p: Price)
    requires p.Valid()
    ensures var r := RateQuantity(billable, p); var c := Round(billable * p.minorUnits, p.perQuantity);
      (r.Amount? <==> Fits(c)) && (r.Amount? ==> r.value == c)
  {}

  /** Adding the next key's line to a bill. */
  lemma BillGrows(usage: seq<Event>, tariff: Tariff, keys: seq<LineKey>, lines: seq<Line>, line: Line)
    requires tariff.Valid() && IsBill(usage, tariff, lines) && Ordered(keys)
    requires |lines| < |keys| && LineKeys(lines) == keys[..|lines|] && line.key == keys[|lines|]
    requires exists e :: e in usage && KeyOf(e) == line.key
    requires Follows(usage, tariff, lines, line)
    ensures IsBill(usage, tariff, lines + [line])
    ensures LineKeys(lines + [line]) == keys[..|lines| + 1]
  {
    var grown := lines + [line];
    forall i | 0 <= i < |grown| ensures Follows(usage, tariff, grown[..i], grown[i]) {
      assert i <= |lines| && grown[..i] == lines[..i];
      if i == |lines| {
        assert lines[..i] == lines;
      }
    }
    assert LineKeys(grown) == LineKeys(lines) + [line.key];
  }

  /** Some ledger sum, some line or some running total does not fit in 64 bits. */
  ghost predicate OutOfRange(usage: seq<Event>, tariff: Tariff)
    requires tariff.Valid()
  {
    || (exists n, k :: 0 <= n <= |usage| && !Fits(Total(usage[..n], k)))
    || (exists lines: seq<Line> :: lines != [] && IsBill(usage, tariff, lines)
          && !(Fits(lines[|lines| - 1].amount) && Fits(LineTotal(lines))))
  }

  lemma Overflows(usage: seq<Event>, tariff: Tariff, lines: seq<Line>)
    requires tariff.Valid() && lines != [] && IsBill(usage, tariff, lines)
    requires !(Fits(lines[|lines| - 1].amount) && Fits(LineTotal(lines)))
    ensures OutOfRange(usage, tariff)
  {}

  /** The next key's line: its amount and the running total must fit. */
  method AddLine(usage: seq<Event>, tariff: Tariff, keys: seq<LineKey>, q: int, remaining: map<string, int>, total: int, lines: seq<Line>)
    returns (fits: bool, remaining': map<string, int>, total': int, lines': seq<Line>)
    requires tariff.Valid() && Ordered(keys) && |lines| < |keys| && LineKeys(lines) == keys[..|lines|]
    requires q == Total(usage, keys[|lines|]) && Fits(q) && exists e :: e in usage && KeyOf(e) == keys[|lines|]
    requires IsBill(usage, tariff, lines) && Left(remaining, tariff, lines) && total == LineTotal(lines) && Fits(total)
    ensures !fits ==> OutOfRange(usage, tariff)
    ensures fits ==>
              && IsBill(usage, tariff, lines') && Left(remaining', tariff, lines') && total' == LineTotal(lines') && Fits(total')
              && |lines'| == |lines| + 1 && lines'[..|lines|] == lines && LineKeys(lines') == keys[..|lines'|]
              && Fits(lines'[|lines|].amount) && Fits(lines'[|lines|].quantity)
  {
    hide IsBill, Left, OutOfRange;
    var line, left, rated := BillLine(usage, tariff, keys[|lines|], q, remaining, lines);
    BillGrows(usage, tariff, keys, lines, line);
    fits, remaining', total', lines' := false, left, total, lines + [line];
    assert lines'[..|lines|] == lines && LineTotal(lines') == total + line.amount;
    if rated.Failed? {
      Overflows(usage, tariff, lines');
      return;
    }
    var next := SafeAdd(total, rated.value);
    if next.None? {
      Overflows(usage, tariff, lines');
      return;
    }
    fits, total' := true, next.value;
  }

  method PreviewInvoice(usage: seq<Event>, tariff: Tariff) returns (preview: Preview)
    requires tariff.Valid() && forall e | e in usage :: Fits(e.quantity)
    ensures preview.Preview? ==> IsBill(usage, tariff, preview.lines) && IsComplete(usage, preview.lines)
    ensures preview.Preview? ==> preview.total == LineTotal(preview.lines) && Fits(preview.total)
    ensures preview.Preview? ==> forall l | l in preview.lines :: Fits(l.amount) && Fits(l.quantity)
    ensures preview.Overflowed? ==> OutOfRange(usage, tariff)
  {
    var grouped := Group(usage);
    if grouped.None? {
      return Overflowed;
    }
    var quantities := grouped.value;
    var keys := SortKeys(quantities.Keys);
    var remaining := tariff.included;
    var total := 0;
    var lines: seq<Line> := [];
    assert IsBill(usage, tariff, lines) && Left(remaining, tariff, lines);
    hide IsBill, Left, OutOfRange;
    for i := 0 to |keys|
      invariant |lines| == i && LineKeys(lines) == keys[..i]
      invariant IsBill(usage, tariff, lines) && Left(remaining, tariff, lines)
      invariant total == LineTotal(lines) && Fits(total)
      invariant forall j | 0 <= j < i :: Fits(lines[j].amount) && Fits(lines[j].quantity)
    {
      assert keys[i] in quantities;
      ghost var before := lines;
      var fits;
      fits, remaining, total, lines := AddLine(usage, tariff, keys, quantities[keys[i]], remaining, total, lines);
      if !fits {
        return Overflowed;
      }
      assert forall j | 0 <= j < i :: lines[j] == before[j];
    }
    forall e | e in usage ensures KeyOf(e) in LineKeys(lines) {
      assert KeyOf(e) in quantities;
    }
    return Preview(lines, total);
  }
}

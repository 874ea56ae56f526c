/**
 The aggregated stock plan of an order and the canonical form behind a request fingerprint.
 Hashing and JSON encoding are assumed injective, so a fingerprint is its canonical line list.
 */
module StockPlan {
  import opened Base

  /** One requested line; `quantity` is a Go `uint`, 64 bits wide. */
  datatype Line = Line(productId: string, quantity: nat)

  datatype Item = Item(productId: string, quantity: nat)

  /** What the lines ask of one product, as a mathematical sum. */
  function SumFor(lines: seq<Line>, p: string): nat {
    if lines == [] then 0
    else SumFor(lines[..|lines| - 1], p) + if lines[|lines| - 1].productId == p then lines[|lines| - 1].quantity else 0
  }

  predicate Mentions(lines: seq<Line>, p: string) {
    exists i :: 0 <= i < |lines| && lines[i].productId == p
  }

  /** No product's sum leaves int64. */
  ghost predicate Fits(lines: seq<Line>) {
    forall p: string :: SumFor(lines, p) <= MAX_INT64
  }

  predicate Ascending(plan: seq<Item>) {
    forall i, j :: 0 <= i < j < |plan| ==> Less(plan[i].productId, plan[j].productId)
  }

  /** The specification of a plan: ascending, one item per mentioned product, exact sums. */
  ghost predicate IsPlanOf(plan: seq<Item>, lines: seq<Line>) {
    && Ascending(plan)
    && (forall i :: 0 <= i < |plan| ==>
          Mentions(lines, plan[i].productId) && plan[i].quantity == SumFor(lines, plan[i].productId))
    && (forall j :: 0 <= j < |lines| ==> Covers(plan, lines[j].productId))
  }

  predicate Covers(plan: seq<Item>, p: string) {
    exists i :: 0 <= i < |plan| && plan[i].productId == p
  }

  // ---------------------------------------------------------------- uniqueness

  /** A line list has at most one plan. */
  lemma {:induction false} PlanUnique(a: seq<Item>, b: seq<Item>, lines: seq<Line>)
    requires IsPlanOf(a, lines) && IsPlanOf(b, lines)
    ensures a == b
  {
    SameAscending(a, b);
  }

  lemma HeadIsMember<T>(s: seq<T>)
    ensures s == [] || exists x :: x in s
  {
    assert s == [] || s[0] in s;
  }

  /** Two ascending lists with the same items are the same list. */
  lemma {:induction false} SameAscending(a: seq<Item>, b: seq<Item>)
    requires Ascending(a) && Ascending(b)
    requires forall x :: x in a <==> x in b
    ensures a == b
    decreases |a|
  {
    if a == [] {
      HeadIsMember(b);
    } else {
      assert a[0] in b && b != [];
      assert b[0] in a;
      if a[0] != b[0] {
        assert Less(a[0].productId, b[0].productId);
        assert Less(b[0].productId, a[0].productId);
        LessTransitive(a[0].productId, b[0].productId, a[0].productId);
        LessIrreflexive(a[0].productId);
      }
      LessIrreflexive(a[0].productId);
      forall x ensures x in a[1..] <==> x in b[1..] {
        assert x in a[1..] <==> x in a && x != a[0] by { assert a == [a[0]] + a[1..]; }
        assert x in b[1..] <==> x in b && x != b[0] by { assert b == [b[0]] + b[1..]; }
      }
      SameAscending(a[1..], b[1..]);
    }
  }

  // ------------------------------------------------ the plan as a function of the lines

  /** Adds `q` to product `p` in an ascending plan. */
  function AddTo(plan: seq<Item>, p: string, q: nat): seq<Item> {
    if plan == [] then [Item(p, q)]
    else if plan[0].productId == p then [Item(p, plan[0].quantity + q)] + plan[1..]
    else if Less(p, plan[0].productId) then [Item(p, q)] + plan
    else [plan[0]] + AddTo(plan[1..], p, q)
  }

  function PlanOf(lines: seq<Line>): seq<Item> {
    if lines == [] then []
    else AddTo(PlanOf(lines[..|lines| - 1]), lines[|lines| - 1].productId, lines[|lines| - 1].quantity)
  }

  function QuantityIn(plan: seq<Item>, p: string): nat {
    if plan == [] then 0
    else (if plan[0].productId == p then plan[0].quantity else 0) + QuantityIn(plan[1..], p)
  }

  lemma {:induction false} AddToItems(plan: seq<Item>, p: string, q: nat, x: Item)
    requires Ascending(plan)
    ensures x in AddTo(plan, p, q) <==> (x in plan && x.productId != p) || x == Item(p, QuantityIn(plan, p) + q)
    decreases |plan|
  {
    if plan != [] {
      assert plan == [plan[0]] + plan[1..];
      LessTotal(p, plan[0].productId);
      LessIrreflexive(p);
      if plan[0].productId == p {
        QuantityAbsent(plan[1..], p);
        assert forall j :: 0 < j < |plan| ==> plan[j].productId != p;
      } else if Less(p, plan[0].productId) {
        forall j | 0 <= j < |plan| ensures Less(p, plan[j].productId) {
          if j > 0 { LessTransitive(p, plan[0].productId, plan[j].productId); }
        }
        QuantityAbsent(plan, p);
      } else {
        AddToItems(plan[1..], p, q, x);
      }
    }
  }

  lemma {:induction false} AddToAscending(plan: seq<Item>, p: string, q: nat)
    requires Ascending(plan)
    ensures Ascending(AddTo(plan, p, q))
    decreases |plan|
  {
    if plan != [] {
      LessTotal(p, plan[0].productId);
      if plan[0].productId == p {
      } else if Less(p, plan[0].productId) {
        forall j | 0 <= j < |plan| ensures Less(p, plan[j].productId) {
          if j > 0 { LessTransitive(p, plan[0].productId, plan[j].productId); }
        }
      } else {
        AddToAscending(plan[1..], p, q);
        var t := AddTo(plan[1..], p, q);
        forall i | 0 <= i < |t| ensures Less(plan[0].productId, t[i].productId) {
          AddToItems(plan[1..], p, q, t[i]);
        }
      }
    }
  }

  lemma {:induction false} QuantityAbsent(plan: seq<Item>, p: string)
    requires forall j :: 0 <= j < |plan| ==> Less(p, plan[j].productId)
    ensures QuantityIn(plan, p) == 0
    decreases |plan|
  {
    if plan != [] {
      LessIrreflexive(p);
      QuantityAbsent(plan[1..], p);
    }
  }

  lemma {:induction false} QuantityAt(plan: seq<Item>, i: nat)
    requires Ascending(plan) && i < |plan|
    ensures QuantityIn(plan, plan[i].productId) == plan[i].quantity
    decreases |plan|
  {
    if i == 0 {
      QuantityAbsent(plan[1..], plan[0].productId);
    } else {
      LessIrreflexive(plan[0].productId);
      QuantityAt(plan[1..], i - 1);
    }
  }

  lemma {:induction false} QuantityNone(plan: seq<Item>, p: string)
    requires !Covers(plan, p)
    ensures QuantityIn(plan, p) == 0
    decreases |plan|
  {
    if plan != [] {
      assert plan[0].productId != p;
      forall i | 0 <= i < |plan| - 1 ensures plan[1..][i].productId != p { assert plan[i + 1].productId != p; }
      QuantityNone(plan[1..], p);
    }
  }

  /** `PlanOf` meets the specification, and its quantities are the sums for every product. */
  lemma {:induction false} PlanOfIsPlan(lines: seq<Line>)
    ensures IsPlanOf(PlanOf(lines), lines)
    ensures forall p :: QuantityIn(PlanOf(lines), p) == SumFor(lines, p)
    decreases |lines|
  {
    if lines != [] {
      var front, last := lines[..|lines| - 1], lines[|lines| - 1];
      var plan, r := PlanOf(front), PlanOf(lines);
      PlanOfIsPlan(front);
      AddToAscending(plan, last.productId, last.quantity);
      var item := Item(last.productId, QuantityIn(plan, last.productId) + last.quantity);
      forall x ensures x in r <==> (x in plan && x.productId != last.productId) || x == item {
        AddToItems(plan, last.productId, last.quantity, x);
      }
      PlanStep(lines, plan, r);
      forall p ensures QuantityIn(r, p) == SumFor(lines, p) { QuantityIsSum(r, lines, p); }
    }
  }

  lemma PlanStep(lines: seq<Line>, plan: seq<Item>, r: seq<Item>)
    requires lines != [] && Ascending(r)
    requires IsPlanOf(plan, lines[..|lines| - 1])
    requires forall p :: QuantityIn(plan, p) == SumFor(lines[..|lines| - 1], p)
    requires var last := lines[|lines| - 1];
      var item := Item(last.productId, QuantityIn(plan, last.productId) + last.quantity);
      forall x :: x in r <==> (x in plan && x.productId != last.productId) || x == item
    ensures IsPlanOf(r, lines)
  {
    var front, last := lines[..|lines| - 1], lines[|lines| - 1];
    var added := Item(last.productId, QuantityIn(plan, last.productId) + last.quantity);
    assert added in r;
    forall i | 0 <= i < |r|
      ensures Mentions(lines, r[i].productId) && r[i].quantity == SumFor(lines, r[i].productId)
    {
      assert r[i] in r;
      if r[i] == added {
        assert lines[|lines| - 1].productId == r[i].productId;
      } else {
        var k :| 0 <= k < |plan| && plan[k] == r[i];
        var j :| 0 <= j < |front| && front[j].productId == r[i].productId;
        assert lines[j].productId == r[i].productId;
      }
    }
    forall j | 0 <= j < |lines| ensures Covers(r, lines[j].productId) {
      if lines[j].productId == last.productId {
        var k :| 0 <= k < |r| && r[k] == added;
      } else {
        assert Covers(plan, front[j].productId);
        var k :| 0 <= k < |plan| && plan[k].productId == lines[j].productId;
        assert plan[k] in r;
        var m :| 0 <= m < |r| && r[m] == plan[k];
      }
    }
  }

  lemma QuantityIsSum(plan: seq<Item>, lines: seq<Line>, p: string)
    requires IsPlanOf(plan, lines)
    ensures QuantityIn(plan, p) == SumFor(lines, p)
  {
    if Covers(plan, p) {
      var i :| 0 <= i < |plan| && plan[i].productId == p;
      QuantityAt(plan, i);
    } else {
      QuantityNone(plan, p);
      SumAbsent(lines, p, plan);
    }
  }

  lemma {:induction false} SumAbsent(lines: seq<Line>, p: string, plan: seq<Item>)
    requires !Covers(plan, p) && forall j :: 0 <= j < |lines| ==> Covers(plan, lines[j].productId)
    ensures SumFor(lines, p) == 0
    decreases |lines|
  {
    if lines != [] {
      assert Covers(plan, lines[|lines| - 1].productId);
      SumAbsent(lines[..|lines| - 1], p, plan);
    }
  }

  // ------------------------------------------------------- dependence on the multiset only

  lemma {:induction false} SumRemove(lines: seq<Line>, k: nat, p: string)
    requires k < |lines|
    ensures SumFor(lines, p) == SumFor(lines[..k] + lines[k + 1..], p) + if lines[k].productId == p
        then lines[k].quantity else 0
    decreases |lines|
  {
    var n := |lines| - 1;
    var rest := lines[..k] + lines[k + 1..];
    if k == n {
      assert rest == lines[..n];
    } else {
      SumRemove(lines[..n], k, p);
      assert lines[..n][..k] + lines[..n][k + 1..] == rest[..|rest| - 1];
    }
  }

  lemma MultisetWithout<T>(s: seq<T>, k: nat)
    requires k < |s|
    ensures multiset(s[..k] + s[k + 1..]) == multiset(s) - multiset{s[k]}
  {
    assert s == s[..k] + [s[k]] + s[k + 1..];
  }

  lemma MultisetMember<T>(s: seq<T>, x: T) returns (k: nat)
    requires x in multiset(s)
    ensures k < |s| && s[k] == x
  {
    k :| 0 <= k < |s| && s[k] == x;
  }

  lemma {:induction false} SumDependsOnMultiset(a: seq<Line>, b: seq<Line>, p: string)
    requires multiset(a) == multiset(b)
    ensures SumFor(a, p) == SumFor(b, p)
    decreases |a|
  {
    if a == [] {
      assert |multiset(b)| == 0;
    } else {
      var n := |a| - 1;
      var k := MultisetMember(b, a[n]);
      MultisetWithout(a, n);
      MultisetWithout(b, k);
      assert a[..n] + a[n + 1..] == a[..n];
      SumRemove(b, k, p);
      SumDependsOnMultiset(a[..n], b[..k] + b[k + 1..], p);
    }
  }

  /** Reordering the lines of a request changes neither its plan nor whether it fits. */
  lemma PlanDependsOnMultiset(a: seq<Line>, b: seq<Line>)
    requires multiset(a) == multiset(b)
    ensures PlanOf(a) == PlanOf(b) && (Fits(a) <==> Fits(b))
  {
    forall p ensures SumFor(a, p) == SumFor(b, p) { SumDependsOnMultiset(a, b, p); }
    PlanOfIsPlan(a);
    PlanOfIsPlan(b);
    var plan := PlanOf(b);
    forall i | 0 <= i < |plan| ensures Mentions(a, plan[i].productId) {
      var j :| 0 <= j < |b| && b[j].productId == plan[i].productId;
      assert b[j] in multiset(a);
      var k :| 0 <= k < |a| && a[k] == b[j];
    }
    forall j | 0 <= j < |a| ensures Covers(plan, a[j].productId) {
      assert a[j] in multiset(b);
      var k :| 0 <= k < |b| && b[k] == a[j];
    }
    PlanUnique(PlanOf(a), plan, a);
  }

  predicate PlanFits(plan: seq<Item>) {
    forall i :: 0 <= i < |plan| ==> plan[i].quantity <= MAX_INT64
  }

  /** Whether the sums fit can be read off the plan. */
  lemma PlanFitsExactly(lines: seq<Line>)
    ensures PlanFits(PlanOf(lines)) <==> Fits(lines)
  {
    var plan := PlanOf(lines);
    PlanOfIsPlan(lines);
    forall p ensures PlanFits(plan) ==> SumFor(lines, p) <= MAX_INT64 {
      assert QuantityIn(plan, p) == SumFor(lines, p);
      if Covers(plan, p) {
        var i :| 0 <= i < |plan| && plan[i].productId == p;
        QuantityAt(plan, i);
      } else {
        QuantityNone(plan, p);
      }
    }
  }

  // ------------------------------------------------------------------ the algorithm

  datatype PlanError = QuantityOverflow

  /**
   Builds the plan the way the service does: one pass fills a map of sums with overflow guards,
   the keys are sorted, and a second pass emits the items.
   */
  method StockConsumptionPlan(lines: seq<Line>) returns (r: Result<seq<Item>, PlanError>)
    ensures Fits(lines) ==> r == Ok(PlanOf(lines))
    ensures !Fits(lines) ==> r == Err(QuantityOverflow)
  {
    var quantities: map<string, int> := map[];
    for i := 0 to |lines|
      invariant Tallied(quantities, lines[..i])
    {
      var line := lines[i];
      var have := if line.productId in quantities then quantities[line.productId] else 0;
      if line.quantity > MAX_INT64 || have > MAX_INT64 - line.quantity {
        TallyOverflows(quantities, lines, i);
        return Err(QuantityOverflow);
      }
      TallyNext(quantities, lines, i);
      quantities := quantities[line.productId := have + line.quantity];
    }
    assert lines[..|lines|] == lines;
    var productIds := SortedKeys(quantities.Keys);
    var plan: seq<Item> := [];
    for i := 0 to |productIds|
      invariant |plan| == i
      invariant forall j :: 0 <= j < i ==>
                  productIds[j] in quantities && plan[j] == Item(productIds[j], quantities[productIds[j]])
    {
      assert productIds[i] in productIds;
      plan := plan + [Item(productIds[i], quantities[productIds[i]])];
    }
    TallyIsPlan(quantities, productIds, plan, lines);
    r := Ok(plan);
  }

  /** The map after a prefix of the lines: exactly the mentioned products, exactly their sums. */
  ghost predicate Tallied(quantities: map<string, int>, lines: seq<Line>) {
    && (forall p :: p in quantities <==> Mentions(lines, p))
    && (forall p :: SumFor(lines, p) == (if p in quantities then quantities[p] else 0) <= MAX_INT64)
  }

  lemma TallyNext(quantities: map<string, int>, lines: seq<Line>, i: nat)
    requires i < |lines| && Tallied(quantities, lines[..i])
    requires SumFor(lines[..i], lines[i].productId) + lines[i].quantity <= MAX_INT64
    ensures Tallied(quantities[lines[i].productId := SumFor(lines[..i], lines[i].productId) + lines[i].quantity],
        lines[..i + 1])
  {
    var next := lines[..i + 1];
    assert next[..|next| - 1] == lines[..i];
    forall p ensures Mentions(next, p) <==> Mentions(lines[..i], p) || p == lines[i].productId {
      if p == lines[i].productId { assert next[i].productId == p; }
      if Mentions(lines[..i], p) {
        var j :| 0 <= j < i && lines[..i][j].productId == p;
        assert next[j].productId == p;
      }
    }
  }

  lemma TallyOverflows(quantities: map<string, int>, lines: seq<Line>, i: nat)
    requires i < |lines| && Tallied(quantities, lines[..i])
    requires SumFor(lines[..i], lines[i].productId) + lines[i].quantity > MAX_INT64
    ensures !Fits(lines)
  {
    var next := lines[..i + 1];
    assert next[..|next| - 1] == lines[..i];
    SumMonotone(lines, i + 1, lines[i].productId);
  }

  lemma TallyIsPlan(quantities: map<string, int>, ids: seq<string>, plan: seq<Item>, lines: seq<Line>)
    requires Tallied(quantities, lines)
    requires AscendingIds(ids) && forall k :: k in quantities <==> k in ids
    requires |plan| == |ids|
    requires forall j :: 0 <= j < |ids| ==> ids[j] in quantities && plan[j] == Item(ids[j], quantities[ids[j]])
    ensures plan == PlanOf(lines) && Fits(lines)
  {
    forall j | 0 <= j < |lines| ensures Covers(plan, lines[j].productId) {
      assert Mentions(lines, lines[j].productId);
      var k :| 0 <= k < |ids| && ids[k] == lines[j].productId;
      assert plan[k].productId == lines[j].productId;
    }
    PlanOfIsPlan(lines);
    PlanUnique(plan, PlanOf(lines), lines);
  }

  lemma {:induction false} SumMonotone(lines: seq<Line>, k: nat, p: string)
    requires k <= |lines|
    ensures SumFor(lines[..k], p) <= SumFor(lines, p)
    decreases |lines|
  {
    if k == |lines| {
      assert lines[..k] == lines;
    } else {
      SumMonotone(lines[..|lines| - 1], k, p);
      assert lines[..|lines| - 1][..k] == lines[..k];
    }
  }

  predicate AscendingIds(ids: seq<string>) {
    forall i, j :: 0 <= i < j < |ids| ==> Less(ids[i], ids[j])
  }

  /** The keys of a Go map arrive in any order; sorting makes the result unique. */
  method SortedKeys(keys: set<string>) returns (ids: seq<string>)
    ensures AscendingIds(ids)
    ensures forall k :: k in keys <==> k in ids
  {
    ids := [];
    var rest := keys;
    while rest != {}
      invariant rest <= keys
      invariant AscendingIds(ids)
      invariant forall k :: k in keys - rest <==> k in ids
      decreases |rest|
    {
      var k :| k in rest;
      var at := 0;
      while at < |ids| && Less(ids[at], k)
        invariant 0 <= at <= |ids|
        invariant forall j :: 0 <= j < at ==> Less(ids[j], k)
      {
        at := at + 1;
      }
      InsertedInOrder(ids, at, k);
      ids := ids[..at] + [k] + ids[at..];
      rest := rest - {k};
    }
  }

  lemma InsertedInOrder(ids: seq<string>, at: nat, k: string)
    requires AscendingIds(ids) && at <= |ids| && k !in ids
    requires forall j :: 0 <= j < at ==> Less(ids[j], k)
    requires at < |ids| ==> !Less(ids[at], k)
    ensures var next := ids[..at] + [k] + ids[at..];
            AscendingIds(next) && forall x :: x in next <==> x in ids || x == k
  {
    forall j | at <= j < |ids| ensures Less(k, ids[j]) {
      LessTotal(ids[at], k);
      if j > at { LessTransitive(k, ids[at], ids[j]); }
    }
    InsertedMembers(ids, at, k);
    var next := ids[..at] + [k] + ids[at..];
    forall i, j | 0 <= i < j < |next| ensures Less(next[i], next[j]) { InsertedPair(ids, at, k, i, j); }
  }

  lemma InsertedMembers(ids: seq<string>, at: nat, k: string)
    requires at <= |ids|
    ensures forall x :: x in ids[..at] + [k] + ids[at..] <==> x in ids || x == k
  {
    assert ids == ids[..at] + ids[at..];
  }

  lemma InsertedPair(ids: seq<string>, at: nat, k: string, i: nat, j: nat)
    requires AscendingIds(ids) && at <= |ids| && i < j <= |ids|
    requires forall j :: 0 <= j < at ==> Less(ids[j], k)
    requires forall j :: at <= j < |ids| ==> Less(k, ids[j])
    ensures var next := ids[..at] + [k] + ids[at..]; Less(next[i], next[j])
  {
  }

  // ------------------------------------------------------------------ fingerprints

  predicate LineLess(a: Line, b: Line) {
    if a.productId == b.productId then a.quantity < b.quantity else Less(a.productId, b.productId)
  }

  predicate Sorted(lines: seq<Line>) {
    forall i, j :: 0 <= i < j < |lines| ==> !LineLess(lines[j], lines[i])
  }

  function InsertLine(sorted: seq<Line>, line: Line): (r: seq<Line>)
    ensures multiset(r) == multiset(sorted) + multiset{line}
  {
    if sorted == [] then [line]
    else if LineLess(sorted[0], line) then
      assert sorted == [sorted[0]] + sorted[1..];
      [sorted[0]] + InsertLine(sorted[1..], line)
    else [line] + sorted
  }

  /** The sorted line list that is hashed; the hash itself is assumed injective. */
  function Canonical(lines: seq<Line>): (r: seq<Line>)
    ensures multiset(r) == multiset(lines)
  {
    if lines == [] then []
    else
      assert lines == [lines[0]] + lines[1..];
      InsertLine(Canonical(lines[1..]), lines[0])
  }

  lemma LineOrder(a: Line, b: Line, c: Line)
    ensures !LineLess(a, a)
    ensures LineLess(a, b) && LineLess(b, c) ==> LineLess(a, c)
    ensures LineLess(a, b) || a == b || LineLess(b, a)
  {
    LessIrreflexive(a.productId);
    LessTotal(a.productId, b.productId);
    if Less(a.productId, b.productId) && Less(b.productId, c.productId) {
      LessTransitive(a.productId, b.productId, c.productId);
      LessIrreflexive(a.productId);
      if a.productId == c.productId { LessIrreflexive(a.productId); }
    }
  }

  lemma {:induction false} InsertSorted(sorted: seq<Line>, line: Line)
    requires Sorted(sorted)
    ensures Sorted(InsertLine(sorted, line))
    decreases |sorted|
  {
    if sorted != [] {
      var r := InsertLine(sorted, line);
      if LineLess(sorted[0], line) {
        var t := InsertLine(sorted[1..], line);
        InsertSorted(sorted[1..], line);
        forall j | 0 <= j < |t| ensures !LineLess(t[j], sorted[0]) {
          assert t[j] in multiset(t);
          assert t[j] == line || t[j] in multiset(sorted[1..]);
          LineOrder(sorted[0], line, sorted[0]);
        }
      } else {
        forall j | 0 <= j < |sorted| ensures !LineLess(sorted[j], line) {
          LineOrder(sorted[j], line, sorted[0]);
          LineOrder(line, sorted[0], sorted[j]);
          LineOrder(sorted[0], line, sorted[j]);
          LineOrder(sorted[0], sorted[j], line);
        }
      }
    }
  }

  lemma {:induction false} CanonicalSorted(lines: seq<Line>)
    ensures Sorted(Canonical(lines))
    decreases |lines|
  {
    if lines != [] {
      CanonicalSorted(lines[1..]);
      InsertSorted(Canonical(lines[1..]), lines[0]);
    }
  }

  lemma SortedHead(a: seq<Line>, b: seq<Line>)
    requires Sorted(a) && Sorted(b) && multiset(a) == multiset(b) && a != []
    ensures b != [] && a[0] == b[0]
  {
    assert a[0] in multiset(b);
    var j := MultisetMember(b, a[0]);
    assert b[0] in multiset(a);
    var i := MultisetMember(a, b[0]);
    if a[0] != b[0] {
      assert !LineLess(a[i], a[0]) && !LineLess(b[j], b[0]);
      LineOrder(a[0], b[0], a[0]);
    }
  }

  lemma SortedTail(s: seq<Line>)
    requires Sorted(s) && s != []
    ensures Sorted(s[1..]) && multiset(s[1..]) == multiset(s) - multiset{s[0]}
    ensures s == [s[0]] + s[1..]
  {
    assert s == [s[0]] + s[1..];
    forall i, j | 0 <= i < j < |s[1..]| ensures !LineLess(s[1..][j], s[1..][i]) {
      assert !LineLess(s[j + 1], s[i + 1]);
    }
  }

  /** Whatever sorting algorithm runs, the sorted arrangement of the lines is the canonical one. */
  lemma {:induction false} SortedIsUnique(a: seq<Line>, b: seq<Line>)
    requires Sorted(a) && Sorted(b) && multiset(a) == multiset(b)
    ensures a == b
    decreases |a|
  {
    if a == [] {
      assert |multiset(b)| == 0;
    } else {
      SortedHead(a, b);
      SortedTail(a);
      SortedTail(b);
      SortedIsUnique(a[1..], b[1..]);
    }
  }

  /** Equal fingerprints mean exactly: the same lines up to order. */
  lemma FingerprintEqualsMultiset(a: seq<Line>, b: seq<Line>)
    ensures Canonical(a) == Canonical(b) <==> multiset(a) == multiset(b)
  {
    if multiset(a) == multiset(b) {
      CanonicalSorted(a);
      CanonicalSorted(b);
      SortedIsUnique(Canonical(a), Canonical(b));
    }
  }

  /** A request replayed under an equal fingerprint asks for the same stock. */
  lemma EqualFingerprintsEqualPlans(a: seq<Line>, b: seq<Line>)
    requires Canonical(a) == Canonical(b)
    ensures PlanOf(a) == PlanOf(b) && (Fits(a) <==> Fits(b))
  {
    FingerprintEqualsMultiset(a, b);
    PlanDependsOnMultiset(a, b);
  }
}

/**
 The farmer delivery statement: deliveries folded per farmer in one pass, with the rounding of the
 values paid.  Weights and prices are hundredths; their product is in ten-thousandths, exactly.
 */
module FarmerStatement {
  import opened Common
  import opened Seqs
  import opened Sums
  import Sorting

  type Id = nat

  datatype Delivery = Delivery(farmer: Id, kg: nat, price: Option<nat>, grade: Option<string>)

  function GradeOf(d: Delivery): string {
    if d.grade.Some? then d.grade.value else "Ungraded"
  }

  // An unpriced delivery is skipped, not valued at zero price.
  function ValueOf(d: Delivery): nat {
    if d.price.Some? then d.kg * d.price.value else 0
  }

  // ---------------------------------------------------------------------------
  // What a statement should say, read off the deliveries
  // ---------------------------------------------------------------------------

  function OfFarmer(ds: seq<Delivery>, f: Id): seq<Delivery> {
    if ds == [] then []
    else
      var last := ds[|ds| - 1];
      OfFarmer(ds[..|ds| - 1], f) + if last.farmer == f then [last] else []
  }

  function CountGrade(ds: seq<Delivery>, g: string): nat {
    if ds == [] then 0
    else CountGrade(ds[..|ds| - 1], g) + if GradeOf(ds[|ds| - 1]) == g then 1 else 0
  }

  function TotalKg(ds: seq<Delivery>): nat {
    if ds == [] then 0 else TotalKg(ds[..|ds| - 1]) + ds[|ds| - 1].kg
  }

  function TotalValue(ds: seq<Delivery>): nat {
    if ds == [] then 0 else TotalValue(ds[..|ds| - 1]) + ValueOf(ds[|ds| - 1])
  }

  lemma Appended(ds: seq<Delivery>, d: Delivery)
    ensures TotalKg(ds + [d]) == TotalKg(ds) + d.kg
    ensures TotalValue(ds + [d]) == TotalValue(ds) + ValueOf(d)
  {
    assert (ds + [d])[..|ds + [d]| - 1] == ds;
  }

  lemma AppendedFarmer(ds: seq<Delivery>, d: Delivery, f: Id)
    ensures OfFarmer(ds + [d], f) == if d.farmer == f then OfFarmer(ds, f) + [d] else OfFarmer(ds, f)
  {
    assert (ds + [d])[..|ds + [d]| - 1] == ds;
  }

  lemma AppendedGrade(ds: seq<Delivery>, d: Delivery, g: string)
    ensures CountGrade(ds + [d], g) == CountGrade(ds, g) + if GradeOf(d) == g then 1 else 0
  {
    assert (ds + [d])[..|ds + [d]| - 1] == ds;
  }

  // ---------------------------------------------------------------------------
  // The fold
  // ---------------------------------------------------------------------------

  // A Map keeps its keys in insertion order: `gradeOrder` beside `grades`.
  datatype Entry = Entry(deliveryCount: nat, totalKg: nat, totalValue: nat, grades: map<string, nat>, gradeOrder: seq<string>)

  ghost predicate Listed<K(!new)>(order: seq<K>, keys: set<K>) {
    NoDuplicates(order) && Elements(order) == keys
  }

  ghost predicate Summarises(e: Entry, own: seq<Delivery>) {
    && e.deliveryCount == |own| && e.totalKg == TotalKg(own) && e.totalValue == TotalValue(own)
    && (forall g :: CountGrade(own, g) == if g in e.grades then e.grades[g] else 0)
    && (forall g :: g in e.grades ==> e.grades[g] > 0)
    && Sum(e.grades) == |own|
    && Listed(e.gradeOrder, e.grades.Keys)
  }

  lemma ListedMore<K(!new)>(order: seq<K>, keys: set<K>, k: K)
    requires Listed(order, keys) && k !in keys
    ensures Listed(order + [k], keys + {k})
  {
    assert k !in order;
    assert Elements(order + [k]) == Elements(order) + {k};
  }

  lemma SumSet<K(!new)>(m: map<K, nat>, k: K, v: nat)
    ensures Sum(m[k := v]) == Sum(m) - (if k in m then m[k] else 0) + v
  {
    if k in m {
      SumRemove(m, k);
      assert (m - {k})[k := v] == m[k := v];
      SumInsert(m - {k}, k, v);
    } else {
      SumInsert(m, k, v);
    }
  }

  lemma GradeAdded(e: Entry, own: seq<Delivery>, d: Delivery, order: seq<string>, grades: map<string, nat>)
    requires Summarises(e, own)
    requires var g := GradeOf(d); grades == e.grades[g := (if g in e.grades then e.grades[g] else 0) + 1]
    requires order == if GradeOf(d) in e.grades then e.gradeOrder else e.gradeOrder + [GradeOf(d)]
    ensures Sum(grades) == |own| + 1 && Listed(order, grades.Keys)
  {
    var g := GradeOf(d);
    SumSet(e.grades, g, grades[g]);
    if g in e.grades {
      assert grades.Keys == e.grades.Keys;
    } else {
      ListedMore(e.gradeOrder, e.grades.Keys, g);
      assert grades.Keys == e.grades.Keys + {g};
    }
  }

  function With(e: Entry, d: Delivery): Entry {
    var grade := GradeOf(d);
    Entry(e.deliveryCount + 1, e.totalKg + d.kg, e.totalValue + ValueOf(d),
          e.grades[grade := (if grade in e.grades then e.grades[grade] else 0) + 1],
          if grade in e.grades then e.gradeOrder else e.gradeOrder + [grade])
  }

  lemma GradesCounted(e: Entry, own: seq<Delivery>, d: Delivery)
    requires Summarises(e, own)
    ensures forall g :: CountGrade(own + [d], g) == if g in With(e, d).grades then With(e, d).grades[g] else 0
    ensures forall g :: g in With(e, d).grades ==> With(e, d).grades[g] > 0
  {
    hide CountGrade, Listed, TotalKg, TotalValue;
    forall g ensures CountGrade(own + [d], g) == if g in With(e, d).grades then With(e, d).grades[g] else 0 {
      AppendedGrade(own, d, g);
    }
  }

  lemma WithSummarises(e: Entry, own: seq<Delivery>, d: Delivery)
    requires Summarises(e, own)
    ensures Summarises(With(e, d), own + [d])
  {
    hide CountGrade, Listed, TotalKg, TotalValue;
    Appended(own, d);
    GradesCounted(e, own, d);
    GradeAdded(e, own, d, With(e, d).gradeOrder, With(e, d).grades);
  }

  lemma WithSummarisesAll(e: Entry, d: Delivery)
    ensures forall own :: Summarises(e, own) ==> Summarises(With(e, d), own + [d])
  {
    hide Summarises, With;
    forall own | Summarises(e, own) ensures Summarises(With(e, d), own + [d]) { WithSummarises(e, own, d); }
  }

  // One turn of the loop: an entry that sums up a farmer's deliveries so far sums up one more.
  method AddDelivery(e: Entry, d: Delivery) returns (r: Entry)
    ensures forall own :: Summarises(e, own) ==> Summarises(r, own + [d])
  {
    hide Summarises;
    WithSummarisesAll(e, d);
    r := e.(deliveryCount := e.deliveryCount + 1, totalKg := e.totalKg + d.kg);
    if d.price.Some? {
      r := r.(totalValue := r.totalValue + d.kg * d.price.value);
    }
    var grade := if d.grade.Some? then d.grade.value else "Ungraded";
    if grade in r.grades {
      r := r.(grades := r.grades[grade := r.grades[grade] + 1]);
    } else {
      r := r.(grades := r.grades[grade := 1], gradeOrder := r.gradeOrder + [grade]);
    }
  }

  function Counts(m: map<Id, Entry>): map<Id, nat> { map f | f in m :: m[f].deliveryCount }
  function Kgs(m: map<Id, Entry>): map<Id, nat> { map f | f in m :: m[f].totalKg }
  function Values(m: map<Id, Entry>): map<Id, nat> { map f | f in m :: m[f].totalValue }

  // A farmer has an entry exactly if there is a delivery of theirs, and it sums them up.
  ghost predicate EntryOk(byFarmer: map<Id, Entry>, ds: seq<Delivery>, f: Id) {
    && (f in byFarmer <==> OfFarmer(ds, f) != [])
    && Summarises(EntryFor(byFarmer, f), OfFarmer(ds, f))
  }

  ghost predicate EntriesOk(byFarmer: map<Id, Entry>, ds: seq<Delivery>) {
    forall f :: EntryOk(byFarmer, ds, f)
  }

  ghost predicate SumsOk(byFarmer: map<Id, Entry>, ds: seq<Delivery>) {
    Sum(Counts(byFarmer)) == |ds| && Sum(Kgs(byFarmer)) == TotalKg(ds) && Sum(Values(byFarmer)) == TotalValue(ds)
  }

  // The entry the loop works on: the farmer's own, or an empty one.
  function EntryFor(byFarmer: map<Id, Entry>, f: Id): Entry {
    if f in byFarmer then byFarmer[f] else Entry(0, 0, 0, map[], [])
  }

  lemma SumsAfter(byFarmer: map<Id, Entry>, f: Id, old_: Entry, e: Entry, d: Delivery)
    requires e.deliveryCount == old_.deliveryCount + 1 && e.totalKg == old_.totalKg + d.kg
    requires e.totalValue == old_.totalValue + ValueOf(d)
    requires if f in byFarmer then old_ == byFarmer[f] else old_.deliveryCount == old_.totalKg == old_.totalValue == 0
    ensures Sum(Counts(byFarmer[f := e])) == Sum(Counts(byFarmer)) + 1
    ensures Sum(Kgs(byFarmer[f := e])) == Sum(Kgs(byFarmer)) + d.kg
    ensures Sum(Values(byFarmer[f := e])) == Sum(Values(byFarmer)) + ValueOf(d)
  {
    assert Counts(byFarmer[f := e]) == Counts(byFarmer)[f := e.deliveryCount];
    assert Kgs(byFarmer[f := e]) == Kgs(byFarmer)[f := e.totalKg];
    assert Values(byFarmer[f := e]) == Values(byFarmer)[f := e.totalValue];
    SumSet(Counts(byFarmer), f, e.deliveryCount);
    SumSet(Kgs(byFarmer), f, e.totalKg);
    SumSet(Values(byFarmer), f, e.totalValue);
  }

  lemma EmptyEntry()
    ensures Summarises(Entry(0, 0, 0, map[], []), [])
  {
  }

  lemma AddedFields(e: Entry, r: Entry, own: seq<Delivery>, d: Delivery)
    requires Summarises(e, own) && Summarises(r, own + [d])
    ensures r.deliveryCount == e.deliveryCount + 1 && r.totalKg == e.totalKg + d.kg
    ensures r.totalValue == e.totalValue + ValueOf(d)
  {
    Appended(own, d);
  }

  lemma EntriesMore(byFarmer: map<Id, Entry>, ds: seq<Delivery>, d: Delivery, added: Entry)
    requires EntriesOk(byFarmer, ds) && Summarises(added, OfFarmer(ds, d.farmer) + [d])
    ensures EntriesOk(byFarmer[d.farmer := added], ds + [d])
  {
    hide Summarises, OfFarmer;
    var after, more := byFarmer[d.farmer := added], ds + [d];
    forall f ensures EntryOk(after, more, f) {
      assert EntryOk(byFarmer, ds, f);
      AppendedFarmer(ds, d, f);
    }
  }

  lemma SumsMore(byFarmer: map<Id, Entry>, ds: seq<Delivery>, d: Delivery, added: Entry)
    requires EntriesOk(byFarmer, ds) && SumsOk(byFarmer, ds) && Summarises(added, OfFarmer(ds, d.farmer) + [d])
    ensures SumsOk(byFarmer[d.farmer := added], ds + [d])
  {
    hide Summarises, OfFarmer, TotalKg, TotalValue, Counts, Kgs, Values, EntriesOk;
    var f := d.farmer;
    EntryIsOk(byFarmer, ds, f);
    Appended(ds, d);
    AddedFields(EntryFor(byFarmer, f), added, OfFarmer(ds, f), d);
    SumsAfter(byFarmer, f, EntryFor(byFarmer, f), added, d);
  }

  lemma EntryIsOk(byFarmer: map<Id, Entry>, ds: seq<Delivery>, f: Id)
    requires EntriesOk(byFarmer, ds)
    ensures Summarises(EntryFor(byFarmer, f), OfFarmer(ds, f)) && (f in byFarmer <==> OfFarmer(ds, f) != [])
  {
    assert EntryOk(byFarmer, ds, f);
  }

  lemma NothingFolded()
    ensures EntriesOk(map[], []) && SumsOk(map[], [])
  {
    EmptyEntry();
    assert Counts(map[]) == map[] && Kgs(map[]) == map[] && Values(map[]) == map[];
  }

  method FoldDeliveries(ds: seq<Delivery>) returns (byFarmer: map<Id, Entry>, order: seq<Id>)
    ensures Listed(order, byFarmer.Keys) && EntriesOk(byFarmer, ds) && SumsOk(byFarmer, ds)
  {
    hide EntriesOk, SumsOk, Summarises, OfFarmer;
    byFarmer, order := map[], [];
    NothingFolded();
    for i := 0 to |ds|
      invariant Listed(order, byFarmer.Keys) && EntriesOk(byFarmer, ds[..i]) && SumsOk(byFarmer, ds[..i])
    {
      hide Listed;
      var d := ds[i];
      assert ds[..i + 1] == ds[..i] + [d];
      EntryIsOk(byFarmer, ds[..i], d.farmer);
      var entry := EntryFor(byFarmer, d.farmer);
      if d.farmer !in byFarmer {
        ListedMore(order, byFarmer.Keys, d.farmer);
        order := order + [d.farmer];
      }
      var added := AddDelivery(entry, d);
      EntriesMore(byFarmer, ds[..i], d, added);
      SumsMore(byFarmer, ds[..i], d, added);
      assert byFarmer[d.farmer := added].Keys == byFarmer.Keys + {d.farmer};
      byFarmer := byFarmer[d.farmer := added];
    }
    assert ds[..|ds|] == ds;
  }

  // ---------------------------------------------------------------------------
  // Rows and totals
  // ---------------------------------------------------------------------------

  datatype GradeCount = GradeCount(grade: string, count: nat)

  // `totalValue` is rounded to hundredths.
  datatype Row = Row(farmer: Id, deliveryCount: nat, totalKg: nat, totalValue: nat,
                     gradeDistribution: seq<GradeCount>, mostCommonGrade: Option<string>)

  datatype Totals = Totals(deliveryCount: nat, totalKg: nat, totalValue: nat)

  // From ten-thousandths to hundredths: halves go up.
  function Round2(v: nat): nat {
    (v + 50) / 100
  }

  function GradeList(e: Entry): seq<GradeCount>
    requires forall g :: g in e.gradeOrder ==> g in e.grades
  {
    seq(|e.gradeOrder|, i requires 0 <= i < |e.gradeOrder| =>
      assert e.gradeOrder[i] in e.gradeOrder; GradeCount(e.gradeOrder[i], e.grades[e.gradeOrder[i]]))
  }

  function Distribution(e: Entry): seq<GradeCount>
    requires forall g :: g in e.gradeOrder ==> g in e.grades
  {
    Sorting.SortBy(GradeList(e), (c: GradeCount) => -(c.count as int))
  }

  function RowOf(f: Id, e: Entry): Row
    requires forall g :: g in e.gradeOrder ==> g in e.grades
  {
    var ranked := Distribution(e);
    Row(f, e.deliveryCount, e.totalKg, Round2(e.totalValue), ranked, if ranked == [] then None else Some(ranked[0].grade))
  }

  function SumCounts(cs: seq<GradeCount>): nat {
    if cs == [] then 0 else cs[0].count + SumCounts(cs[1..])
  }

  // What a row says about a farmer's own deliveries.
  ghost predicate RowOk(r: Row, own: seq<Delivery>) {
    && r.deliveryCount == |own| && r.totalKg == TotalKg(own) && r.totalValue == Round2(TotalValue(own))
    && (forall c :: c in r.gradeDistribution ==> c.count == CountGrade(own, c.grade) > 0)
    && (forall g :: CountGrade(own, g) > 0 ==> GradeCount(g, CountGrade(own, g)) in r.gradeDistribution)
    && SumCounts(r.gradeDistribution) == |own|
    && (forall i, j :: 0 <= i < j < |r.gradeDistribution| ==> r.gradeDistribution[i].count >= r.gradeDistribution[j].count)
    && (own != [] ==> r.mostCommonGrade.Some?)
    && (r.mostCommonGrade.Some? ==> forall g :: CountGrade(own, g) <= CountGrade(own, r.mostCommonGrade.value))
  }

  lemma {:induction false} InsertSums(c: GradeCount, cs: seq<GradeCount>, key: GradeCount -> int)
    ensures SumCounts(Sorting.Insert(c, cs, key)) == c.count + SumCounts(cs)
  {
    if cs == [] || key(c) <= key(cs[0]) {
      assert ([c] + cs)[1..] == cs;
    } else {
      InsertSums(c, cs[1..], key);
      assert ([cs[0]] + Sorting.Insert(c, cs[1..], key))[1..] == Sorting.Insert(c, cs[1..], key);
    }
  }

  lemma {:induction false} SortSums(cs: seq<GradeCount>, key: GradeCount -> int)
    ensures SumCounts(Sorting.SortBy(cs, key)) == SumCounts(cs)
  {
    if cs != [] {
      SortSums(cs[1..], key);
      InsertSums(cs[0], Sorting.SortBy(cs[1..], key), key);
    }
  }

  lemma ListedTail<K(!new)>(order: seq<K>, keys: set<K>)
    requires Listed(order, keys) && order != []
    ensures Listed(order[1..], keys - {order[0]}) && order[0] in keys
  {
    var k := order[0];
    assert order == [k] + order[1..];
    forall i | 0 <= i < |order[1..]| ensures order[1..][i] != k {
      assert order[i + 1] != order[0];
    }
    forall i, j | 0 <= i < j < |order[1..]| ensures order[1..][i] != order[1..][j] {
      assert order[i + 1] != order[j + 1];
    }
    assert Elements(order) == {k} + Elements(order[1..]);
  }

  // Adding up along a list of all keys is the sum of the map.
  lemma {:induction false} ListSums(order: seq<string>, m: map<string, nat>, cs: seq<GradeCount>)
    requires Listed(order, m.Keys) && |cs| == |order|
    requires forall i :: 0 <= i < |cs| ==> order[i] in m && cs[i].count == m[order[i]]
    ensures SumCounts(cs) == Sum(m)
    decreases |cs|
  {
    if cs == [] {
      assert m.Keys == {};
      assert m == map[];
    } else {
      var k := order[0];
      ListedTail(order, m.Keys);
      hide Listed;
      assert (m - {k}).Keys == m.Keys - {k};
      SumRemove(m, k);
      ListSums(order[1..], m - {k}, cs[1..]);
    }
  }

  lemma DistributionCounts(e: Entry, own: seq<Delivery>)
    requires Summarises(e, own)
    ensures forall c :: c in Distribution(e) <==> c.grade in e.grades && c.count == e.grades[c.grade]
    ensures SumCounts(Distribution(e)) == |own|
    ensures forall i, j :: 0 <= i < j < |Distribution(e)| ==> Distribution(e)[i].count >= Distribution(e)[j].count
  {
    var key := (c: GradeCount) => -(c.count as int);
    var list, ranked := GradeList(e), Distribution(e);
    Sorting.SortSorts(list, key);
    Sorting.SameMembers(ranked, list);
    SortSums(list, key);
    ListSums(e.gradeOrder, e.grades, list);
    GradeListed(e);
    forall i, j | 0 <= i < j < |ranked| ensures ranked[i].count >= ranked[j].count {
      assert key(ranked[i]) <= key(ranked[j]);
    }
  }

  lemma GradeListed(e: Entry)
    requires Listed(e.gradeOrder, e.grades.Keys) && forall g :: g in e.gradeOrder ==> g in e.grades
    ensures forall c :: c in GradeList(e) <==> c.grade in e.grades && c.count == e.grades[c.grade]
  {
    var list := GradeList(e);
    forall c ensures c in list <==> c.grade in e.grades && c.count == e.grades[c.grade] {
      if c.grade in e.grades && c.count == e.grades[c.grade] {
        assert c.grade in Elements(e.gradeOrder);
        var i :| 0 <= i < |e.gradeOrder| && e.gradeOrder[i] == c.grade;
        assert list[i] == c;
      }
    }
  }

  lemma GradesListed(e: Entry, own: seq<Delivery>)
    requires Summarises(e, own)
    ensures forall g :: g in e.gradeOrder ==> g in e.grades
  {
    assert forall g :: g in e.gradeOrder ==> g in Elements(e.gradeOrder);
  }

  lemma TopGrade(own: seq<Delivery>, ranked: seq<GradeCount>, g: string)
    requires ranked != [] && forall i :: 0 <= i < |ranked| ==> ranked[i].count <= ranked[0].count
    requires ranked[0].count == CountGrade(own, ranked[0].grade)
    requires CountGrade(own, g) > 0 ==> GradeCount(g, CountGrade(own, g)) in ranked
    ensures CountGrade(own, g) <= CountGrade(own, ranked[0].grade)
  {
    if CountGrade(own, g) > 0 {
      var i :| 0 <= i < |ranked| && ranked[i] == GradeCount(g, CountGrade(own, g));
    }
  }

  lemma CountsNeedRows(cs: seq<GradeCount>)
    ensures SumCounts(cs) > 0 ==> cs != []
  {
  }

  lemma RowCounts(e: Entry, own: seq<Delivery>)
    requires Summarises(e, own)
    ensures forall g :: g in e.gradeOrder ==> g in e.grades
    ensures forall c :: c in Distribution(e) ==> c.count == CountGrade(own, c.grade) > 0
    ensures forall g :: CountGrade(own, g) > 0 ==> GradeCount(g, CountGrade(own, g)) in Distribution(e)
  {
    GradesListed(e, own);
    DistributionCounts(e, own);
    hide Distribution, Listed, CountGrade, TotalKg, TotalValue;
  }

  lemma RowTop(e: Entry, own: seq<Delivery>)
    requires Summarises(e, own)
    ensures forall g :: g in e.gradeOrder ==> g in e.grades
    ensures own != [] ==> Distribution(e) != []
    ensures Distribution(e) != [] ==> forall g :: CountGrade(own, g) <= CountGrade(own, Distribution(e)[0].grade)
  {
    RowCounts(e, own);
    DistributionCounts(e, own);
    hide Distribution, Summarises, CountGrade;
    var ranked := Distribution(e);
    CountsNeedRows(ranked);
    if ranked != [] {
      assert ranked[0] in ranked;
      forall g ensures CountGrade(own, g) <= CountGrade(own, ranked[0].grade) { TopGrade(own, ranked, g); }
    }
  }

  lemma RowIsOk(f: Id, e: Entry, own: seq<Delivery>)
    requires Summarises(e, own)
    ensures (forall g :: g in e.gradeOrder ==> g in e.grades) && RowOk(RowOf(f, e), own)
  {
    RowCounts(e, own);
    DistributionCounts(e, own);
    RowTop(e, own);
    hide Distribution, Listed, CountGrade, TotalKg, TotalValue, SumCounts, Round2;
  }

  function RowsOf(byFarmer: map<Id, Entry>, order: seq<Id>): seq<Row>
    requires forall f :: f in order ==> f in byFarmer && forall g :: g in byFarmer[f].gradeOrder ==> g in byFarmer[f].grades
  {
    if order == [] then [] else [RowOf(order[0], byFarmer[order[0]])] + RowsOf(byFarmer, order[1..])
  }

  function TotalsOf(rows: seq<Row>): Totals {
    if rows == [] then Totals(0, 0, 0)
    else
      var t := TotalsOf(rows[1..]);
      Totals(rows[0].deliveryCount + t.deliveryCount, rows[0].totalKg + t.totalKg, rows[0].totalValue + t.totalValue)
  }

  lemma {:induction false} InsertTotals(r: Row, rows: seq<Row>, key: Row -> int)
    ensures TotalsOf(Sorting.Insert(r, rows, key)) == TotalsOf([r] + rows)
  {
    assert ([r] + rows)[1..] == rows;
    if rows != [] && key(r) > key(rows[0]) {
      InsertTotals(r, rows[1..], key);
      assert ([r] + rows[1..])[1..] == rows[1..];
      assert ([rows[0]] + Sorting.Insert(r, rows[1..], key))[1..] == Sorting.Insert(r, rows[1..], key);
    }
  }

  lemma {:induction false} SortTotals(rows: seq<Row>, key: Row -> int)
    ensures TotalsOf(Sorting.SortBy(rows, key)) == TotalsOf(rows)
  {
    if rows != [] {
      SortTotals(rows[1..], key);
      InsertTotals(rows[0], Sorting.SortBy(rows[1..], key), key);
      assert ([rows[0]] + Sorting.SortBy(rows[1..], key))[1..] == Sorting.SortBy(rows[1..], key);
    }
  }

  // ---------------------------------------------------------------------------
  // The statement
  // ---------------------------------------------------------------------------

  ghost predicate HasRow(rows: seq<Row>, f: Id) {
    exists i :: 0 <= i < |rows| && rows[i].farmer == f
  }

  // One row per delivering farmer, each right about that farmer.
  ghost predicate OneRowEach(rows: seq<Row>, ds: seq<Delivery>) {
    && (forall i, j :: 0 <= i < j < |rows| ==> rows[i].farmer != rows[j].farmer)
    && (forall f :: OfFarmer(ds, f) != [] <==> HasRow(rows, f))
    && (forall i :: 0 <= i < |rows| ==> RowOk(rows[i], OfFarmer(ds, rows[i].farmer)))
  }

  // Counts and kilos add up exactly; the value is off by at most half a hundredth a farmer.
  ghost predicate TotalsOk(totals: Totals, rows: seq<Row>, ds: seq<Delivery>) {
    && totals.deliveryCount == |ds|
    && totals.totalKg == TotalKg(ds)
    && TotalValue(ds) - 50 * |rows| <= 100 * totals.totalValue <= TotalValue(ds) + 50 * |rows|
  }

  ghost predicate Rowable(byFarmer: map<Id, Entry>, order: seq<Id>) {
    forall f :: f in order ==> f in byFarmer && forall g :: g in byFarmer[f].gradeOrder ==> g in byFarmer[f].grades
  }

  lemma {:induction false} RowsInOrder(byFarmer: map<Id, Entry>, order: seq<Id>)
    requires Rowable(byFarmer, order)
    ensures |RowsOf(byFarmer, order)| == |order|
    ensures forall i :: 0 <= i < |order| ==> order[i] in byFarmer && RowsOf(byFarmer, order)[i] == RowOf(order[i], byFarmer[order[i]])
    decreases |order|
  {
    if order != [] {
      RowsInOrder(byFarmer, order[1..]);
    }
  }

  lemma SumsWithout(m: map<Id, Entry>, f: Id)
    requires f in m
    ensures Sum(Counts(m)) == m[f].deliveryCount + Sum(Counts(m - {f}))
    ensures Sum(Kgs(m)) == m[f].totalKg + Sum(Kgs(m - {f}))
    ensures Sum(Values(m)) == m[f].totalValue + Sum(Values(m - {f}))
  {
    assert Counts(m) - {f} == Counts(m - {f}) && Kgs(m) - {f} == Kgs(m - {f}) && Values(m) - {f} == Values(m - {f});
    SumRemove(Counts(m), f);
    SumRemove(Kgs(m), f);
    SumRemove(Values(m), f);
  }

  // The nearest hundredth, halves up.
  lemma RoundingError(v: nat)
    ensures v - 50 < 100 * Round2(v) <= v + 50
  {
  }

  lemma {:induction false} RowTotals(byFarmer: map<Id, Entry>, order: seq<Id>)
    requires Rowable(byFarmer, order) && Listed(order, byFarmer.Keys)
    ensures var t := TotalsOf(RowsOf(byFarmer, order));
      && t.deliveryCount == Sum(Counts(byFarmer)) && t.totalKg == Sum(Kgs(byFarmer))
      && Sum(Values(byFarmer)) - 50 * |order| <= 100 * t.totalValue <= Sum(Values(byFarmer)) + 50 * |order|
    decreases |order|
  {
    hide Distribution, Round2, NoDuplicates;
    if order == [] {
      assert byFarmer.Keys == {};
      assert Counts(byFarmer) == map[] && Kgs(byFarmer) == map[] && Values(byFarmer) == map[];
    } else {
      hide Counts, Kgs, Values;
      var f := order[0];
      var rest := byFarmer - {f};
      ListedTail(order, byFarmer.Keys);
      assert rest.Keys == byFarmer.Keys - {f};
      RowableTail(byFarmer, order);
      RowTotals(rest, order[1..]);
      SameRows(byFarmer, rest, order[1..]);
      SumsWithout(byFarmer, f);
      RoundingError(byFarmer[f].totalValue);
      assert RowsOf(byFarmer, order)[1..] == RowsOf(byFarmer, order[1..]);
    }
  }

  lemma RowableTail(m: map<Id, Entry>, order: seq<Id>)
    requires order != [] && Rowable(m, order) && Listed(order[1..], m.Keys - {order[0]})
    ensures Rowable(m - {order[0]}, order[1..]) && Rowable(m, order[1..])
  {
    assert forall g :: g in order[1..] ==> g in Elements(order[1..]) && g in order;
  }

  lemma {:induction false} SameRows(m: map<Id, Entry>, n: map<Id, Entry>, order: seq<Id>)
    requires Rowable(m, order) && Rowable(n, order) && forall f :: f in order ==> m[f] == n[f]
    ensures RowsOf(m, order) == RowsOf(n, order)
    decreases |order|
  {
    if order != [] { SameRows(m, n, order[1..]); }
  }

  function ByKg(): Row -> int {
    (r: Row) => -(r.totalKg as int)
  }

  lemma SortedRowsOk(rows: seq<Row>, sorted: seq<Row>, ds: seq<Delivery>)
    requires OneRowEach(rows, ds) && multiset(sorted) == multiset(rows)
    ensures OneRowEach(sorted, ds) && |sorted| == |rows|
  {
    hide OfFarmer, RowOk;
    Sorting.SameCount(rows, sorted);
    Sorting.SameMembers(rows, sorted);
    forall i, j | 0 <= i < j < |sorted| ensures sorted[i].farmer != sorted[j].farmer {
      StillDistinct(rows, sorted, i, j);
    }
    forall f ensures HasRow(rows, f) <==> HasRow(sorted, f) {
      if HasRow(rows, f) {
        var i :| 0 <= i < |rows| && rows[i].farmer == f;
        assert rows[i] in sorted;
      }
      if HasRow(sorted, f) {
        var i :| 0 <= i < |sorted| && sorted[i].farmer == f;
        assert sorted[i] in rows;
      }
    }
    forall i | 0 <= i < |sorted| ensures RowOk(sorted[i], OfFarmer(ds, sorted[i].farmer)) {
      assert sorted[i] in rows;
    }
  }

  lemma StillDistinct(rows: seq<Row>, sorted: seq<Row>, i: nat, j: nat)
    requires forall a, b :: 0 <= a < b < |rows| ==> rows[a].farmer != rows[b].farmer
    requires multiset(sorted) == multiset(rows) && i < j < |sorted|
    ensures sorted[i].farmer != sorted[j].farmer
  {
    Sorting.SameMembers(rows, sorted);
    var x, y := sorted[i], sorted[j];
    assert x in rows && y in rows;
    var a :| 0 <= a < |rows| && rows[a] == x;
    var b :| 0 <= b < |rows| && rows[b] == y;
    if a == b {
      TwiceIn(sorted, i, j);
      OnceIn(rows, a);
    } else {
      assert a < b || b < a;
    }
  }

  lemma TwiceIn(rows: seq<Row>, i: nat, j: nat)
    requires i < j < |rows| && rows[i] == rows[j]
    ensures multiset(rows)[rows[i]] >= 2
  {
    assert rows == rows[..j] + [rows[j]] + rows[j + 1..];
    assert rows[..j][i] in multiset(rows[..j]);
  }

  lemma OnceIn(rows: seq<Row>, a: nat)
    requires a < |rows| && forall i, j :: 0 <= i < j < |rows| ==> rows[i].farmer != rows[j].farmer
    ensures multiset(rows)[rows[a]] == 1
  {
    assert rows == rows[..a] + [rows[a]] + rows[a + 1..];
    assert rows[a] !in rows[..a] && rows[a] !in rows[a + 1..];
    assert rows[a] !in multiset(rows[..a]) && rows[a] !in multiset(rows[a + 1..]);
  }

  lemma EachRowOk(byFarmer: map<Id, Entry>, order: seq<Id>, ds: seq<Delivery>)
    requires Listed(order, byFarmer.Keys) && EntriesOk(byFarmer, ds)
    ensures Rowable(byFarmer, order)
    ensures forall f :: f in order ==> RowOk(RowOf(f, byFarmer[f]), OfFarmer(ds, f))
  {
    hide Summarises, OfFarmer, RowOk;
    forall f | f in order
      ensures f in byFarmer && (forall g :: g in byFarmer[f].gradeOrder ==> g in byFarmer[f].grades)
      ensures RowOk(RowOf(f, byFarmer[f]), OfFarmer(ds, f))
    {
      assert f in Elements(order);
      EntryIsOk(byFarmer, ds, f);
      RowIsOk(f, byFarmer[f], OfFarmer(ds, f));
    }
  }

  lemma FoldedRowsOk(byFarmer: map<Id, Entry>, order: seq<Id>, ds: seq<Delivery>)
    requires Listed(order, byFarmer.Keys) && EntriesOk(byFarmer, ds)
    ensures Rowable(byFarmer, order) && OneRowEach(RowsOf(byFarmer, order), ds)
  {
    hide Summarises, OfFarmer, RowOk, EntriesOk;
    EachRowOk(byFarmer, order, ds);
    RowsInOrder(byFarmer, order);
    var rows := RowsOf(byFarmer, order);
    forall f ensures OfFarmer(ds, f) != [] <==> HasRow(rows, f) {
      EntryIsOk(byFarmer, ds, f);
      if f in byFarmer {
        assert f in Elements(order);
        var i :| 0 <= i < |order| && order[i] == f;
        assert rows[i].farmer == f;
      }
    }
  }

  method GetFarmerStatement(ds: seq<Delivery>) returns (rows: seq<Row>, totals: Totals)
    ensures OneRowEach(rows, ds)
    ensures forall i, j :: 0 <= i < j < |rows| ==> rows[i].totalKg >= rows[j].totalKg
    ensures TotalsOk(totals, rows, ds)
  {
    hide EntriesOk, OneRowEach, OfFarmer;
    var byFarmer, order := FoldDeliveries(ds);
    FoldedRowsOk(byFarmer, order, ds);
    RowTotals(byFarmer, order);
    RowsInOrder(byFarmer, order);
    var folded := RowsOf(byFarmer, order);
    rows := Sorting.SortBy(folded, ByKg());
    Sorting.SortSorts(folded, ByKg());
    SortedRowsOk(folded, rows, ds);
    SortTotals(folded, ByKg());
    totals := TotalsOf(rows);
    forall i, j | 0 <= i < j < |rows| ensures rows[i].totalKg >= rows[j].totalKg {
      assert ByKg()(rows[i]) <= ByKg()(rows[j]);
    }
  }
}

/** Saving passengers with their infants' adults, and handing them to the supplier from the adult's side. */
module InfantLinks {
  import opened Support
  import opened PassengerMatching

  /** An identity document; a part that was not given is empty. */
  datatype Papers = Papers(kind: string, number: string, expiry: string, nationality: string)

  predicate Complete(p: Papers) {
    p.kind != "" && p.number != "" && p.expiry != "" && p.nationality != ""
  }

  /** `details` stands for the columns that are only copied. */
  datatype PassengerInput = PassengerInput(kind: PassengerType, details: string, papers: Papers,
                                           responsibleAdult: Option<nat>)

  datatype Passenger = Passenger(id: nat, kind: PassengerType, details: string, papers: Papers, supplierId: string,
                                 responsibleAdult: Option<nat>)

  datatype SupplierPassenger = SupplierPassenger(id: string, details: string, papers: Option<Papers>,
                                                 infant: Option<string>)

  /** The first passenger without a complete document, where the offer demands one. */
  method MissingPapers(inputs: seq<PassengerInput>, required: bool) returns (missing: Option<nat>)
    ensures missing.None? <==> required ==> forall i :: 0 <= i < |inputs| ==> Complete(inputs[i].papers)
    ensures missing.Some? ==> missing.value < |inputs| && !Complete(inputs[missing.value].papers)
    ensures missing.Some? ==> forall i :: 0 <= i < missing.value ==> Complete(inputs[i].papers)
  {
    if required {
      for i := 0 to |inputs|
        invariant forall j :: 0 <= j < i ==> Complete(inputs[j].papers)
      {
        var p := inputs[i].papers;
        if p.kind == "" || p.number == "" || p.expiry == "" || p.nationality == "" {
          return Some(i);
        }
      }
    }
    return None;
  }

  function Seated(p: PassengerInput): int { if p.kind == Infant then 0 else 1 }

  function Lap(p: PassengerInput): int { if p.kind == Infant then 1 else 0 }

  /** Adults and children are saved first, infants after them, each group in input order. */
  function RowIndex(inputs: seq<PassengerInput>, i: nat): int
    requires i < |inputs|
  {
    if inputs[i].kind == Infant then SumBy(inputs, Seated) + SumBy(inputs[..i], Lap) else SumBy(inputs[..i], Seated)
  }

  predicate LinkFits(inputs: seq<PassengerInput>, i: nat)
    requires i < |inputs|
  {
    inputs[i].kind == Infant ==>
      && inputs[i].responsibleAdult.Some?
      && inputs[i].responsibleAdult.value < |inputs|
      && inputs[inputs[i].responsibleAdult.value].kind == Adult
  }

  function RowOf(inputs: seq<PassengerInput>, ids: seq<string>, i: nat): Passenger
    requires i < |inputs| == |ids| && LinkFits(inputs, i) && RowIndex(inputs, i) >= 0
    requires inputs[i].kind == Infant ==> RowIndex(inputs, inputs[i].responsibleAdult.value) >= 0
  {
    Passenger(RowIndex(inputs, i), inputs[i].kind, inputs[i].details, inputs[i].papers, ids[i],
              if inputs[i].kind == Infant then Some(RowIndex(inputs, inputs[i].responsibleAdult.value)) else None)
  }

  lemma {:induction false} SplitCounts(inputs: seq<PassengerInput>)
    ensures SumBy(inputs, Seated) + SumBy(inputs, Lap) == |inputs|
    ensures 0 <= SumBy(inputs, Seated) && 0 <= SumBy(inputs, Lap)
  {
    if inputs != [] {
      SplitCounts(inputs[..|inputs| - 1]);
    }
  }

  lemma {:induction false} CountsClimb(inputs: seq<PassengerInput>, i: nat, j: nat)
    requires i < j <= |inputs|
    ensures SumBy(inputs[..i], Seated) + Seated(inputs[i]) <= SumBy(inputs[..j], Seated)
    ensures SumBy(inputs[..i], Lap) + Lap(inputs[i]) <= SumBy(inputs[..j], Lap)
    ensures 0 <= SumBy(inputs[..i], Seated) && 0 <= SumBy(inputs[..i], Lap)
  {
    assert inputs[..j][..j - 1] == inputs[..j - 1];
    SplitCounts(inputs[..i]);
    if i + 1 < j {
      CountsClimb(inputs, i, j - 1);
    }
  }

  lemma RowIndexFits(inputs: seq<PassengerInput>, i: nat)
    requires i < |inputs|
    ensures 0 <= RowIndex(inputs, i) < |inputs|
    ensures inputs[i].kind != Infant ==> RowIndex(inputs, i) < SumBy(inputs, Seated)
    ensures inputs[i].kind == Infant ==> RowIndex(inputs, i) >= SumBy(inputs, Seated)
  {
    SplitCounts(inputs);
    CountsClimb(inputs, i, |inputs|);
    assert inputs[..|inputs|] == inputs;
  }

  lemma RowIndexIsInjective(inputs: seq<PassengerInput>, i: nat, j: nat)
    requires i < j < |inputs|
    ensures RowIndex(inputs, i) != RowIndex(inputs, j)
  {
    RowIndexFits(inputs, i);
    RowIndexFits(inputs, j);
    CountsClimb(inputs, i, j);
  }

  /** The rows of the inputs, wherever they are: input i has the row its index points at, with its own supplier id. */
  ghost predicate Saved(inputs: seq<PassengerInput>, ids: seq<string>, rows: seq<Passenger>) {
    && |rows| == |inputs| == |ids|
    && forall i :: 0 <= i < |inputs| ==> SavedAt(inputs, ids, rows, i)
  }

  ghost predicate SavedAt(inputs: seq<PassengerInput>, ids: seq<string>, rows: seq<Passenger>, i: nat)
    requires i < |inputs| == |ids|
  {
    && LinkFits(inputs, i)
    && 0 <= RowIndex(inputs, i) < |rows|
    && (inputs[i].kind == Infant ==> 0 <= RowIndex(inputs, inputs[i].responsibleAdult.value))
    && rows[RowIndex(inputs, i)] == RowOf(inputs, ids, i)
  }

  /** The saved adults and children, by input index. */
  ghost predicate Entities(inputs: seq<PassengerInput>, ids: seq<string>, rows: seq<Passenger>,
                           entities: map<nat, Passenger>, n: nat)
    requires n <= |inputs| == |ids|
  {
    && (forall j: nat :: j in entities <==> j < n && inputs[j].kind != Infant)
    && (forall j: nat :: j in entities ==> SavedAt(inputs, ids, rows, j) && entities[j] == rows[RowIndex(inputs, j)])
  }

  lemma RowsGrow(inputs: seq<PassengerInput>, ids: seq<string>, rows: seq<Passenger>, row: Passenger, j: nat)
    requires j < |inputs| == |ids| && SavedAt(inputs, ids, rows, j)
    ensures SavedAt(inputs, ids, rows + [row], j) && (rows + [row])[RowIndex(inputs, j)] == rows[RowIndex(inputs, j)]
  {
  }

  lemma AllRowsGrow(inputs: seq<PassengerInput>, ids: seq<string>, rows: seq<Passenger>, row: Passenger,
                    entities: map<nat, Passenger>, n: nat, i: nat)
    requires n <= |inputs| == |ids| && i <= |inputs| && Entities(inputs, ids, rows, entities, n)
    requires forall j: nat :: j < i ==> SavedAt(inputs, ids, rows, j)
    ensures Entities(inputs, ids, rows + [row], entities, n)
    ensures forall j: nat :: j < i ==> SavedAt(inputs, ids, rows + [row], j)
  {
    forall j: nat | j in entities || j < i
      ensures SavedAt(inputs, ids, rows, j) && SavedAt(inputs, ids, rows + [row], j)
      ensures (rows + [row])[RowIndex(inputs, j)] == rows[RowIndex(inputs, j)]
    {
      RowsGrow(inputs, ids, rows, row, j);
    }
  }

  method SaveSeated(inputs: seq<PassengerInput>, ids: seq<string>)
    returns (rows: seq<Passenger>, entities: map<nat, Passenger>)
    requires |ids| == |inputs|
    ensures |rows| == SumBy(inputs, Seated) && Entities(inputs, ids, rows, entities, |inputs|)
  {
    rows, entities := [], map[];
    for i := 0 to |inputs|
      invariant |rows| == SumBy(inputs[..i], Seated) && Entities(inputs, ids, rows, entities, i)
    {
      assert inputs[..i + 1][..i] == inputs[..i];
      if inputs[i].kind != Infant {
        var passenger := Passenger(|rows|, inputs[i].kind, inputs[i].details, inputs[i].papers, ids[i], None);
        AllRowsGrow(inputs, ids, rows, passenger, entities, i, 0);
        rows := rows + [passenger];
        entities := entities[i := passenger];
      }
    }
    assert inputs[..|inputs|] == inputs;
  }

  /** The adult an infant names, if it names a saved one. */
  method AdultOf(inputs: seq<PassengerInput>, ghost ids: seq<string>, ghost rows: seq<Passenger>,
                 entities: map<nat, Passenger>, i: nat)
    returns (adult: Option<nat>)
    requires i < |inputs| == |ids| && inputs[i].kind == Infant && Entities(inputs, ids, rows, entities, |inputs|)
    ensures adult.Some? <==> LinkFits(inputs, i)
    ensures adult.Some? ==> RowIndex(inputs, inputs[i].responsibleAdult.value) == adult.value
  {
    if inputs[i].responsibleAdult.None? {
      return None;
    }
    var index := inputs[i].responsibleAdult.value;
    if index !in entities || entities[index].kind != Adult {
      return None;
    }
    return Some(entities[index].id);
  }

  /** All seated rows, and the infants before input i behind them. */
  ghost predicate SavedUpTo(inputs: seq<PassengerInput>, ids: seq<string>, rows: seq<Passenger>,
                            entities: map<nat, Passenger>, i: nat)
    requires i <= |inputs| == |ids|
  {
    && |rows| == SumBy(inputs, Seated) + SumBy(inputs[..i], Lap)
    && Entities(inputs, ids, rows, entities, |inputs|)
    && (forall j: nat :: j < i ==> SavedAt(inputs, ids, rows, j))
  }

  lemma SeatedNext(inputs: seq<PassengerInput>, ids: seq<string>, rows: seq<Passenger>,
                   entities: map<nat, Passenger>, i: nat)
    requires i < |inputs| == |ids| && SavedUpTo(inputs, ids, rows, entities, i) && inputs[i].kind != Infant
    ensures SavedUpTo(inputs, ids, rows, entities, i + 1)
  {
    assert inputs[..i + 1][..i] == inputs[..i];
    assert i in entities;
  }

  function InfantRow(id: nat, input: PassengerInput, supplierId: string, adult: nat): Passenger {
    Passenger(id, Infant, input.details, input.papers, supplierId, Some(adult))
  }

  lemma InfantNext(inputs: seq<PassengerInput>, ids: seq<string>, rows: seq<Passenger>,
                   entities: map<nat, Passenger>, i: nat, adult: nat)
    requires i < |inputs| == |ids| && SavedUpTo(inputs, ids, rows, entities, i) && inputs[i].kind == Infant
    requires LinkFits(inputs, i) && RowIndex(inputs, inputs[i].responsibleAdult.value) == adult
    ensures SavedUpTo(inputs, ids, rows + [InfantRow(|rows|, inputs[i], ids[i], adult)], entities, i + 1)
  {
    var passenger := InfantRow(|rows|, inputs[i], ids[i], adult);
    assert inputs[..i + 1][..i] == inputs[..i];
    AllRowsGrow(inputs, ids, rows, passenger, entities, |inputs|, i);
    assert SavedAt(inputs, ids, rows + [passenger], i);
  }

  /** `Failure(i)` names the first infant without a valid adult. A saved row's id is its place in the table. */
  method SavePassengers(inputs: seq<PassengerInput>, ids: seq<string>) returns (r: Result<seq<Passenger>, nat>)
    requires |ids| == |inputs|
    ensures r.Success? ==> Saved(inputs, ids, r.value)
    ensures r.Failure? ==> r.error < |inputs| && !LinkFits(inputs, r.error)
    ensures r.Failure? ==> forall i :: 0 <= i < r.error ==> LinkFits(inputs, i)
  {
    var rows, entities := SaveSeated(inputs, ids);
    assert inputs[..0] == [];
    for i := 0 to |inputs|
      invariant SavedUpTo(inputs, ids, rows, entities, i)
    {
      if inputs[i].kind == Infant {
        var adult := AdultOf(inputs, ids, rows, entities, i);
        if adult.None? {
          forall j | 0 <= j < i ensures LinkFits(inputs, j) {
            assert SavedAt(inputs, ids, rows, j);
          }
          return Failure(i);
        }
        InfantNext(inputs, ids, rows, entities, i, adult.value);
        rows := rows + [InfantRow(|rows|, inputs[i], ids[i], adult.value)];
      } else {
        SeatedNext(inputs, ids, rows, entities, i);
      }
    }
    SplitCounts(inputs);
    assert inputs[..|inputs|] == inputs;
    return Success(rows);
  }

  // Handing the saved rows to the supplier, in whatever order the table returns them.

  predicate IsInfantOf(i: Passenger, adult: Passenger) {
    i.kind == Infant && i.responsibleAdult == Some(adult.id) && i.supplierId != ""
  }

  function FirstInfant(rows: seq<Passenger>, adult: Passenger): Option<string> {
    if rows == [] then None
    else if IsInfantOf(rows[0], adult) then Some(rows[0].supplierId)
    else FirstInfant(rows[1..], adult)
  }

  function ToSupplier(rows: seq<Passenger>, p: Passenger): SupplierPassenger {
    SupplierPassenger(p.supplierId, p.details, if Complete(p.papers) then Some(p.papers) else None,
                      if p.kind == Adult then FirstInfant(rows, p) else None)
  }

  function MapSome(rows: seq<Passenger>, some: seq<Passenger>): seq<SupplierPassenger> {
    if some == [] then []
    else (if some[0].supplierId == "" then [] else [ToSupplier(rows, some[0])]) + MapSome(rows, some[1..])
  }

  /** Only passengers the supplier knows are sent; an adult carries the first infant found for it. */
  function MapPassengersToSupplier(rows: seq<Passenger>): seq<SupplierPassenger> {
    MapSome(rows, rows)
  }

  lemma {:induction false} MapSomeMembers(rows: seq<Passenger>, some: seq<Passenger>, d: SupplierPassenger)
    ensures d in MapSome(rows, some) <==> exists p :: p in some && p.supplierId != "" && ToSupplier(rows, p) == d
  {
    if some != [] {
      MapSomeMembers(rows, some[1..], d);
      assert forall p :: p in some <==> p == some[0] || p in some[1..];
    }
  }

  lemma {:induction false} FirstInfantFound(rows: seq<Passenger>, adult: Passenger)
    ensures match FirstInfant(rows, adult)
            case Some(id) => exists i :: i in rows && IsInfantOf(i, adult) && i.supplierId == id
            case None => forall i :: i in rows ==> !IsInfantOf(i, adult)
  {
    if rows != [] && !IsInfantOf(rows[0], adult) {
      FirstInfantFound(rows[1..], adult);
      assert forall p :: p in rows <==> p == rows[0] || p in rows[1..];
    }
  }

  /** Of two infants of one adult, the one read first goes on its ticket. */
  lemma {:induction false} FirstReadIsCarried(before: seq<Passenger>, infant: Passenger, after: seq<Passenger>,
                                              adult: Passenger)
    requires IsInfantOf(infant, adult) && forall p :: p in before ==> !IsInfantOf(p, adult)
    ensures FirstInfant(before + [infant] + after, adult) == Some(infant.supplierId)
  {
    if before != [] {
      assert (before + [infant] + after)[1..] == before[1..] + [infant] + after;
      assert before[0] in before;
      FirstReadIsCarried(before[1..], infant, after, adult);
    }
  }

  predicate KnownIds(ids: seq<string>) {
    && (forall i :: 0 <= i < |ids| ==> ids[i] != "")
    && (forall i, j :: 0 <= i < j < |ids| ==> ids[i] != ids[j])
  }

  /** The rows read back: the saved rows, in any order. */
  ghost predicate ReadBack(inputs: seq<PassengerInput>, ids: seq<string>, rows: seq<Passenger>,
                           loaded: seq<Passenger>)
  {
    Saved(inputs, ids, rows) && KnownIds(ids) && forall p :: p in loaded <==> p in rows
  }

  /** Every saved row is the row of some input. */
  lemma RowHasInput(inputs: seq<PassengerInput>, ids: seq<string>, rows: seq<Passenger>, p: Passenger) returns (i: nat)
    requires Saved(inputs, ids, rows) && p in rows
    ensures i < |inputs| && SavedAt(inputs, ids, rows, i) && p == RowOf(inputs, ids, i)
  {
    var k :| 0 <= k < |rows| && rows[k] == p;
    var indices: seq<nat> := seq(|inputs|, j requires 0 <= j < |inputs| =>
      if RowIndex(inputs, j) >= 0 then RowIndex(inputs, j) else 0);
    forall a, b | 0 <= a < b < |inputs| ensures indices[a] != indices[b] {
      RowIndexFits(inputs, a);
      RowIndexFits(inputs, b);
      RowIndexIsInjective(inputs, a, b);
    }
    forall a | 0 <= a < |inputs| ensures indices[a] < |inputs| {
      RowIndexFits(inputs, a);
    }
    EveryPlaceIsTaken(indices, k);
    i :| 0 <= i < |indices| && indices[i] == k;
    RowIndexFits(inputs, i);
    assert SavedAt(inputs, ids, rows, i);
  }

  lemma EveryPlaceIsTaken(m: seq<nat>, k: nat)
    requires forall i :: 0 <= i < |m| ==> m[i] < |m|
    requires forall i, j :: 0 <= i < j < |m| ==> m[i] != m[j]
    requires k < |m|
    ensures k in m
  {
    RangeSize(|m|);
    DistinctImage(m);
    if k !in m {
      SubsetSize(Image(m), Range(|m|) - {k});
    }
  }

  predicate SharesAdult(inputs: seq<PassengerInput>, i: nat, j: nat)
    requires i < |inputs| && j < |inputs|
  {
    inputs[i].kind == Infant && inputs[j].kind == Infant && inputs[i].responsibleAdult == inputs[j].responsibleAdult
  }

  ghost predicate NoSharedAdult(inputs: seq<PassengerInput>) {
    forall i: nat, j: nat :: i < j < |inputs| ==> !SharesAdult(inputs, i, j)
  }

  predicate CarriedBy(inputs: seq<PassengerInput>, ids: seq<string>, sent: seq<SupplierPassenger>, i: nat)
    requires i < |inputs| == |ids| && LinkFits(inputs, i) && inputs[i].kind == Infant
  {
    exists d :: d in sent && d.id == ids[inputs[i].responsibleAdult.value] && d.infant == Some(ids[i])
  }

  /** Whoever is sent with an infant is the adult that infant was saved with: never anyone else. */
  lemma SentInfantIsOnItsAdult(inputs: seq<PassengerInput>, ids: seq<string>, rows: seq<Passenger>,
                               loaded: seq<Passenger>, d: SupplierPassenger)
    returns (i: nat)
    requires ReadBack(inputs, ids, rows, loaded)
    requires d in MapPassengersToSupplier(loaded) && d.infant.Some?
    ensures i < |inputs| && inputs[i].kind == Infant && LinkFits(inputs, i)
    ensures d.infant == Some(ids[i]) && d.id == ids[inputs[i].responsibleAdult.value]
  {
    MapSomeMembers(loaded, loaded, d);
    var adult :| adult in loaded && adult.supplierId != "" && ToSupplier(loaded, adult) == d;
    FirstInfantFound(loaded, adult);
    var infant :| infant in loaded && IsInfantOf(infant, adult) && infant.supplierId == d.infant.value;
    i := RowHasInput(inputs, ids, rows, infant);
    var j := RowHasInput(inputs, ids, rows, adult);
    var a := inputs[i].responsibleAdult.value;
    if a < j { RowIndexIsInjective(inputs, a, j); }
    if j < a { RowIndexIsInjective(inputs, j, a); }
  }

  lemma SameRowIndex(inputs: seq<PassengerInput>, i: nat, j: nat)
    requires i < |inputs| && j < |inputs| && RowIndex(inputs, i) == RowIndex(inputs, j)
    ensures i == j
  {
    if i < j { RowIndexIsInjective(inputs, i, j); }
    if j < i { RowIndexIsInjective(inputs, j, i); }
  }

  lemma UnsharedInfantIsCarried(inputs: seq<PassengerInput>, ids: seq<string>, rows: seq<Passenger>,
                                loaded: seq<Passenger>, i: nat)
    requires ReadBack(inputs, ids, rows, loaded) && NoSharedAdult(inputs)
    requires i < |inputs| && inputs[i].kind == Infant && LinkFits(inputs, i)
    ensures CarriedBy(inputs, ids, MapPassengersToSupplier(loaded), i)
  {
    var a := inputs[i].responsibleAdult.value;
    assert SavedAt(inputs, ids, rows, i) && SavedAt(inputs, ids, rows, a);
    var infant, adult := rows[RowIndex(inputs, i)], rows[RowIndex(inputs, a)];
    assert infant in rows && adult in rows && IsInfantOf(infant, adult);
    FirstInfantFound(loaded, adult);
    var found :| found in loaded && IsInfantOf(found, adult) && Some(found.supplierId) == FirstInfant(loaded, adult);
    var k := RowHasInput(inputs, ids, rows, found);
    SameRowIndex(inputs, inputs[k].responsibleAdult.value, a);
    assert SharesAdult(inputs, i, k) && SharesAdult(inputs, k, i);
    assert i == k;
    MapSomeMembers(loaded, loaded, ToSupplier(loaded, adult));
  }

  lemma SentRowIsUnique(inputs: seq<PassengerInput>, ids: seq<string>, rows: seq<Passenger>, loaded: seq<Passenger>,
                        d: SupplierPassenger, e: SupplierPassenger)
    requires ReadBack(inputs, ids, rows, loaded)
    requires d in MapPassengersToSupplier(loaded) && e in MapPassengersToSupplier(loaded) && d.id == e.id
    ensures d == e
  {
    MapSomeMembers(loaded, loaded, d);
    MapSomeMembers(loaded, loaded, e);
    var p :| p in loaded && p.supplierId != "" && ToSupplier(loaded, p) == d;
    var q :| q in loaded && q.supplierId != "" && ToSupplier(loaded, q) == e;
    var i := RowHasInput(inputs, ids, rows, p);
    var j := RowHasInput(inputs, ids, rows, q);
    assert i == j;
  }

  /** What the supplier gets for input i: its own id and columns, and its document exactly when that is complete. */
  ghost predicate SentAs(inputs: seq<PassengerInput>, ids: seq<string>, d: SupplierPassenger, i: nat) {
    && i < |inputs| == |ids|
    && d.id == ids[i] && d.details == inputs[i].details
    && d.papers == (if Complete(inputs[i].papers) then Some(inputs[i].papers) else None)
    && (inputs[i].kind != Adult ==> d.infant == None)
  }

  /** Every passenger is sent as what was submitted for it. */
  lemma EveryPassengerIsSent(inputs: seq<PassengerInput>, ids: seq<string>, rows: seq<Passenger>,
                             loaded: seq<Passenger>, i: nat)
    returns (d: SupplierPassenger)
    requires ReadBack(inputs, ids, rows, loaded) && i < |inputs|
    ensures d in MapPassengersToSupplier(loaded) && SentAs(inputs, ids, d, i)
  {
    assert SavedAt(inputs, ids, rows, i);
    d := ToSupplier(loaded, rows[RowIndex(inputs, i)]);
    MapSomeMembers(loaded, loaded, d);
  }

  /** And nobody else is sent. */
  lemma OnlyPassengersAreSent(inputs: seq<PassengerInput>, ids: seq<string>, rows: seq<Passenger>,
                              loaded: seq<Passenger>, d: SupplierPassenger)
    returns (i: nat)
    requires ReadBack(inputs, ids, rows, loaded) && d in MapPassengersToSupplier(loaded)
    ensures SentAs(inputs, ids, d, i)
  {
    MapSomeMembers(loaded, loaded, d);
    var p :| p in loaded && p.supplierId != "" && ToSupplier(loaded, p) == d;
    i := RowHasInput(inputs, ids, rows, p);
  }

  /** Every infant reaches the supplier on its own adult exactly when no adult is responsible for two. */
  lemma AllInfantsCarriedIffNoneShared(inputs: seq<PassengerInput>, ids: seq<string>, rows: seq<Passenger>,
                                       loaded: seq<Passenger>)
    requires ReadBack(inputs, ids, rows, loaded)
    ensures (forall i: nat :: i < |inputs| && inputs[i].kind == Infant ==>
               SavedAt(inputs, ids, rows, i) && CarriedBy(inputs, ids, MapPassengersToSupplier(loaded), i))
       <==> NoSharedAdult(inputs)
  {
    var sent := MapPassengersToSupplier(loaded);
    if NoSharedAdult(inputs) {
      forall i: nat | i < |inputs| && inputs[i].kind == Infant
        ensures SavedAt(inputs, ids, rows, i) && CarriedBy(inputs, ids, sent, i)
      {
        assert SavedAt(inputs, ids, rows, i);
        UnsharedInfantIsCarried(inputs, ids, rows, loaded, i);
      }
    } else {
      var i: nat, j: nat :| i < j < |inputs| && SharesAdult(inputs, i, j);
      assert SavedAt(inputs, ids, rows, i) && SavedAt(inputs, ids, rows, j);
      if CarriedBy(inputs, ids, sent, i) && CarriedBy(inputs, ids, sent, j) {
        var d :| d in sent && d.id == ids[inputs[i].responsibleAdult.value] && d.infant == Some(ids[i]);
        var e :| e in sent && e.id == ids[inputs[j].responsibleAdult.value] && e.infant == Some(ids[j]);
        SentRowIsUnique(inputs, ids, rows, loaded, d, e);
        assert false;
      }
    }
  }

  const NO_PAPERS: Papers := Papers("", "", "", "")

  const TWO_INFANTS: seq<PassengerInput> := [
    PassengerInput(Adult, "", NO_PAPERS, None),
    PassengerInput(Infant, "", NO_PAPERS, Some(0)), PassengerInput(Infant, "", NO_PAPERS, Some(0))
  ]

  /** Two infants of one adult: saved without complaint, and not both sent on that adult. */
  lemma TwoInfantsOneAdult(ids: seq<string>, rows: seq<Passenger>, loaded: seq<Passenger>)
    requires ReadBack(TWO_INFANTS, ids, rows, loaded)
    ensures forall i :: 0 <= i < |TWO_INFANTS| ==> LinkFits(TWO_INFANTS, i)
    ensures SavedAt(TWO_INFANTS, ids, rows, 1) && SavedAt(TWO_INFANTS, ids, rows, 2)
    ensures var sent := MapPassengersToSupplier(loaded);
            !(CarriedBy(TWO_INFANTS, ids, sent, 1) && CarriedBy(TWO_INFANTS, ids, sent, 2))
  {
    assert SavedAt(TWO_INFANTS, ids, rows, 1) && SavedAt(TWO_INFANTS, ids, rows, 2);
    assert SharesAdult(TWO_INFANTS, 1, 2);
    AllInfantsCarriedIffNoneShared(TWO_INFANTS, ids, rows, loaded);
  }
}

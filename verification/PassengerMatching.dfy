/** Pairing submitted passengers with the passengers of an offer: typed ones in order, untyped ones as spares. */
module PassengerMatching {
  import opened Support

  datatype PassengerType = Adult | Child | Infant

  /** The supplier's labels: "adult", "child", "infant", "infant_without_seat", and any other or none at all. */
  datatype Label = AdultLabel | ChildLabel | InfantLabel | InfantWithoutSeatLabel | OtherLabel

  datatype OfferPassenger = OfferPassenger(id: string, kind: Label)

  /** A label that names no type leaves the passenger untyped. */
  function Normalize(kind: Label): Option<PassengerType> {
    match kind
    case AdultLabel => Some(Adult)
    case ChildLabel => Some(Child)
    case InfantLabel => Some(Infant)
    case InfantWithoutSeatLabel => Some(Infant)
    case OtherLabel => None
  }

  function OfType(t: PassengerType): PassengerType -> int {
    (u: PassengerType) => if u == t then 1 else 0
  }

  function Needed(inputs: seq<PassengerType>, t: PassengerType): int {
    SumBy(inputs, OfType(t))
  }

  /** The positions in the offer of one kind, in order. */
  function Positions(offer: seq<OfferPassenger>, kind: Option<PassengerType>): seq<nat> {
    if offer == [] then []
    else
      var n := |offer| - 1;
      Positions(offer[..n], kind) + if Normalize(offer[n].kind) == kind then [n] else []
  }

  /** How many of the inputs find the queue of their own type used up. */
  function Overflow(inputs: seq<PassengerType>, offer: seq<OfferPassenger>): nat {
    if inputs == [] then 0
    else
      var n := |inputs| - 1;
      var full := Needed(inputs[..n], inputs[n]) >= |Positions(offer, Some(inputs[n]))|;
      Overflow(inputs[..n], offer) + if full then 1 else 0
  }

  /** The offer position input i gets: the next of its type, else the next spare. */
  function Slot(inputs: seq<PassengerType>, offer: seq<OfferPassenger>, i: nat): Option<nat>
    requires i < |inputs|
  {
    var typed, spare := Positions(offer, Some(inputs[i])), Positions(offer, None);
    var rank, extra := Needed(inputs[..i], inputs[i]), Overflow(inputs[..i], offer);
    if 0 <= rank < |typed| then Some(typed[rank])
    else if extra < |spare| then Some(spare[extra])
    else None
  }

  lemma {:induction false} PositionsFit(offer: seq<OfferPassenger>, kind: Option<PassengerType>)
    ensures var q := Positions(offer, kind);
            && (forall j :: 0 <= j < |q| ==> q[j] < |offer| && Normalize(offer[q[j]].kind) == kind)
            && (forall j, k :: 0 <= j < k < |q| ==> q[j] < q[k])
            && (forall p :: 0 <= p < |offer| && Normalize(offer[p].kind) == kind ==> p in q)
  {
    if offer != [] {
      var n := |offer| - 1;
      PositionsFit(offer[..n], kind);
      var q, earlier := Positions(offer, kind), Positions(offer[..n], kind);
      forall p | 0 <= p < |offer| && Normalize(offer[p].kind) == kind ensures p in q {
        if p < n {
          assert p in earlier by { assert offer[..n][p] == offer[p]; }
        } else {
          assert q[|q| - 1] == n;
        }
      }
    }
  }

  function Queue(offer: seq<OfferPassenger>, kind: Option<PassengerType>): seq<string> {
    if offer == [] then []
    else
      var n := |offer| - 1;
      Queue(offer[..n], kind) + if Normalize(offer[n].kind) == kind then [offer[n].id] else []
  }

  lemma {:induction false} QueueIsPositions(offer: seq<OfferPassenger>, kind: Option<PassengerType>)
    ensures var q := Positions(offer, kind);
            && |Queue(offer, kind)| == |q|
            && (forall j :: 0 <= j < |q| ==> q[j] < |offer| && Queue(offer, kind)[j] == offer[q[j]].id)
  {
    if offer != [] {
      QueueIsPositions(offer[..|offer| - 1], kind);
    }
  }

  lemma {:induction false} NeededIsCount(inputs: seq<PassengerType>, t: PassengerType)
    ensures 0 <= Needed(inputs, t)
  {
    SumNonNegative(inputs, OfType(t));
  }

  function Drop(q: seq<string>, k: int): seq<string> {
    if 0 <= k <= |q| then q[k..] else []
  }

  method GroupByType(offer: seq<OfferPassenger>) returns (byType: map<PassengerType, seq<string>>, untyped: seq<string>)
    ensures forall t: PassengerType :: t in byType && byType[t] == Queue(offer, Some(t))
    ensures untyped == Queue(offer, None)
  {
    byType := map[Adult := [], Child := [], Infant := []];
    untyped := [];
    assert offer[..0] == [];
    forall t: PassengerType ensures t in byType && byType[t] == [] {
      assert t == Adult || t == Child || t == Infant;
    }
    for p := 0 to |offer|
      invariant forall t: PassengerType :: t in byType && byType[t] == Queue(offer[..p], Some(t))
      invariant untyped == Queue(offer[..p], None)
    {
      assert offer[..p + 1][..p] == offer[..p];
      match Normalize(offer[p].kind) {
        case Some(t) => byType := byType[t := byType[t] + [offer[p].id]];
        case None => untyped := untyped + [offer[p].id];
      }
    }
    assert offer[..|offer|] == offer;
  }

  /** What is left of the queues once these inputs have been served. */
  ghost predicate Left(byType: map<PassengerType, seq<string>>, untyped: seq<string>,
                       served: seq<PassengerType>, offer: seq<OfferPassenger>)
  {
    && (forall t: PassengerType :: t in byType && byType[t] == Drop(Queue(offer, Some(t)), Needed(served, t)))
    && Overflow(served, offer) <= |Queue(offer, None)|
    && untyped == Queue(offer, None)[Overflow(served, offer)..]
  }

  predicate Gets(inputs: seq<PassengerType>, offer: seq<OfferPassenger>, i: nat, id: string)
    requires i < |inputs|
  {
    var slot := Slot(inputs, offer, i);
    slot.Some? && slot.value < |offer| && offer[slot.value].id == id
  }

  /** The id of the slot of input i; empty without a slot. */
  function SlotId(inputs: seq<PassengerType>, offer: seq<OfferPassenger>, i: nat): string
    requires i < |inputs|
  {
    var slot := Slot(inputs, offer, i);
    if slot.Some? && slot.value < |offer| then offer[slot.value].id else ""
  }

  /** The id the queues hold ready for input i. */
  function NextId(inputs: seq<PassengerType>, offer: seq<OfferPassenger>, i: nat): string
    requires i < |inputs|
  {
    var typed, spare := Queue(offer, Some(inputs[i])), Queue(offer, None);
    var rank, extra := Needed(inputs[..i], inputs[i]), Overflow(inputs[..i], offer);
    if 0 <= rank < |typed| then typed[rank] else if extra < |spare| then spare[extra] else ""
  }

  lemma NextIdIsSlotId(inputs: seq<PassengerType>, offer: seq<OfferPassenger>, i: nat)
    requires i < |inputs|
    ensures NextId(inputs, offer, i) == SlotId(inputs, offer, i)
  {
    QueueIsPositions(offer, Some(inputs[i]));
    QueueIsPositions(offer, None);
  }

  lemma Served(inputs: seq<PassengerType>, offer: seq<OfferPassenger>, i: nat)
    requires i < |inputs|
    ensures var t := inputs[i];
            && (forall u: PassengerType :: 0 <= Needed(inputs[..i], u)
                  && Needed(inputs[..i + 1], u) == Needed(inputs[..i], u) + if u == t then 1 else 0)
            && Overflow(inputs[..i + 1], offer) ==
                 Overflow(inputs[..i], offer) + (if Needed(inputs[..i], t) >= |Queue(offer, Some(t))| then 1 else 0)
  {
    assert inputs[..i + 1][..i] == inputs[..i];
    forall u: PassengerType
      ensures Needed(inputs[..i + 1], u) == Needed(inputs[..i], u) + (if u == inputs[i] then 1 else 0)
      ensures Needed(inputs[..i], u) >= 0
    {
      NeededIsCount(inputs[..i], u);
    }
    QueueIsPositions(offer, Some(inputs[i]));
  }

  predicate Shifted(byType: map<PassengerType, seq<string>>, untyped: seq<string>, t: PassengerType,
                    id: string, byType': map<PassengerType, seq<string>>, untyped': seq<string>)
    requires t in byType
  {
    if byType[t] != [] then id == byType[t][0] && byType' == byType[t := byType[t][1..]] && untyped' == untyped
    else if untyped != [] then id == untyped[0] && byType' == byType && untyped' == untyped[1..]
    else id == ""
  }

  /** One queue and the spares before and after an id is shifted off, whatever they hold. */
  lemma ShiftedQueues(typed: seq<string>, rank: int, spare: seq<string>, extra: nat, mine: seq<string>,
                      untyped: seq<string>)
    requires rank >= 0 && extra <= |spare|
    requires mine == Drop(typed, rank) && untyped == spare[extra..]
    ensures mine != [] ==> rank < |typed| && mine[0] == typed[rank] && mine[1..] == Drop(typed, rank + 1)
    ensures mine == [] ==> rank >= |typed| && Drop(typed, rank + 1) == []
    ensures untyped != [] ==> extra < |spare| && untyped[0] == spare[extra] && untyped[1..] == spare[extra + 1..]
    ensures untyped == [] ==> extra == |spare|
  {
  }

  lemma ShiftGivesNextId(inputs: seq<PassengerType>, offer: seq<OfferPassenger>, i: nat,
                         byType: map<PassengerType, seq<string>>, untyped: seq<string>,
                         id: string, byType': map<PassengerType, seq<string>>, untyped': seq<string>)
    requires i < |inputs| && Left(byType, untyped, inputs[..i], offer)
    requires Shifted(byType, untyped, inputs[i], id, byType', untyped')
    ensures NextId(inputs, offer, i) == id
  {
    var t := inputs[i];
    NeededIsCount(inputs[..i], t);
    ShiftedQueues(Queue(offer, Some(t)), Needed(inputs[..i], t), Queue(offer, None), Overflow(inputs[..i], offer),
                  byType[t], untyped);
  }

  /** A queue of a type before and after the shift, from the counts alone. */
  lemma TypeAfterShift(typed: seq<string>, rank: int, mine: seq<string>, shifted: bool)
    requires rank >= 0 && mine == Drop(typed, rank)
    ensures Drop(typed, rank + if shifted then 1 else 0) == if shifted && mine != [] then mine[1..] else mine
  {
    ShiftedQueues(typed, rank, [], 0, mine, []);
  }

  lemma ShiftKeepsTypes(inputs: seq<PassengerType>, offer: seq<OfferPassenger>, i: nat,
                        byType: map<PassengerType, seq<string>>, untyped: seq<string>,
                        byType': map<PassengerType, seq<string>>, u: PassengerType)
    requires i < |inputs| && Left(byType, untyped, inputs[..i], offer)
    requires inputs[i] in byType
    requires byType' == if byType[inputs[i]] != [] then byType[inputs[i] := byType[inputs[i]][1..]] else byType
    ensures u in byType' && byType'[u] == Drop(Queue(offer, Some(u)), Needed(inputs[..i + 1], u))
  {
    Served(inputs, offer, i);
    assert u in byType;
    TypeAfterShift(Queue(offer, Some(u)), Needed(inputs[..i], u), byType[u], u == inputs[i]);
  }

  lemma ShiftKeepsSpares(inputs: seq<PassengerType>, offer: seq<OfferPassenger>, i: nat,
                         byType: map<PassengerType, seq<string>>, untyped: seq<string>, untyped': seq<string>)
    requires i < |inputs| && Left(byType, untyped, inputs[..i], offer)
    requires inputs[i] in byType && (byType[inputs[i]] != [] || untyped != [])
    requires untyped' == if byType[inputs[i]] != [] then untyped else untyped[1..]
    ensures Overflow(inputs[..i + 1], offer) <= |Queue(offer, None)|
    ensures untyped' == Queue(offer, None)[Overflow(inputs[..i + 1], offer)..]
  {
    Served(inputs, offer, i);
    ShiftedQueues(Queue(offer, Some(inputs[i])), Needed(inputs[..i], inputs[i]),
                  Queue(offer, None), Overflow(inputs[..i], offer), byType[inputs[i]], untyped);
  }

  lemma ShiftServes(inputs: seq<PassengerType>, offer: seq<OfferPassenger>, i: nat,
                    byType: map<PassengerType, seq<string>>, untyped: seq<string>,
                    id: string, byType': map<PassengerType, seq<string>>, untyped': seq<string>)
    requires i < |inputs| && Left(byType, untyped, inputs[..i], offer)
    requires Shifted(byType, untyped, inputs[i], id, byType', untyped')
    requires byType[inputs[i]] != [] || untyped != []
    ensures Left(byType', untyped', inputs[..i + 1], offer)
  {
    forall u: PassengerType
      ensures u in byType' && byType'[u] == Drop(Queue(offer, Some(u)), Needed(inputs[..i + 1], u))
    {
      ShiftKeepsTypes(inputs, offer, i, byType, untyped, byType', u);
    }
    ShiftKeepsSpares(inputs, offer, i, byType, untyped, untyped');
  }

  /** The next id of the type, else the next spare one; empty when neither is left. */
  method Shift(byType: map<PassengerType, seq<string>>, untyped: seq<string>, t: PassengerType)
    returns (id: string, byType': map<PassengerType, seq<string>>, untyped': seq<string>)
    requires t in byType
    ensures Shifted(byType, untyped, t, id, byType', untyped')
  {
    id, byType', untyped' := "", byType, untyped;
    if byType[t] != [] {
      id := byType[t][0];
      byType' := byType[t := byType[t][1..]];
    } else if untyped != [] {
      id := untyped[0];
      untyped' := untyped[1..];
    }
  }

  /** `Failure(i)` names the first input that gets no id. */
  function Pairs(inputs: seq<PassengerType>, offer: seq<OfferPassenger>): Result<seq<string>, nat> {
    if inputs == [] then Success([])
    else
      var n := |inputs| - 1;
      var ids :- Pairs(inputs[..n], offer);
      var id := SlotId(inputs, offer, n);
      if id == "" then Failure(n) else Success(ids + [id])
  }

  lemma PairsStep(inputs: seq<PassengerType>, offer: seq<OfferPassenger>, i: nat)
    requires i < |inputs| && Pairs(inputs[..i], offer).Success?
    ensures var id := SlotId(inputs, offer, i);
            Pairs(inputs[..i + 1], offer) ==
              if id == "" then Failure(i) else Success(Pairs(inputs[..i], offer).value + [id])
  {
    assert inputs[..i + 1][..i] == inputs[..i];
  }

  lemma {:induction false} PairsFails(inputs: seq<PassengerType>, offer: seq<OfferPassenger>, k: nat)
    requires k <= |inputs| && Pairs(inputs[..k], offer).Failure?
    ensures Pairs(inputs, offer) == Pairs(inputs[..k], offer)
  {
    if k < |inputs| {
      assert inputs[..|inputs| - 1][..k] == inputs[..k];
      PairsFails(inputs[..|inputs| - 1], offer, k);
    } else {
      assert inputs[..k] == inputs;
    }
  }

  lemma SlotOfPrefix(inputs: seq<PassengerType>, offer: seq<OfferPassenger>, n: nat, i: nat)
    requires i < n <= |inputs|
    ensures Slot(inputs[..n], offer, i) == Slot(inputs, offer, i)
  {
    assert inputs[..n][..i] == inputs[..i];
  }

  predicate AreSlots(inputs: seq<PassengerType>, offer: seq<OfferPassenger>, ids: seq<string>) {
    |ids| == |inputs| && forall i :: 0 <= i < |inputs| ==> Gets(inputs, offer, i, ids[i]) && ids[i] != ""
  }

  lemma AreSlotsSnoc(inputs: seq<PassengerType>, offer: seq<OfferPassenger>, ids: seq<string>, id: string)
    requires inputs != [] && AreSlots(inputs[..|inputs| - 1], offer, ids)
    requires id == SlotId(inputs, offer, |inputs| - 1) && id != ""
    ensures AreSlots(inputs, offer, ids + [id])
  {
    var n := |inputs| - 1;
    forall i | 0 <= i < |inputs| ensures Gets(inputs, offer, i, (ids + [id])[i]) && (ids + [id])[i] != "" {
      if i < n {
        SlotOfPrefix(inputs, offer, n, i);
        assert Gets(inputs[..n], offer, i, ids[i]);
      }
    }
  }

  lemma {:induction false} PairsAreSlots(inputs: seq<PassengerType>, offer: seq<OfferPassenger>)
    ensures match Pairs(inputs, offer)
            case Success(ids) => AreSlots(inputs, offer, ids)
            case Failure(i) => i < |inputs| && SlotId(inputs, offer, i) == ""
  {
    if inputs != [] {
      var n := |inputs| - 1;
      PairsAreSlots(inputs[..n], offer);
      match Pairs(inputs[..n], offer)
      case Success(ids) =>
        if SlotId(inputs, offer, n) != "" {
          AreSlotsSnoc(inputs, offer, ids, SlotId(inputs, offer, n));
        }
      case Failure(i) => SlotOfPrefix(inputs, offer, n, i);
    }
  }

  /** Where the loop stands before input i. */
  ghost predicate Progress(inputs: seq<PassengerType>, offer: seq<OfferPassenger>, i: nat,
                           byType: map<PassengerType, seq<string>>, untyped: seq<string>, ids: seq<string>)
    requires i <= |inputs|
  {
    Left(byType, untyped, inputs[..i], offer) && Pairs(inputs[..i], offer) == Success(ids)
  }

  lemma NoneServed(offer: seq<OfferPassenger>, byType: map<PassengerType, seq<string>>, untyped: seq<string>)
    requires forall t: PassengerType :: t in byType && byType[t] == Queue(offer, Some(t))
    requires untyped == Queue(offer, None)
    ensures Left(byType, untyped, [], offer)
  {
    forall t: PassengerType ensures Drop(Queue(offer, Some(t)), Needed([], t)) == Queue(offer, Some(t)) {}
  }

  lemma ProgressStarts(inputs: seq<PassengerType>, offer: seq<OfferPassenger>,
                       byType: map<PassengerType, seq<string>>, untyped: seq<string>)
    requires forall t: PassengerType :: t in byType && byType[t] == Queue(offer, Some(t))
    requires untyped == Queue(offer, None)
    ensures Progress(inputs, offer, 0, byType, untyped, [])
  {
    NoneServed(offer, byType, untyped);
    assert inputs[..0] == [];
  }

  /** One input: an empty id is the failure of the whole, any other one goes on. */
  lemma ProgressStep(inputs: seq<PassengerType>, offer: seq<OfferPassenger>, i: nat,
                     byType: map<PassengerType, seq<string>>, untyped: seq<string>, ids: seq<string>,
                     id: string, byType': map<PassengerType, seq<string>>, untyped': seq<string>)
    requires i < |inputs| && Progress(inputs, offer, i, byType, untyped, ids)
    requires Shifted(byType, untyped, inputs[i], id, byType', untyped')
    ensures id == "" ==> Pairs(inputs, offer) == Failure(i)
    ensures id != "" ==> Progress(inputs, offer, i + 1, byType', untyped', ids + [id])
  {
    ShiftGivesNextId(inputs, offer, i, byType, untyped, id, byType', untyped');
    NextIdIsSlotId(inputs, offer, i);
    PairsStep(inputs, offer, i);
    if id == "" {
      PairsFails(inputs, offer, i + 1);
    } else {
      ShiftServes(inputs, offer, i, byType, untyped, id, byType', untyped');
    }
  }

  /** Shifts an id off for input i and keeps account of where the loop stands. */
  method Serve(inputs: seq<PassengerType>, ghost offer: seq<OfferPassenger>, i: nat,
               byType: map<PassengerType, seq<string>>, untyped: seq<string>, ghost ids: seq<string>)
    returns (id: string, byType': map<PassengerType, seq<string>>, untyped': seq<string>)
    requires i < |inputs| && Progress(inputs, offer, i, byType, untyped, ids)
    ensures id == "" ==> Pairs(inputs, offer) == Failure(i)
    ensures id != "" ==> Progress(inputs, offer, i + 1, byType', untyped', ids + [id])
  {
    id, byType', untyped' := Shift(byType, untyped, inputs[i]);
    ProgressStep(inputs, offer, i, byType, untyped, ids, id, byType', untyped');
  }

  lemma ProgressEnds(inputs: seq<PassengerType>, offer: seq<OfferPassenger>,
                     byType: map<PassengerType, seq<string>>, untyped: seq<string>, ids: seq<string>)
    requires Progress(inputs, offer, |inputs|, byType, untyped, ids)
    ensures Pairs(inputs, offer) == Success(ids)
  {
    assert inputs[..|inputs|] == inputs;
  }

  method AssignSupplierPassengerIds(inputs: seq<PassengerType>, offer: seq<OfferPassenger>)
    returns (r: Result<seq<string>, nat>)
    ensures r == Pairs(inputs, offer)
  {
    var byType, untyped := GroupByType(offer);
    var ids: seq<string> := [];
    ProgressStarts(inputs, offer, byType, untyped);
    for i := 0 to |inputs|
      invariant Progress(inputs, offer, i, byType, untyped, ids)
    {
      var id;
      id, byType, untyped := Serve(inputs, offer, i, byType, untyped, ids);
      if id == "" {
        return Failure(i);
      }
      ids := ids + [id];
    }
    ProgressEnds(inputs, offer, byType, untyped, ids);
    return Success(ids);
  }

  // The greedy pairing against every possible pairing.

  /** Whom an offer passenger with this label can be: only one without a recognised label fits anybody. */
  predicate CanBe(kind: Label, t: PassengerType) {
    && (kind == AdultLabel ==> t == Adult)
    && (kind == ChildLabel ==> t == Child)
    && (kind == InfantLabel || kind == InfantWithoutSeatLabel ==> t == Infant)
  }

  lemma CanBeItsTypeOrAnybody(kind: Label, t: PassengerType)
    ensures CanBe(kind, t) <==> Normalize(kind) in {Some(t), None}
  {
  }

  /** A pairing gives each input an offer passenger who can be that input, and none of them twice. */
  ghost predicate Pairing(inputs: seq<PassengerType>, offer: seq<OfferPassenger>, m: seq<nat>) {
    && |m| == |inputs|
    && (forall i :: 0 <= i < |m| ==> m[i] < |offer| && CanBe(offer[m[i]].kind, inputs[i]))
    && (forall i, j :: 0 <= i < j < |m| ==> m[i] != m[j])
  }

  predicate AllSlots(inputs: seq<PassengerType>, offer: seq<OfferPassenger>) {
    forall i :: 0 <= i < |inputs| ==> Slot(inputs, offer, i).Some?
  }

  function Greedy(inputs: seq<PassengerType>, offer: seq<OfferPassenger>): seq<nat>
    requires AllSlots(inputs, offer)
  {
    seq(|inputs|, i requires 0 <= i < |inputs| => Slot(inputs, offer, i).value)
  }

  predicate Typed(inputs: seq<PassengerType>, offer: seq<OfferPassenger>, i: nat)
    requires i < |inputs|
  {
    Needed(inputs[..i], inputs[i]) < |Positions(offer, Some(inputs[i]))|
  }

  /** Between two inputs the counts grow, by one at least for the type, or the spares, the first one used. */
  lemma {:induction false} CountsGrow(inputs: seq<PassengerType>, offer: seq<OfferPassenger>, i: nat, j: nat)
    requires i < j <= |inputs|
    ensures Needed(inputs[..j], inputs[i]) >= Needed(inputs[..i], inputs[i]) + 1 >= 1
    ensures Overflow(inputs[..j], offer) >= Overflow(inputs[..i], offer) + (if Typed(inputs, offer, i) then 0 else 1)
  {
    assert inputs[..j][..j - 1] == inputs[..j - 1];
    NeededIsCount(inputs[..i], inputs[i]);
    if j > i + 1 {
      CountsGrow(inputs, offer, i, j - 1);
    }
  }

  lemma GreedyIsPairing(inputs: seq<PassengerType>, offer: seq<OfferPassenger>)
    requires AllSlots(inputs, offer)
    ensures Pairing(inputs, offer, Greedy(inputs, offer))
  {
    var m := Greedy(inputs, offer);
    forall i | 0 <= i < |m|
      ensures m[i] < |offer| && Normalize(offer[m[i]].kind) == if Typed(inputs, offer, i) then Some(inputs[i]) else None
    {
      NeededIsCount(inputs[..i], inputs[i]);
      PositionsFit(offer, Some(inputs[i]));
      PositionsFit(offer, None);
    }
    forall i, j | 0 <= i < j < |m| ensures m[i] != m[j] {
      SlotsClimb(inputs, offer, i, j);
    }
  }

  /** Inputs of one type keep their order on the offer, and so do the inputs that take spares. */
  lemma SlotsClimb(inputs: seq<PassengerType>, offer: seq<OfferPassenger>, i: nat, j: nat)
    requires i < j < |inputs| && Slot(inputs, offer, i).Some? && Slot(inputs, offer, j).Some?
    ensures Slot(inputs, offer, i) != Slot(inputs, offer, j)
    ensures Typed(inputs, offer, i) && Typed(inputs, offer, j) && inputs[i] == inputs[j] ==>
              Slot(inputs, offer, i).value < Slot(inputs, offer, j).value
    ensures !Typed(inputs, offer, i) && !Typed(inputs, offer, j) ==>
              Slot(inputs, offer, i).value < Slot(inputs, offer, j).value
  {
    CountsGrow(inputs, offer, i, j);
    NeededIsCount(inputs[..i], inputs[i]);
    NeededIsCount(inputs[..j], inputs[j]);
    PositionsFit(offer, Some(inputs[i]));
    PositionsFit(offer, Some(inputs[j]));
    PositionsFit(offer, None);
  }

  function Max(a: int, b: int): int { if a < b then b else a }

  /** How many inputs of a type the offer has no passenger of that type for. */
  function Missing(inputs: seq<PassengerType>, offer: seq<OfferPassenger>, t: PassengerType): int {
    Max(0, Needed(inputs, t) - |Positions(offer, Some(t))|)
  }

  function Shortage(inputs: seq<PassengerType>, offer: seq<OfferPassenger>): int {
    Missing(inputs, offer, Adult) + Missing(inputs, offer, Child) + Missing(inputs, offer, Infant)
  }

  lemma {:induction false} OverflowIsShortage(inputs: seq<PassengerType>, offer: seq<OfferPassenger>)
    ensures Overflow(inputs, offer) == Shortage(inputs, offer)
  {
    if inputs != [] {
      var n := |inputs| - 1;
      OverflowIsShortage(inputs[..n], offer);
      NeededIsCount(inputs[..n], inputs[n]);
    }
  }

  lemma AllSlotsSnoc(inputs: seq<PassengerType>, offer: seq<OfferPassenger>)
    requires inputs != []
    ensures var n := |inputs| - 1;
            AllSlots(inputs, offer) <==> AllSlots(inputs[..n], offer) && Slot(inputs, offer, n).Some?
  {
    var n := |inputs| - 1;
    forall i | 0 <= i < n ensures Slot(inputs, offer, i) == Slot(inputs[..n], offer, i) {
      SlotOfPrefix(inputs, offer, n, i);
    }
    if AllSlots(inputs[..n], offer) && Slot(inputs, offer, n).Some? {
      forall i | 0 <= i < |inputs| ensures Slot(inputs, offer, i).Some? {
        if i < n { assert Slot(inputs[..n], offer, i).Some?; }
      }
    }
    if AllSlots(inputs, offer) {
      forall i | 0 <= i < n ensures Slot(inputs[..n], offer, i).Some? {
        assert Slot(inputs, offer, i).Some?;
      }
    }
  }

  lemma LastSlot(inputs: seq<PassengerType>, offer: seq<OfferPassenger>)
    requires inputs != []
    ensures var n := |inputs| - 1;
            Slot(inputs, offer, n).Some? && Overflow(inputs[..n], offer) <= |Positions(offer, None)| <==>
              Overflow(inputs, offer) <= |Positions(offer, None)|
  {
    NeededIsCount(inputs[..|inputs| - 1], inputs[|inputs| - 1]);
  }

  lemma {:induction false} SlotsNeedSpares(inputs: seq<PassengerType>, offer: seq<OfferPassenger>)
    ensures AllSlots(inputs, offer) <==> Overflow(inputs, offer) <= |Positions(offer, None)|
  {
    if inputs != [] {
      SlotsNeedSpares(inputs[..|inputs| - 1], offer);
      AllSlotsSnoc(inputs, offer);
      LastSlot(inputs, offer);
    }
  }

  // Counting a pairing: the inputs of a type that got typed passengers fit among those passengers.

  lemma {:induction false} Pigeonhole(from: set<nat>, m: seq<nat>, into: set<nat>)
    requires forall i :: i in from ==> i < |m| && m[i] in into
    requires forall i, j :: i in from && j in from && i != j ==> m[i] != m[j]
    ensures |from| <= |into|
    decreases |from|
  {
    if from != {} {
      var i :| i in from;
      Pigeonhole(from - {i}, m, into - {m[i]});
    }
  }

  function InputsOf(inputs: seq<PassengerType>, t: PassengerType): set<nat> {
    set i: nat | i < |inputs| && inputs[i] == t
  }

  function PassengersOf(offer: seq<OfferPassenger>, kind: Option<PassengerType>): set<nat> {
    set p: nat | p < |offer| && Normalize(offer[p].kind) == kind
  }

  lemma {:induction false} NeededIsSize(inputs: seq<PassengerType>, t: PassengerType)
    ensures Needed(inputs, t) == |InputsOf(inputs, t)|
  {
    if inputs != [] {
      var n := |inputs| - 1;
      NeededIsSize(inputs[..n], t);
      assert InputsOf(inputs, t) == InputsOf(inputs[..n], t) + if inputs[n] == t then {n} else {};
    }
  }

  lemma {:induction false} PositionsAreAll(offer: seq<OfferPassenger>, kind: Option<PassengerType>)
    ensures |Positions(offer, kind)| == |PassengersOf(offer, kind)|
  {
    if offer != [] {
      var n := |offer| - 1;
      PositionsAreAll(offer[..n], kind);
      assert PassengersOf(offer, kind) ==
             PassengersOf(offer[..n], kind) + if Normalize(offer[n].kind) == kind then {n} else {};
    }
  }

  /** The inputs of a type that a pairing sends to passengers without a type. */
  function OnSpares(inputs: seq<PassengerType>, offer: seq<OfferPassenger>, m: seq<nat>, t: PassengerType): set<nat>
    requires |m| == |inputs|
  {
    set i: nat | i < |inputs| && inputs[i] == t && m[i] in PassengersOf(offer, None)
  }

  lemma TypedOrSpare(inputs: seq<PassengerType>, offer: seq<OfferPassenger>, m: seq<nat>, i: nat)
    requires Pairing(inputs, offer, m) && i < |m|
    ensures m[i] in PassengersOf(offer, Some(inputs[i])) || m[i] in PassengersOf(offer, None)
  {
    CanBeItsTypeOrAnybody(offer[m[i]].kind, inputs[i]);
  }

  lemma TypeUsesSpares(inputs: seq<PassengerType>, offer: seq<OfferPassenger>, m: seq<nat>, t: PassengerType)
    requires Pairing(inputs, offer, m)
    ensures Missing(inputs, offer, t) <= |OnSpares(inputs, offer, m, t)|
  {
    var all, spare := InputsOf(inputs, t), OnSpares(inputs, offer, m, t);
    NeededIsSize(inputs, t);
    PositionsAreAll(offer, Some(t));
    forall i | i in all - spare ensures m[i] in PassengersOf(offer, Some(t)) {
      TypedOrSpare(inputs, offer, m, i);
    }
    Pigeonhole(all - spare, m, PassengersOf(offer, Some(t)));
    assert all == (all - spare) + spare;
  }

  lemma DisjointSizes(a: set<nat>, b: set<nat>, c: set<nat>)
    requires a !! b && a !! c && b !! c
    ensures |a + b + c| == |a| + |b| + |c|
  {
    assert |a + b| == |a| + |b|;
  }

  lemma SparesAreShared(inputs: seq<PassengerType>, offer: seq<OfferPassenger>, m: seq<nat>)
    requires Pairing(inputs, offer, m)
    ensures |OnSpares(inputs, offer, m, Adult)| + |OnSpares(inputs, offer, m, Child)|
            + |OnSpares(inputs, offer, m, Infant)|
            <= |Positions(offer, None)|
  {
    var a, c := OnSpares(inputs, offer, m, Adult), OnSpares(inputs, offer, m, Child);
    var b := OnSpares(inputs, offer, m, Infant);
    Pigeonhole(a + c + b, m, PassengersOf(offer, None));
    PositionsAreAll(offer, None);
    DisjointSizes(a, c, b);
  }

  lemma PairingNeedsSpares(inputs: seq<PassengerType>, offer: seq<OfferPassenger>, m: seq<nat>)
    requires Pairing(inputs, offer, m)
    ensures Shortage(inputs, offer) <= |Positions(offer, None)|
  {
    TypeUsesSpares(inputs, offer, m, Adult);
    TypeUsesSpares(inputs, offer, m, Child);
    TypeUsesSpares(inputs, offer, m, Infant);
    SparesAreShared(inputs, offer, m);
  }

  /**
   * Sound and complete: the greedy pairing finds a passenger for every input exactly when some pairing does,
   * and exactly when the types fall short by no more than the spares.
   */
  lemma GreedySucceedsExactlyWhenPossible(inputs: seq<PassengerType>, offer: seq<OfferPassenger>)
    ensures AllSlots(inputs, offer) <==> Shortage(inputs, offer) <= |Positions(offer, None)|
    ensures AllSlots(inputs, offer) <==> exists m :: Pairing(inputs, offer, m)
  {
    SlotsNeedSpares(inputs, offer);
    OverflowIsShortage(inputs, offer);
    if AllSlots(inputs, offer) {
      GreedyIsPairing(inputs, offer);
    }
    if m :| Pairing(inputs, offer, m) {
      PairingNeedsSpares(inputs, offer, m);
    }
  }

  function Range(n: nat): set<nat> {
    if n == 0 then {} else Range(n - 1) + {n - 1}
  }

  lemma {:induction false} RangeSize(n: nat)
    ensures |Range(n)| == n
    ensures forall i: nat :: i in Range(n) <==> i < n
  {
    if n > 0 {
      RangeSize(n - 1);
    }
  }

  function Image(m: seq<nat>): set<nat> {
    set p | p in m
  }

  lemma {:induction false} DistinctImage(m: seq<nat>)
    requires forall i, j :: 0 <= i < j < |m| ==> m[i] != m[j]
    ensures |Image(m)| == |m|
  {
    if m != [] {
      var n := |m| - 1;
      DistinctImage(m[..n]);
      assert m == m[..n] + [m[n]];
      assert Image(m) == Image(m[..n]) + {m[n]};
      assert m[n] !in m[..n];
    }
  }

  /** With as many inputs as offer passengers, every offer passenger is used, and so exactly once. */
  lemma PairingIsPermutation(inputs: seq<PassengerType>, offer: seq<OfferPassenger>, m: seq<nat>, p: nat)
    requires Pairing(inputs, offer, m) && |inputs| == |offer| && p < |offer|
    ensures p in m
  {
    RangeSize(|offer|);
    DistinctImage(m);
    if p !in m {
      SubsetSize(Image(m), Range(|offer|) - {p});
    }
  }

  /**
   * Binding the submitted passengers succeeds exactly when they can be paired with the offer at all, and then
   * gives each the id of its own offer passenger. The supplier's ids are taken to be non-empty.
   */
  lemma AssignmentSucceedsExactlyWhenPossible(inputs: seq<PassengerType>, offer: seq<OfferPassenger>)
    requires forall p :: 0 <= p < |offer| ==> offer[p].id != ""
    ensures Pairs(inputs, offer).Success? <==> Shortage(inputs, offer) <= |Positions(offer, None)|
    ensures Pairs(inputs, offer).Success? <==> exists m :: Pairing(inputs, offer, m)
    ensures Pairs(inputs, offer).Success? ==>
              exists m :: Pairing(inputs, offer, m) && |Pairs(inputs, offer).value| == |m|
                && forall i :: 0 <= i < |m| ==> Pairs(inputs, offer).value[i] == offer[m[i]].id
  {
    PairsAreSlots(inputs, offer);
    GreedySucceedsExactlyWhenPossible(inputs, offer);
    if Pairs(inputs, offer).Success? {
      forall i | 0 <= i < |inputs| ensures Slot(inputs, offer, i).Some? {
        assert Gets(inputs, offer, i, Pairs(inputs, offer).value[i]);
      }
      GreedyIsPairing(inputs, offer);
      var m := Greedy(inputs, offer);
      forall i | 0 <= i < |m| ensures Pairs(inputs, offer).value[i] == offer[m[i]].id {
        assert Gets(inputs, offer, i, Pairs(inputs, offer).value[i]);
      }
    } else {
      SlotIdIsEmptyOnlyWithoutSlot(inputs, offer, Pairs(inputs, offer).error);
    }
  }

  lemma SlotIdIsEmptyOnlyWithoutSlot(inputs: seq<PassengerType>, offer: seq<OfferPassenger>, i: nat)
    requires i < |inputs| && SlotId(inputs, offer, i) == ""
    requires forall p :: 0 <= p < |offer| ==> offer[p].id != ""
    ensures !AllSlots(inputs, offer)
  {
    PositionsFit(offer, Some(inputs[i]));
    PositionsFit(offer, None);
    assert Slot(inputs, offer, i).None?;
  }

  lemma {:induction false} FailureIsFirst(inputs: seq<PassengerType>, offer: seq<OfferPassenger>)
    requires Pairs(inputs, offer).Failure?
    ensures var i := Pairs(inputs, offer).error;
            i < |inputs| && Pairs(inputs[..i], offer).Success? && Pairs(inputs[..i + 1], offer).Failure?
  {
    var n := |inputs| - 1;
    if Pairs(inputs[..n], offer).Failure? {
      FailureIsFirst(inputs[..n], offer);
      var i := Pairs(inputs, offer).error;
      assert inputs[..n][..i] == inputs[..i] && inputs[..n][..i + 1] == inputs[..i + 1];
    } else {
      assert inputs[..n + 1] == inputs;
    }
  }

  ghost predicate CanBePaired(inputs: seq<PassengerType>, offer: seq<OfferPassenger>) {
    exists m :: Pairing(inputs, offer, m)
  }

  /** The input that is refused is the first with which the submission cannot be paired any more. */
  lemma RefusedInputIsTheFirst(inputs: seq<PassengerType>, offer: seq<OfferPassenger>)
    requires forall p :: 0 <= p < |offer| ==> offer[p].id != ""
    requires Pairs(inputs, offer).Failure?
    ensures var i := Pairs(inputs, offer).error;
            && i < |inputs|
            && CanBePaired(inputs[..i], offer) && !CanBePaired(inputs[..i + 1], offer)
  {
    FailureIsFirst(inputs, offer);
    AssignmentSucceedsExactlyWhenPossible(inputs[..Pairs(inputs, offer).error], offer);
    AssignmentSucceedsExactlyWhenPossible(inputs[..Pairs(inputs, offer).error + 1], offer);
  }
}

/**
 What every operation of a room keeps: nobody sits twice, transfers and the seats waiting for them match, the winner
 is known exactly when the match is over, the remembered operations stay within their bound, and in the single-side
 mode no person sits on the blue side. A standard room, one that is bound to no scenario and never enters that mode,
 keeps more: its units have distinct ids, and its seats can be saved and read back.
 */
module RoomInvariants {
  import opened Listings
  import opened Options
  import opened RoomModel

  /** The rooms that are looked at: any at all, or standard ones only. */
  datatype Regime = Any | Standard

  /** What the validity of a seat depends on besides the seat. */
  datatype Basis = Basis(regime: Regime, templates: Catalog, limits: Limits, oneSided: bool, nextUnit: nat)

  function BasisOf(g: Regime, r: Room): Basis { Basis(g, r.templates, r.limits, r.vmf, r.nextUnit) }

  /** The opponent's command post is only ever the opponent's blue commander, and numbers are handed out in order. */
  predicate UnitOk(b: Basis, id: SeatId, seat: Seat) {
    match seat.unitId
    case CommandPost(side) => side == Blue && id == BLUE_COMMANDER && seat.controller == Ai
    case Allocated(_, _, number) => number < b.nextUnit
    case _ => false
  }

  /** What a seat of a standard room is besides. */
  predicate StandardSeatOk(b: Basis, id: SeatId, seat: Seat) {
    && ValidSeat(b.templates, b.limits, false, id, seat.template) && UnitOk(b, id, seat) && seat.source.None?
    && (seat.ready ==> seat.deployed)
    && (seat.controller.Ai? ==> id.side == Blue)
  }

  predicate SeatOk(b: Basis, id: SeatId, seat: Seat) {
    && seat.seatId == id
    && (seat.controller.Human? ==> seat.controller.user > 0 && !(b.oneSided && id.side == Blue))
    && (seat.pendingTransfer ==> seat.controller.Human? && id.kind != Commander)
    && (b.regime.Standard? ==> StandardSeatOk(b, id, seat))
  }

  ghost predicate SeatsOk(b: Basis, seats: Seats) { forall id :: id in seats ==> SeatOk(b, id, seats[id]) }

  /** Each person holds at most one seat. */
  ghost predicate OneSeatEach(seats: Seats) {
    forall a, c, user :: Holds(seats, a, user) && Holds(seats, c, user) ==> a == c
  }

  lemma SeatOfIs(seats: Seats, id: SeatId, user: int)
    requires OneSeatEach(seats) && Holds(seats, id, user)
    ensures SeatOf(seats, user) == Some(id)
  {
  }

  predicate SameUnit(seats: Seats, a: SeatId, c: SeatId) {
    a in seats && c in seats && seats[a].unitId == seats[c].unitId
  }

  /** No two seats have the same unit. */
  ghost predicate UnitsApart(seats: Seats) { forall a, c :: SameUnit(seats, a, c) ==> a == c }

  ghost predicate Seating(b: Basis, seats: Seats) {
    SeatsOk(b, seats) && OneSeatEach(seats) && (b.regime.Standard? ==> UnitsApart(seats))
  }

  predicate Waiting(seats: Seats, id: SeatId, user: int) { Holds(seats, id, user) && seats[id].pendingTransfer }

  ghost predicate TransferOk(templates: Catalog, seats: Seats, user: int, t: Transfer) {
    && t.user == user && t.template == For(t.target.kind) && t.template in templates && t.revision > 0
    && exists id :: Waiting(seats, id, user) && id.side == t.target.side
  }

  /** Every transfer belongs to somebody who is seated on its side and waits for it, and everybody waiting has one. */
  ghost predicate TransfersOk(templates: Catalog, seats: Seats, transfers: map<int, Transfer>) {
    && (forall user :: user in transfers ==> TransferOk(templates, seats, user, transfers[user]))
    && (forall id, user :: Waiting(seats, id, user) ==> user in transfers)
  }

  predicate Recalled(operations: map<string, nat>, id: string) { id in operations && operations[id] > 0 && id != "" }

  ghost predicate MemoryOk(m: Memory) {
    && Lists(m.order, m.operations.Keys) && |m.order| <= MAX_OPERATIONS
    && forall id :: id in m.operations ==> Recalled(m.operations, id)
  }

  predicate MatchOk(r: Room) {
    && (r.winner.Some? <==> r.phase == Finished) && (r.vmf ==> r.mode == Pvp)
    && r.revision > 0 && r.nextUnit > 0 && r.rng != 0
  }

  const UNBOUND := Binding(map[], map[])

  /** A standard room has its templates, is bound to no scenario and is not in the single-side mode. */
  predicate RegimeOk(g: Regime, r: Room) { g.Standard? ==> Complete(r.templates) && r.bound == UNBOUND && !r.vmf }

  datatype Aspect = RulesAspect | SeatsAspect | TransfersAspect | MemoryAspect | MatchAspect

  ghost predicate Meets(g: Regime, r: Room, aspect: Aspect) {
    match aspect
    case RulesAspect => RegimeOk(g, r)
    case SeatsAspect => Seating(BasisOf(g, r), r.seats)
    case TransfersAspect => TransfersOk(r.templates, r.seats, r.transfers)
    case MemoryAspect => MemoryOk(Memory(r.operations, r.order))
    case MatchAspect => MatchOk(r)
  }

  /** The room is in order, in every respect. */
  ghost predicate Sound(g: Regime, r: Room) { forall aspect :: Meets(g, r, aspect) }

  lemma SoundMeans(g: Regime, r: Room)
    requires Sound(g, r)
    ensures RegimeOk(g, r) && Seating(BasisOf(g, r), r.seats) && TransfersOk(r.templates, r.seats, r.transfers)
    ensures MemoryOk(Memory(r.operations, r.order)) && MatchOk(r)
  {
    assert Meets(g, r, RulesAspect) && Meets(g, r, SeatsAspect) && Meets(g, r, TransfersAspect)
           && Meets(g, r, MemoryAspect) && Meets(g, r, MatchAspect);
  }

  lemma MatchMeans(g: Regime, r: Room)
    requires Sound(g, r)
    ensures MatchOk(r)
  {
    assert Meets(g, r, MatchAspect);
  }

  lemma SoundWhen(g: Regime, r: Room)
    requires RegimeOk(g, r) && Seating(BasisOf(g, r), r.seats) && TransfersOk(r.templates, r.seats, r.transfers)
    requires MemoryOk(Memory(r.operations, r.order)) && MatchOk(r)
    ensures Sound(g, r)
  {
    forall aspect ensures Meets(g, r, aspect) { match aspect case _ => }
  }

  /** A room that is in order as a standard one is in order. */
  lemma StandardIsSound(r: Room)
    requires Sound(Standard, r)
    ensures Sound(Any, r)
  {
    SoundMeans(Standard, r);
    forall id | id in r.seats ensures SeatOk(BasisOf(Any, r), id, r.seats[id]) {
      assert SeatOk(BasisOf(Standard, r), id, r.seats[id]);
    }
    SoundWhen(Any, r);
  }

  /* ------------------------------------------------------------------ seatings */

  /** The basis may only have handed out further numbers. */
  predicate Extends(b: Basis, later: Basis) { later == b.(nextUnit := later.nextUnit) && later.nextUnit >= b.nextUnit }

  lemma SeatingExtends(b: Basis, later: Basis, seats: Seats)
    requires Seating(b, seats) && Extends(b, later)
    ensures Seating(later, seats)
  {
    forall id | id in seats ensures SeatOk(later, id, seats[id]) { assert SeatOk(b, id, seats[id]); }
  }

  ghost predicate UnitIsNew(seats: Seats, id: SeatId, unit: UnitId) {
    forall other :: other in seats && other != id ==> seats[other].unitId != unit
  }

  ghost predicate ControllerIsNew(seats: Seats, id: SeatId, controller: Controller) {
    controller.Human? ==> forall other :: other != id ==> !Holds(seats, other, controller.user)
  }

  lemma PuttingKeepsSeating(b: Basis, later: Basis, seats: Seats, id: SeatId, seat: Seat)
    requires Seating(b, seats) && Extends(b, later) && SeatOk(later, id, seat)
    requires b.regime.Standard? ==> UnitIsNew(seats, id, seat.unitId)
    requires ControllerIsNew(seats, id, seat.controller)
    ensures Seating(later, seats[id := seat])
  {
    var t := seats[id := seat];
    SeatingExtends(b, later, seats);
    forall a, c, user | Holds(t, a, user) && Holds(t, c, user) ensures a == c {
      if a != id && c != id { assert Holds(seats, a, user) && Holds(seats, c, user); }
      else if a != id { assert Holds(seats, a, user); }
      else if c != id { assert Holds(seats, c, user); }
    }
    if b.regime.Standard? {
      forall a, c | SameUnit(t, a, c) ensures a == c { if a != id && c != id { assert SameUnit(seats, a, c); } }
    }
  }

  predicate Part(part: Seats, seats: Seats) { forall id :: id in part ==> id in seats && part[id] == seats[id] }

  lemma PartsKeepSeating(b: Basis, seats: Seats, part: Seats)
    requires Seating(b, seats) && Part(part, seats)
    ensures Seating(b, part)
  {
    forall a, c, user | Holds(part, a, user) && Holds(part, c, user) ensures a == c {
      assert Holds(seats, a, user) && Holds(seats, c, user);
    }
    if b.regime.Standard? {
      forall a, c | SameUnit(part, a, c) ensures a == c { assert SameUnit(seats, a, c); }
    }
  }

  lemma NextNumberIsNew(b: Basis, seats: Seats, id: SeatId, side: Side, template: Template)
    requires Seating(b, seats) && b.regime.Standard?
    ensures UnitIsNew(seats, id, Allocated(side, template, b.nextUnit))
  {
    forall other | other in seats && other != id
      ensures seats[other].unitId != Allocated(side, template, b.nextUnit)
    {
      assert SeatOk(b, other, seats[other]);
    }
  }

  lemma OwnUnitIsNew(seats: Seats, id: SeatId)
    requires UnitsApart(seats) && id in seats
    ensures UnitIsNew(seats, id, seats[id].unitId)
  {
    forall other | other in seats && other != id ensures seats[other].unitId != seats[id].unitId {
      assert !SameUnit(seats, other, id);
    }
  }

  lemma OwnControllerIsNew(seats: Seats, id: SeatId)
    requires OneSeatEach(seats) && id in seats
    ensures ControllerIsNew(seats, id, seats[id].controller)
  {
    if seats[id].controller.Human? {
      var user := seats[id].controller.user;
      forall other | other != id ensures !Holds(seats, other, user) {
        assert Holds(seats, other, user) ==> Holds(seats, id, user);
      }
    }
  }

  /** A seat that differs only in what has no bearing on who sits where. */
  predicate Alike(g: Regime, seat: Seat, other: Seat) {
    && other.seatId == seat.seatId && other.controller == seat.controller
    && (other.pendingTransfer ==> seat.pendingTransfer)
    && (g.Standard? ==>
          && other.template == seat.template && other.unitId == seat.unitId && other.source == seat.source
          && (other.ready ==> other.deployed))
  }

  lemma ChangingKeepsSeating(b: Basis, seats: Seats, id: SeatId, seat: Seat)
    requires Seating(b, seats) && id in seats && Alike(b.regime, seats[id], seat)
    ensures Seating(b, seats[id := seat])
  {
    assert SeatOk(b, id, seats[id]);
    if b.regime.Standard? { OwnUnitIsNew(seats, id); }
    OwnControllerIsNew(seats, id);
    PuttingKeepsSeating(b, b, seats, id, seat);
  }

  ghost predicate AllAlike(g: Regime, seats: Seats, others: Seats) {
    forall id :: id in others ==> id in seats && Alike(g, seats[id], others[id])
  }

  lemma ChangingAllKeepsSeating(b: Basis, seats: Seats, others: Seats)
    requires Seating(b, seats) && AllAlike(b.regime, seats, others)
    ensures Seating(b, others)
  {
    forall id | id in others ensures SeatOk(b, id, others[id]) { assert SeatOk(b, id, seats[id]); }
    forall a, c, user | Holds(others, a, user) && Holds(others, c, user) ensures a == c {
      assert Holds(seats, a, user) && Holds(seats, c, user);
    }
    if b.regime.Standard? {
      forall a, c | SameUnit(others, a, c) ensures a == c { assert SameUnit(seats, a, c); }
    }
  }

  /* ------------------------------------------------------------------ from one room to the next */

  /** Apart from its seats and transfers the room has stayed as it was, or moved on in its counters. */
  predicate Carries(r: Room, t: Room) {
    && t.templates == r.templates && t.limits == r.limits && t.bound == r.bound && t.vmf == r.vmf
    && t.operations == r.operations && t.order == r.order && t.phase == r.phase && t.winner == r.winner
    && (t.mode == r.mode || t.mode == Pvp)
    && t.revision >= r.revision && t.nextUnit >= r.nextUnit && t.rng != 0
  }

  /** The same people wait, except the one named. */
  ghost predicate WaitingWithout(seats: Seats, later: Seats, user: int) {
    forall id, u :: Waiting(later, id, u) <==> (Waiting(seats, id, u) && u != user)
  }

  lemma TransfersFollow(templates: Catalog, seats: Seats, later: Seats, transfers: map<int, Transfer>, user: int)
    requires TransfersOk(templates, seats, transfers) && WaitingWithout(seats, later, user)
    ensures TransfersOk(templates, later, WithoutTransfer(transfers, user))
  {
    var left := WithoutTransfer(transfers, user);
    forall u | u in left ensures TransferOk(templates, later, u, left[u]) {
      assert TransferOk(templates, seats, u, transfers[u]);
      var id :| Waiting(seats, id, u) && id.side == transfers[u].target.side;
      assert Waiting(later, id, u);
    }
  }

  lemma NobodyHasNumberZero(templates: Catalog, seats: Seats, transfers: map<int, Transfer>)
    requires TransfersOk(templates, seats, transfers)
    ensures WithoutTransfer(transfers, 0) == transfers
  {
    forall user | user in transfers ensures user > 0 {
      assert TransferOk(templates, seats, user, transfers[user]);
      var id :| Waiting(seats, id, user);
    }
  }

  lemma CarriedIsSound(g: Regime, r: Room, t: Room, user: int)
    requires Sound(g, r) && Carries(r, t) && Seating(BasisOf(g, t), t.seats)
    requires WaitingWithout(r.seats, t.seats, user) && t.transfers == WithoutTransfer(r.transfers, user)
    ensures Sound(g, t)
  {
    SoundMeans(g, r);
    TransfersFollow(r.templates, r.seats, t.seats, r.transfers, user);
    SoundWhen(g, t);
  }

  /** The seats have changed, and nobody has begun or ceased to wait. */
  lemma ReseatedIsSound(g: Regime, r: Room, t: Room)
    requires Sound(g, r) && Carries(r, t) && Seating(BasisOf(g, t), t.seats)
    requires WaitingWithout(r.seats, t.seats, 0) && t.transfers == r.transfers
    ensures Sound(g, t)
  {
    SoundMeans(g, r);
    NobodyHasNumberZero(r.templates, r.seats, r.transfers);
    CarriedIsSound(g, r, t, 0);
  }

  /** The seats have stayed. */
  lemma UnseatedIsSound(g: Regime, r: Room, t: Room)
    requires Sound(g, r) && Carries(r, t) && t.seats == r.seats && t.transfers == r.transfers
    ensures Sound(g, t)
  {
    SoundMeans(g, r);
    SeatingExtends(BasisOf(g, r), BasisOf(g, t), r.seats);
    ReseatedIsSound(g, r, t);
  }

  /** Seats that nobody waits at have come or gone. */
  lemma PartedIsSound(g: Regime, r: Room, t: Room)
    requires Sound(g, r) && Carries(r, t) && t.nextUnit == r.nextUnit && t.transfers == r.transfers
    requires Part(t.seats, r.seats) && forall id :: id in r.seats && r.seats[id].controller.Human? ==> id in t.seats
    ensures Sound(g, t)
  {
    SoundMeans(g, r);
    PartsKeepSeating(BasisOf(g, r), r.seats, t.seats);
    ReseatedIsSound(g, r, t);
  }

  /** Seats are changed in what has no bearing on who sits where, and who waits. */
  ghost predicate AllKept(g: Regime, seats: Seats, others: Seats) {
    forall id :: (id in others <==> id in seats) && (id in seats ==> Kept(g, seats[id], others[id]))
  }

  predicate Kept(g: Regime, seat: Seat, other: Seat) {
    Alike(g, seat, other) && other.pendingTransfer == seat.pendingTransfer
  }

  lemma KeptSeatsAreSound(g: Regime, r: Room, t: Room)
    requires Sound(g, r) && Carries(r, t) && t.nextUnit == r.nextUnit && t.transfers == r.transfers
    requires AllKept(g, r.seats, t.seats)
    ensures Sound(g, t)
  {
    SoundMeans(g, r);
    ChangingAllKeepsSeating(BasisOf(g, r), r.seats, t.seats);
    ReseatedIsSound(g, r, t);
  }

  /** One seat is changed in what has no bearing on who sits where. */
  lemma ChangedSeatIsSound(g: Regime, r: Room, id: SeatId, seat: Seat, t: Room)
    requires Sound(g, r) && id in r.seats && Alike(g, r.seats[id], seat)
    requires seat.pendingTransfer == r.seats[id].pendingTransfer
    requires Carries(r, t) && t.seats == r.seats[id := seat] && t.transfers == r.transfers && t.nextUnit == r.nextUnit
    ensures Sound(g, t)
  {
    SoundMeans(g, r);
    ChangingKeepsSeating(BasisOf(g, r), r.seats, id, seat);
    ReseatedIsSound(g, r, t);
  }

  /** A seat nobody waits at is replaced or added. */
  lemma PuttingIsSound(g: Regime, r: Room, id: SeatId, seat: Seat, t: Room)
    requires Sound(g, r) && Carries(r, t) && t.seats == r.seats[id := seat] && t.transfers == r.transfers
    requires SeatOk(BasisOf(g, t), id, seat) && (g.Standard? ==> UnitIsNew(r.seats, id, seat.unitId))
    requires ControllerIsNew(r.seats, id, seat.controller) && !seat.pendingTransfer
    requires id in r.seats ==> !r.seats[id].controller.Human?
    ensures Sound(g, t)
  {
    SoundMeans(g, r);
    PuttingKeepsSeating(BasisOf(g, r), BasisOf(g, t), r.seats, id, seat);
    ReseatedIsSound(g, r, t);
  }

  lemma SucceedingIsSound(g: Regime, r: Room)
    requires Sound(g, r)
    ensures Sound(g, Succeed(r).0) && Carries(r, Succeed(r).0)
  {
    MatchMeans(g, r);
    UnseatedIsSound(g, r, Succeed(r).0);
  }

  /** The room has gone from one sound state to another, keeping its transfers. */
  ghost predicate Proceeds(g: Regime, r: Room, t: Room) { Sound(g, t) && Carries(r, t) && t.transfers == r.transfers }

  lemma StayingProceeds(g: Regime, r: Room)
    requires Sound(g, r)
    ensures Proceeds(g, r, r)
  {
    MatchMeans(g, r);
  }

  /* ------------------------------------------------------------------ the opponent's roster */

  lemma AiUnitIsNew(r: Room, id: SeatId, template: Template)
    requires Seating(BasisOf(Standard, r), r.seats)
    ensures UnitIsNew(r.seats, id, AiSeat(r, id, template).unitId) || (id.kind == Commander && id != BLUE_COMMANDER)
  {
    if id == BLUE_COMMANDER {
      forall other | other in r.seats && other != id ensures r.seats[other].unitId != CommandPost(Blue) {
        assert SeatOk(BasisOf(Standard, r), other, r.seats[other]);
      }
    } else {
      NextNumberIsNew(BasisOf(Standard, r), r.seats, id, id.side, template);
    }
  }

  lemma InstallingIsSound(g: Regime, r: Room, id: SeatId, template: Template)
    requires Sound(g, r)
    ensures Proceeds(g, r, InstallAi(r, id, template).0)
  {
    SoundMeans(g, r);
    var t := InstallAi(r, id, template).0;
    if t != r {
      if g.Standard? { AiUnitIsNew(r, id, template); }
      PuttingIsSound(g, r, id, AiSeat(r, id, template), t);
    }
  }

  lemma {:induction false} InstallingMirrorsIsSound(g: Regime, r: Room, ids: seq<SeatId>)
    requires Sound(g, r)
    ensures Proceeds(g, r, InstallMirrors(r, ids).0)
    decreases |ids|
  {
    StayingProceeds(g, r);
    if ids != [] {
      if Mirrored(r.seats, ids[0]) {
        var step := InstallAi(r, Mirror(ids[0]), r.seats[ids[0]].template);
        InstallingIsSound(g, r, Mirror(ids[0]), r.seats[ids[0]].template);
        if step.1.ok { InstallingMirrorsIsSound(g, step.0, ids[1..]); }
      } else {
        InstallingMirrorsIsSound(g, r, ids[1..]);
      }
    }
  }

  lemma UnreadyingIsSound(g: Regime, r: Room)
    requires Sound(g, r)
    ensures Proceeds(g, r, Unready(r))
  {
    MatchMeans(g, r);
    KeptSeatsAreSound(g, r, Unready(r));
  }

  lemma SettlingIsSound(g: Regime, before: Room, r: Room)
    requires Sound(g, r)
    ensures Proceeds(g, r, SettleRoster(before, r).0)
  {
    var t := WithoutStale(r);
    MatchMeans(g, r);
    PartedIsSound(g, r, t);
    UnreadyingIsSound(g, t);
    SucceedingIsSound(g, Unready(t));
  }

  lemma AfterCommanderIsSound(g: Regime, r: Room, commander: Step, o: Orders)
    requires Proceeds(g, r, commander.0)
    ensures Proceeds(g, r, AfterCommander(r, commander, o).0)
  {
    if commander.1.ok {
      var ids := o.seats(commander.0.seats.Keys);
      InstallingMirrorsIsSound(g, commander.0, ids);
      var mirrors := InstallMirrors(commander.0, ids);
      if mirrors.1.ok { SettlingIsSound(g, r, mirrors.0); }
    }
  }

  lemma SyncingIsSound(g: Regime, r: Room, o: Orders)
    requires Sound(g, r)
    ensures Proceeds(g, r, SyncAiRoster(r, o).0)
  {
    var commander := InstallAi(r, BLUE_COMMANDER, For(Commander));
    StayingProceeds(g, r);
    InstallingIsSound(g, r, BLUE_COMMANDER, For(Commander));
    AfterCommanderIsSound(g, r, commander, o);
  }

  /* ------------------------------------------------------------------ the roster of the single-side mode */

  /** Only rooms that are not standard ones are in the single-side mode. */
  lemma AutomatedSeatIsSound(g: Regime, r: Room, id: SeatId, seat: Seat, t: Room)
    requires Sound(g, r) && r.vmf && t == Succeed(Put(r, id, seat)).0
    requires seat.seatId == id && seat.controller.Placeholder? && !seat.pendingTransfer
    requires id in r.seats ==> !r.seats[id].controller.Human?
    ensures Proceeds(g, r, t)
  {
    SoundMeans(g, r);
    PuttingIsSound(g, r, id, seat, t);
  }

  lemma PersonStaysIsSound(g: Regime, r: Room, id: SeatId, t: Room)
    requires Sound(g, r) && r.vmf && id in r.seats && t == Put(r, id, r.seats[id].(control := ByHuman))
    ensures Proceeds(g, r, t)
  {
    SoundMeans(g, r);
    ChangedSeatIsSound(g, r, id, r.seats[id].(control := ByHuman), t);
  }

  lemma RegisteringIsSound(g: Regime, r: Room, id: SeatId, template: Template, control: Control)
    requires Sound(g, r)
    ensures Proceeds(g, r, InstallVmf(r, id, template, control).0)
  {
    StayingProceeds(g, r);
    if r.vmf {
      if id in r.seats && r.seats[id].controller.Human? {
        PersonStaysIsSound(g, r, id, Put(r, id, r.seats[id].(control := ByHuman)));
      } else {
        var seat := VmfSeat(r, id, template, control);
        AutomatedSeatIsSound(g, r, id, seat, Succeed(Put(r, id, seat)).0);
      }
    }
  }

  lemma {:induction false} TargetingIsSound(g: Regime, r: Room, ids: seq<SeatId>)
    requires Sound(g, r)
    ensures Proceeds(g, r, InstallTargets(r, ids).0)
    decreases |ids|
  {
    StayingProceeds(g, r);
    if ids != [] {
      if Target(r.bound, ids[0]) {
        var template := For(r.bound.units[r.bound.seats[ids[0]]].kind);
        var step := InstallVmf(r, ids[0], template, FixedTarget);
        RegisteringIsSound(g, r, ids[0], template, FixedTarget);
        if step.1.ok { TargetingIsSound(g, step.0, ids[1..]); }
      } else {
        TargetingIsSound(g, r, ids[1..]);
      }
    }
  }

  lemma {:induction false} AutomatingIsSound(g: Regime, r: Room, kinds: seq<Kind>)
    requires Sound(g, r)
    ensures Proceeds(g, r, InstallAutomated(r, kinds).0)
    decreases |kinds|
  {
    StayingProceeds(g, r);
    if kinds != [] {
      if Staffed(r.seats, kinds[0]) {
        AutomatingIsSound(g, r, kinds[1..]);
      } else {
        var step := InstallVmf(r, SeatId(Red, kinds[0], 1), For(kinds[0]), VmfAuto);
        RegisteringIsSound(g, r, SeatId(Red, kinds[0], 1), For(kinds[0]), VmfAuto);
        if step.1.ok { AutomatingIsSound(g, step.0, kinds[1..]); }
      }
    }
  }

  /** Nobody sits on the blue side in the single-side mode, so no person is sent away with the strays. */
  lemma DroppingStraysIsSound(g: Regime, r: Room)
    requires Sound(g, r) && r.vmf
    ensures Proceeds(g, r, WithoutStrays(r))
  {
    SoundMeans(g, r);
    forall id | id in r.seats && r.seats[id].controller.Human? ensures id.side == Red {
      assert SeatOk(BasisOf(g, r), id, r.seats[id]);
    }
    PartedIsSound(g, r, WithoutStrays(r));
  }

  lemma AfterTargetsIsSound(g: Regime, r: Room, targets: Step)
    requires Proceeds(g, r, targets.0) && r.vmf
    ensures Proceeds(g, r, AfterTargets(r, targets).0)
  {
    if targets.1.ok {
      DroppingStraysIsSound(g, targets.0);
      AutomatingIsSound(g, WithoutStrays(targets.0), AUTOMATED_KINDS);
    }
  }

  lemma SyncingVmfIsSound(g: Regime, r: Room, o: Orders)
    requires Sound(g, r)
    ensures Proceeds(g, r, SyncVmfRoster(r, o).0)
  {
    StayingProceeds(g, r);
    if r.vmf && r.phase != Finished {
      var ids := o.seats(r.bound.seats.Keys);
      TargetingIsSound(g, r, ids);
      AfterTargetsIsSound(g, r, InstallTargets(r, ids));
    }
  }

  /* ------------------------------------------------------------------ limits and templates */

  lemma LimitsAreSound(g: Regime, r: Room, limits: Limits)
    requires Sound(g, r)
    ensures Sound(g, SetSeatLimits(r, limits).0)
  {
    var t := SetSeatLimits(r, limits).0;
    if t != r {
      SoundMeans(g, r);
      forall id | id in t.seats ensures SeatOk(BasisOf(g, t), id, t.seats[id]) {
        assert SeatOk(BasisOf(g, r), id, r.seats[id]) && Fits(limits, r.vmf, id);
      }
      SoundWhen(g, t);
    }
  }

  lemma CompleteHas(catalog: Catalog, kind: Kind)
    requires Complete(catalog)
    ensures For(kind) in catalog
  {
    assert Usable(catalog, kind) by { match kind case _ => }
  }

  lemma CatalogIsSound(g: Regime, r: Room, catalog: Catalog)
    requires Sound(g, r)
    ensures Sound(g, SetTemplateCatalog(r, catalog).0)
  {
    var t := SetTemplateCatalog(r, catalog).0;
    if t != r {
      SoundMeans(g, r);
      forall id | id in t.seats ensures SeatOk(BasisOf(g, t), id, t.seats[id]) {
        assert SeatOk(BasisOf(g, r), id, r.seats[id]);
        CompleteHas(catalog, id.kind);
      }
      forall user | user in t.transfers ensures TransferOk(t.templates, t.seats, user, t.transfers[user]) {
        assert TransferOk(r.templates, r.seats, user, r.transfers[user]);
        CompleteHas(catalog, r.transfers[user].target.kind);
      }
      SoundWhen(g, t);
    }
  }
}

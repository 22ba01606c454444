/**
 The room as the game server has it: an object whose methods change its seats, transfers and phases step by step.
 Each method does what the function of the same operation says: its contract gives the whole new room, and its
 loops go through seats and transfers in the order a hash table happens to list them, which is a parameter of
 the method.
 */
module AuthoritativeRoom {
  import opened Listings
  import opened Options
  import M = RoomModel
  import opened RoomInvariants
  import Safety = RoomSafety
  import Xorshift

  type Room = M.Room
  type Seat = M.Seat
  type SeatId = M.SeatId
  type Template = M.Template
  type Transfer = M.Transfer
  type Orders = M.Orders
  type Outcome = M.Outcome
  type GeoPos = M.GeoPos

  lemma PeopleSitOnce(r: Room)
    requires Sound(Any, r)
    ensures OneSeatEach(r.seats)
  {
    SoundMeans(Any, r);
  }

  class AuthoritativeRoom {
    var templates: M.Catalog
    var sourceUnits: map<string, M.Source>
    var seatSources: map<SeatId, string>
    var seatLimits: M.Limits
    var seats: M.Seats
    var transfers: map<int, Transfer>
    var operations: map<string, nat>
    var operationOrder: seq<string>
    var departedUsers: set<int>
    var phase: M.Phase
    var mode: M.Mode
    var vmfSingleSide: bool
    var winner: Option<M.Winner>
    var revision: nat
    var nextUnitSequence: nat
    var rngState: bv64

    ghost function State(): Room
      reads this
    {
      M.Room(templates, M.Binding(sourceUnits, seatSources), seatLimits, seats, transfers, operations, operationOrder,
             departedUsers, phase, mode, vmfSingleSide, winner, revision, nextUnitSequence, rngState)
    }

    /** The room is in order, bound to a scenario or not and in the single-side mode or not. */
    ghost predicate Valid()
      reads this
    {
      Sound(Any, State())
    }

    constructor (rngSeed: bv64)
      ensures State() == M.Room(map[], UNBOUND, map[], map[], map[], map[], [], {}, M.Preparing, M.Pvp, false, None,
                                1, 1, if rngSeed == 0 then 1 else rngSeed)
      ensures Valid()
    {
      templates, sourceUnits, seatSources, seatLimits, seats, transfers := map[], map[], map[], map[], map[], map[];
      operations, operationOrder, departedUsers := map[], [], {};
      phase, mode, vmfSingleSide, winner, revision, nextUnitSequence := M.Preparing, M.Pvp, false, None, 1, 1;
      rngState := if rngSeed == 0 then 1 else rngSeed;
      new;
      SoundWhen(Any, State());
    }

    method Success() returns (outcome: Outcome)
      modifies `revision
      ensures (State(), outcome) == M.Succeed(old(State()))
    {
      revision := revision + 1;
      outcome := M.Outcome(true, None, revision, false, 0, false, None);
    }

    method Failed(code: M.Code) returns (outcome: Outcome)
      ensures outcome == M.Failure(State(), code)
    {
      outcome := M.Outcome(false, Some(code), revision, false, 0, false, None);
    }

    method Unchanged() returns (outcome: Outcome)
      ensures (State(), outcome) == M.Same(State())
    {
      outcome := M.Outcome(true, None, revision, true, 0, false, None);
    }

    method SeatForUser(user: int) returns (found: Option<SeatId>)
      requires OneSeatEach(seats)
      ensures found == M.SeatOf(seats, user)
    {
      if user <= 0 { return None; }
      var rest := seats.Keys;
      while rest != {}
        invariant rest <= seats.Keys
        invariant forall id :: id in seats && id !in rest ==> !M.Holds(seats, id, user)
        decreases |rest|
      {
        var id :| id in rest;
        if seats[id].controller == M.Human(user) {
          SeatOfIs(seats, id, user);
          return Some(id);
        }
        rest := rest - {id};
      }
      found := None;
    }

    /* ---------------------------------------------------------------- the opponent's roster */

    method InstallAiSeat(id: SeatId, template: Template) returns (outcome: Outcome)
      modifies `seats, `nextUnitSequence, `revision
      ensures (State(), outcome) == M.InstallAi(old(State()), id, template)
    {
      if !M.ValidSeat(templates, seatLimits, vmfSingleSide, id, template) || id.side != M.Blue {
        outcome := Failed(M.InvalidAiSeat);
        return;
      }
      if id in seats && !seats[id].controller.Ai? {
        outcome := Failed(M.SideReservedForAi);
        return;
      }
      if id in seats && seats[id].template == template {
        outcome := Unchanged();
        return;
      }
      var unit := if id.kind == M.Commander then M.CommandPost(M.Blue)
                  else M.Allocated(id.side, template, nextUnitSequence);
      if id.kind != M.Commander { nextUnitSequence := nextUnitSequence + 1; }
      seats := seats[id := M.Seat(id, M.Ai, M.ByAi, "AI", template, None, unit, "", M.ORIGIN, false, false,
                                  revision + 1, false, false)];
      outcome := Success();
    }

    method InstallMirrors(ids: seq<SeatId>) returns (outcome: Outcome)
      modifies `seats, `nextUnitSequence, `revision
      ensures (State(), outcome) == M.InstallMirrors(old(State()), ids)
    {
      var i := 0;
      while i < |ids|
        invariant 0 <= i <= |ids|
        invariant M.InstallMirrors(State(), ids[i..]) == M.InstallMirrors(old(State()), ids)
      {
        assert ids[i..][1..] == ids[i + 1..];
        if M.Mirrored(seats, ids[i]) {
          outcome := InstallAiSeat(M.Mirror(ids[i]), seats[ids[i]].template);
          if !outcome.ok { return; }
        }
        i := i + 1;
      }
      outcome := Unchanged();
    }

    method RemoveStaleAiSeats()
      modifies `seats
      ensures State() == M.WithoutStale(old(State()))
    {
      var rest := seats.Keys;
      ghost var before := seats;
      while rest != {}
        invariant rest <= before.Keys && seats.Keys <= before.Keys
        invariant forall id :: id in seats ==> seats[id] == before[id]
        invariant forall id :: id in rest ==> id in seats
        invariant forall id :: id in before && id !in rest ==>
                    (id in seats <==> (before[id].controller.Ai? ==> M.Desired(before, id)))
        decreases |rest|
      {
        var id :| id in rest;
        if seats[id].controller.Ai? {
          StillDesired(before, seats, id);
          if !M.Desired(seats, id) { seats := seats - {id}; }
        }
        rest := rest - {id};
      }
    }

    /** Taking the opponent's seats away does not touch the seats it mirrors. */
    static lemma StillDesired(before: M.Seats, seats: M.Seats, id: SeatId)
      requires forall x :: x in seats ==> x in before && seats[x] == before[x]
      requires forall x :: x in before && !before[x].controller.Ai? ==> x in seats
      ensures M.Desired(seats, id) <==> M.Desired(before, id)
    {
    }

    method StampAll(automated: bool, stamp: nat)
      modifies `seats
      ensures seats == M.Stamped(old(seats), automated, stamp)
    {
      var rest := seats.Keys;
      ghost var before := seats;
      while rest != {}
        invariant rest <= before.Keys && seats.Keys == before.Keys
        invariant forall id :: id in rest ==> seats[id] == before[id]
        invariant forall id :: id in before && id !in rest ==> seats[id] == M.Stamped(before, automated, stamp)[id]
        decreases |rest|
      {
        var id :| id in rest;
        seats := seats[id := seats[id].(ready := automated && seats[id].controller.Placeholder?, revision := stamp)];
        rest := rest - {id};
      }
    }

    method UnreadyAll()
      modifies `seats
      ensures State() == M.Unready(old(State()))
    {
      StampAll(false, revision + 1);
    }

    /** Brings the opponent's roster up to date; what it does to a room in order is for the caller to conclude. */
    method Synchronise(o: Orders) returns (outcome: Outcome)
      modifies `seats, `nextUnitSequence, `revision
      ensures (State(), outcome) == M.SyncAiRoster(old(State()), o)
    {
      if mode != M.Pve {
        outcome := Unchanged();
      } else if phase != M.Preparing {
        outcome := Failed(M.SeatLocked);
      } else {
        outcome := InstallRoster(o);
      }
    }

    method InstallRoster(o: Orders) returns (outcome: Outcome)
      modifies `seats, `nextUnitSequence, `revision
      ensures (State(), outcome)
           == M.AfterCommander(old(State()), M.InstallAi(old(State()), M.BLUE_COMMANDER, M.For(M.Commander)), o)
    {
      var seatsBefore, unitsBefore, revisionBefore := seats, nextUnitSequence, revision;
      outcome := InstallAiSeat(M.BLUE_COMMANDER, M.For(M.Commander));
      if !outcome.ok { return; }
      outcome := InstallMirrors(o.seats(seats.Keys));
      if !outcome.ok { return; }
      outcome := Settle(old(State()), seatsBefore, unitsBefore, revisionBefore);
    }

    /** Takes the opponent's other seats away; if anything has changed at all, nobody is ready any more. */
    method Settle(ghost before: Room, seatsBefore: M.Seats, unitsBefore: nat, revisionBefore: nat)
      returns (outcome: Outcome)
      requires before == State().(seats := seatsBefore, nextUnit := unitsBefore, revision := revisionBefore)
      modifies `seats, `revision
      ensures (State(), outcome) == M.SettleRoster(before, old(State()))
    {
      RemoveStaleAiSeats();
      if seats == seatsBefore && nextUnitSequence == unitsBefore && revision == revisionBefore {
        outcome := Unchanged();
      } else {
        UnreadyAll();
        outcome := Success();
      }
    }

    method SyncAiRoster(o: Orders) returns (outcome: Outcome)
      requires Valid()
      modifies `seats, `nextUnitSequence, `revision
      ensures (State(), outcome) == M.SyncAiRoster(old(State()), o)
      ensures Valid()
    {
      outcome := Synchronise(o);
      SyncingIsSound(Any, old(State()), o);
    }

    /* ---------------------------------------------------------------- the roster of the single-side mode */

    method MakeVmfSeat(id: SeatId, template: Template, control: M.Control) returns (seat: Seat)
      ensures seat == M.VmfSeat(State(), id, template, control)
    {
      var sourceId := if id in seatSources then Some(seatSources[id]) else None;
      seat := M.Seat(id, M.Placeholder, control,
                     if control == M.FixedTarget then "fixed target" else "automated seat", template, sourceId,
                     if id.kind == M.Commander then M.CommandPost(id.side) else M.Automated(id.side, id.kind), "",
                     if template in templates then templates[template].position else M.ORIGIN, true, true,
                     revision + 1, false, false);
      if sourceId.Some? && sourceId.value in sourceUnits {
        var source := sourceUnits[sourceId.value];
        seat := seat.(template := M.For(source.kind), unitId := M.FromScenario(source.id), position := source.position);
      }
    }

    method InstallVmfSeat(id: SeatId, template: Template, control: M.Control) returns (outcome: Outcome)
      modifies `seats, `revision
      ensures (State(), outcome) == M.InstallVmf(old(State()), id, template, control)
    {
      if !vmfSingleSide || !M.ValidSeat(templates, seatLimits, vmfSingleSide, id, template)
         || (control != M.VmfAuto && control != M.FixedTarget)
         || (control == M.VmfAuto && id.side != M.Red) || (control == M.FixedTarget && id.side != M.Blue) {
        outcome := Failed(M.InvalidVmfSeat);
      } else if id in seats && seats[id].controller.Human? {
        outcome := KeepPerson(id);
      } else {
        var seat := MakeVmfSeat(id, template, control);
        outcome := PutVmfSeat(id, seat);
      }
    }

    /** Installs the seat unless it stands there already. */
    method PutVmfSeat(id: SeatId, seat: Seat) returns (outcome: Outcome)
      modifies `seats, `revision
      ensures (State(), outcome)
           == if M.VmfSeatStands(old(State()), id, seat) then M.Same(old(State()))
              else M.Succeed(M.Put(old(State()), id, seat))
    {
      if id in seats && seats[id].controller.Placeholder? && seats[id].control == seat.control
         && seats[id].source == seat.source && seats[id].template == seat.template {
        outcome := Unchanged();
      } else {
        seats := seats[id := seat];
        outcome := Success();
      }
    }

    method KeepPerson(id: SeatId) returns (outcome: Outcome)
      requires id in seats
      modifies `seats
      ensures (State(), outcome)
           == if id.side != M.Red then M.Refuse(old(State()), M.SideReservedForFixedTarget)
              else M.Same(M.Put(old(State()), id, old(seats)[id].(control := M.ByHuman)))
    {
      if id.side != M.Red {
        outcome := Failed(M.SideReservedForFixedTarget);
      } else {
        seats := seats[id := seats[id].(control := M.ByHuman)];
        outcome := Unchanged();
      }
    }

    method InstallTargets(ids: seq<SeatId>) returns (outcome: Outcome)
      modifies `seats, `revision
      ensures (State(), outcome) == M.InstallTargets(old(State()), ids)
    {
      var i := 0;
      while i < |ids|
        invariant 0 <= i <= |ids|
        invariant M.InstallTargets(State(), ids[i..]) == M.InstallTargets(old(State()), ids)
      {
        assert ids[i..][1..] == ids[i + 1..];
        if ids[i] in seatSources && ids[i].side == M.Blue && seatSources[ids[i]] in sourceUnits {
          outcome := InstallVmfSeat(ids[i], M.For(sourceUnits[seatSources[ids[i]]].kind), M.FixedTarget);
          if !outcome.ok { return; }
        }
        i := i + 1;
      }
      outcome := Unchanged();
    }

    method RemoveStrays()
      modifies `seats
      ensures State() == M.WithoutStrays(old(State()))
    {
      var rest := seats.Keys;
      ghost var before := seats;
      var bound := M.Binding(sourceUnits, seatSources);
      while rest != {}
        invariant rest <= before.Keys && seats.Keys <= before.Keys
        invariant forall id :: id in seats ==> seats[id] == before[id]
        invariant forall id :: id in rest ==> id in seats
        invariant forall id :: id in before && id !in rest ==>
                    (id in seats <==> (id.side == M.Blue ==> M.Target(bound, id)))
        decreases |rest|
      {
        var id :| id in rest;
        if id.side == M.Blue && !M.Target(bound, id) { seats := seats - {id}; }
        rest := rest - {id};
      }
      assert seats == M.WithoutStrays(old(State())).seats;
    }

    method IsStaffed(kind: M.Kind) returns (staffed: bool)
      ensures staffed == M.Staffed(seats, kind)
    {
      var rest := seats.Keys;
      while rest != {}
        invariant rest <= seats.Keys
        invariant forall id :: id in seats && id !in rest ==> !(id.side == M.Red && id.kind == kind)
        decreases |rest|
      {
        var id :| id in rest;
        if id.side == M.Red && id.kind == kind { return true; }
        rest := rest - {id};
      }
      staffed := false;
    }

    method InstallAutomated(kinds: seq<M.Kind>) returns (outcome: Outcome)
      modifies `seats, `revision
      ensures (State(), outcome) == M.InstallAutomated(old(State()), kinds)
    {
      var i := 0;
      while i < |kinds|
        invariant 0 <= i <= |kinds|
        invariant M.InstallAutomated(State(), kinds[i..]) == M.InstallAutomated(old(State()), kinds)
      {
        assert kinds[i..][1..] == kinds[i + 1..];
        var staffed := IsStaffed(kinds[i]);
        if !staffed {
          outcome := InstallVmfSeat(M.SeatId(M.Red, kinds[i], 1), M.For(kinds[i]), M.VmfAuto);
          if !outcome.ok { return; }
        }
        i := i + 1;
      }
      outcome := Unchanged();
    }

    method SyncVmfRoster(o: Orders) returns (outcome: Outcome)
      modifies `seats, `revision
      ensures (State(), outcome) == M.SyncVmfRoster(old(State()), o)
    {
      if !vmfSingleSide {
        outcome := Unchanged();
      } else if phase == M.Finished {
        outcome := Failed(M.SeatLocked);
      } else {
        var seatsBefore, revisionBefore := seats, revision;
        outcome := InstallTargets(o.seats(seatSources.Keys));
        if outcome.ok { outcome := FillIn(old(State()), seatsBefore, revisionBefore); }
      }
    }

    /** Blue seats that are no targets go, and the automated red seats come. */
    method FillIn(ghost before: Room, seatsBefore: M.Seats, revisionBefore: nat) returns (outcome: Outcome)
      requires before == State().(seats := seatsBefore, revision := revisionBefore)
      modifies `seats, `revision
      ensures (State(), outcome) == M.AfterAutomated(before, M.InstallAutomated(M.WithoutStrays(old(State())),
                                                                                M.AUTOMATED_KINDS))
    {
      RemoveStrays();
      outcome := InstallAutomated(M.AUTOMATED_KINDS);
      if outcome.ok { outcome := Compare(before, seatsBefore, revisionBefore); }
    }

    /** Whether anything has changed. */
    method Compare(ghost before: Room, seatsBefore: M.Seats, revisionBefore: nat) returns (outcome: Outcome)
      requires before == State().(seats := seatsBefore, revision := revisionBefore)
      ensures outcome == if State() == before then M.Same(State()).1 else M.Done(State())
    {
      var same := seats == seatsBefore && revision == revisionBefore;
      outcome := M.Outcome(true, None, revision, same, 0, false, None);
    }

    /** The roster of the room's mode, brought up to date. */
    method Restaff(o: Orders) returns (outcome: Outcome)
      modifies `seats, `nextUnitSequence, `revision
      ensures (State(), outcome) == M.Restaffed(old(State()), o)
    {
      if vmfSingleSide {
        outcome := SyncVmfRoster(o);
      } else if mode == M.Pve {
        outcome := Synchronise(o);
      } else {
        outcome := Unchanged();
      }
    }

    method HasBluePerson() returns (found: bool)
      ensures found <==> exists id :: M.BluePerson(seats, id)
    {
      var rest := seats.Keys;
      while rest != {}
        invariant rest <= seats.Keys
        invariant forall id :: id in seats && id !in rest ==> !M.BluePerson(seats, id)
        decreases |rest|
      {
        var id :| id in rest;
        if M.BluePerson(seats, id) { return true; }
        rest := rest - {id};
      }
      found := false;
    }

    method EnterSingleSide(o: Orders) returns (outcome: Outcome)
      modifies `vmfSingleSide, `seats, `revision
      ensures (State(), outcome) == M.SyncVmfRoster(old(State()).(vmf := true), o)
    {
      vmfSingleSide := true;
      assert State() == old(State()).(vmf := true);
      outcome := SyncVmfRoster(o);
    }

    method LeaveSingleSide() returns (outcome: Outcome)
      modifies `vmfSingleSide, `seats, `revision
      ensures (State(), outcome)
           == M.Succeed(old(State()).(vmf := false, seats := M.WithoutAll(old(seats), M.Placeholder)))
    {
      vmfSingleSide := false;
      RemoveAllHeldBy(M.Placeholder);
      outcome := Success();
    }

    method SetVmfSingleSide(enabled: bool, o: Orders) returns (outcome: Outcome)
      requires Valid()
      modifies `vmfSingleSide, `seats, `revision
      ensures (State(), outcome) == M.SetVmfSingleSide(old(State()), enabled, o)
      ensures Valid()
    {
      var occupied := HasBluePerson();
      if phase != M.Preparing && vmfSingleSide != enabled {
        outcome := Failed(M.SeatLocked);
      } else if enabled && mode == M.Pve {
        outcome := Failed(M.VmfPveConflict);
      } else if enabled && occupied {
        outcome := Failed(M.BlueSeatsOccupied);
      } else if enabled {
        outcome := EnterSingleSide(o);
      } else if !vmfSingleSide {
        outcome := Unchanged();
      } else {
        outcome := LeaveSingleSide();
      }
      Safety.SetVmfSingleSideIsSound(Any, old(State()), enabled, o, State());
    }

    /** A person's seat becomes an automated one. */
    method ConvertToVmfAutomation(id: SeatId) returns (outcome: Outcome)
      modifies `seats, `transfers, `departedUsers, `revision
      ensures (State(), outcome) == M.ConvertToVmf(old(State()), id)
    {
      if !vmfSingleSide || id !in seats || id.side != M.Red {
        outcome := Failed(M.InvalidVmfSeat);
      } else {
        Automate(id, M.UserOf(seats[id]));
        outcome := Success();
      }
    }

    method Automate(id: SeatId, user: int)
      requires id in seats
      modifies `seats, `transfers, `departedUsers
      ensures State() == M.Put(old(State()), id, M.AutomatedSeat(old(State()), old(seats)[id]))
                         .(transfers := M.WithoutTransfer(old(transfers), user),
                           departed := old(departedUsers) + {user})
    {
      seats := seats[id := seats[id].(controller := M.Placeholder, control := M.VmfAuto, username := "automated seat",
                                      ready := true, pendingTransfer := false, redeployRequested := false,
                                      revision := revision + 1)];
      RemoveTransfer(user);
      departedUsers := departedUsers + {user};
    }

    /* ---------------------------------------------------------------- binding seats to the scenario's units */

    static lemma SpoiltSources(units: seq<M.ScenarioUnit>, i: nat)
      requires i <= |units| && M.ReadSources(units[..i]).None?
      ensures M.ReadSources(units).None?
      decreases |units|
    {
      if i < |units| {
        assert units[..|units| - 1][..i] == units[..i];
        SpoiltSources(units[..|units| - 1], i);
      } else {
        assert units[..i] == units;
      }
    }

    static method ReadSources(units: seq<M.ScenarioUnit>) returns (result: Option<map<string, M.Source>>)
      ensures result == M.ReadSources(units)
    {
      var sources: map<string, M.Source> := map[];
      for i := 0 to |units|
        invariant M.ReadSources(units[..i]) == Some(sources)
      {
        var unit := units[i];
        assert units[..i + 1][..i] == units[..i];
        if unit.template.For? {
          if M.Blank(unit.id) || unit.id in sources || unit.side.None? {
            SpoiltSources(units, i + 1);
            return None;
          }
          sources := sources[unit.id := M.Source(unit.id, unit.side.value, unit.template.kind, unit.position)];
        }
      }
      assert units[..|units|] == units;
      result := Some(sources);
    }

    /** Goes through the seats: those that stay bound are noted, and one that obstructs ends it. */
    method KeepBindings(units: map<string, M.Source>) returns (kept: Option<map<SeatId, string>>)
      ensures kept.None? <==> exists id :: id in seats && M.Obstructs(State(), units, id)
      ensures kept.Some? ==> kept.value == M.KeptBindings(seats, units)
    {
      var bindings: map<SeatId, string> := map[];
      var rest := seats.Keys;
      while rest != {}
        invariant rest <= seats.Keys
        invariant forall id :: id in seats && id !in rest ==> !M.Obstructs(State(), units, id)
        invariant forall id :: id in bindings <==> id in seats && id !in rest && M.StaysBound(units, seats[id])
        invariant forall id :: id in bindings ==> bindings[id] == seats[id].source.value
        decreases |rest|
      {
        var id :| id in rest;
        if M.StaysBound(units, seats[id]) {
          bindings := bindings[id := seats[id].source.value];
        } else if seats[id].source.Some? && !(vmfSingleSide && seats[id].controller.Placeholder?) {
          assert M.Obstructs(State(), units, id);
          return None;
        }
        rest := rest - {id};
      }
      kept := Some(bindings);
    }

    static method FreeIndex(bindings: map<SeatId, string>, key: M.LimitKey, start: int) returns (index: int)
      ensures index == M.FreeIndex(bindings, key, start)
    {
      index := start;
      while M.SeatId(key.0, key.1, index) in bindings
        invariant M.FreeIndex(bindings, key, index) == M.FreeIndex(bindings, key, start)
        decreases M.Ahead(bindings, key, index)
      {
        assert M.SeatId(key.0, key.1, index) in M.Ahead(bindings, key, index) - M.Ahead(bindings, key, index + 1);
        index := index + 1;
      }
    }

    /** Binds the units of one side and type; the search for places must end. */
    static method BindBucket(start: map<SeatId, string>, key: M.LimitKey, ids: seq<string>, taken: set<string>)
      returns (bindings: map<SeatId, string>)
      requires M.BindBucket(start, key, ids, 1, taken).Some?
      ensures M.BindBucket(start, key, ids, 1, taken) == Some(bindings)
    {
      bindings := start;
      var next, i := 1, 0;
      while i < |ids|
        invariant 0 <= i <= |ids|
        invariant M.BindBucket(bindings, key, ids[i..], next, taken) == M.BindBucket(start, key, ids, 1, taken)
      {
        assert ids[i..][1..] == ids[i + 1..];
        if ids[i] !in taken {
          if key.1 == M.Commander {
            bindings := bindings[M.CommanderOf(key.0) := ids[i]];
          } else {
            var free := FreeIndex(bindings, key, next);
            bindings := bindings[M.SeatId(key.0, key.1, free) := ids[i]];
            next := free + 1;
          }
        }
        i := i + 1;
      }
    }

    static method BindBuckets(start: map<SeatId, string>, units: map<string, M.Source>, keys: seq<M.LimitKey>,
                              taken: set<string>, o: Orders) returns (bindings: map<SeatId, string>)
      requires M.BindBuckets(start, units, keys, taken, o).Some?
      ensures M.BindBuckets(start, units, keys, taken, o) == Some(bindings)
    {
      bindings := start;
      var i := 0;
      while i < |keys|
        invariant 0 <= i <= |keys|
        invariant M.BindBuckets(bindings, units, keys[i..], taken, o) == M.BindBuckets(start, units, keys, taken, o)
      {
        assert keys[i..][1..] == keys[i + 1..];
        bindings := BindBucket(bindings, keys[i], o.names(M.Bucket(units, keys[i])), taken);
        i := i + 1;
      }
    }

    method Bind(b: M.Binding)
      modifies `sourceUnits, `seatSources, `seats
      ensures State() == M.BoundRoom(old(State()), b)
    {
      BindSeats(b, vmfSingleSide, revision + 1);
      sourceUnits, seatSources := b.units, b.seats;
    }

    /** Drops the seats whose unit is gone, and gives the others the units they are bound to. */
    method BindSeats(b: M.Binding, vmf: bool, stamp: nat)
      modifies `seats
      ensures seats == M.BoundSeats(old(seats), b, vmf, stamp)
    {
      var rest := seats.Keys;
      ghost var before := seats;
      while rest != {}
        invariant rest <= before.Keys && seats.Keys <= before.Keys
        invariant forall id :: id in rest ==> id in seats && seats[id] == before[id]
        invariant forall id :: id in before && id !in rest ==> (id in seats <==> !M.Unbound(b.units, before[id]))
        invariant forall id :: id in seats && id !in rest ==> seats[id] == M.BoundSeat(vmf, stamp, b, before[id])
        decreases |rest|
      {
        var id :| id in rest;
        if M.Unbound(b.units, seats[id]) {
          seats := seats - {id};
        } else {
          var seat := BindSeat(seats[id], b, vmf, stamp);
          seats := seats[id := seat];
        }
        rest := rest - {id};
      }
    }

    static method BindSeat(seat: Seat, b: M.Binding, vmf: bool, stamp: nat) returns (bound: Seat)
      ensures bound == M.BoundSeat(vmf, stamp, b, seat)
    {
      var id := if seat.source.Some? then seat.source
                else if seat.seatId in b.seats then Some(b.seats[seat.seatId]) else None;
      bound := seat;
      if id.Some? && id.value in b.units {
        var unit := b.units[id.value];
        bound := bound.(source := id, template := M.For(unit.kind), unitId := M.FromScenario(unit.id));
        if vmf {
          bound := bound.(position := unit.position, deployed := true, ready := !seat.controller.Human?,
                          revision := stamp);
        }
      }
    }

    /** Binds the seats to the units of a scenario. The search for free places must end: a side must not have more
        command posts than it has places for one. */
    method SetScenarioUnits(units: seq<M.ScenarioUnit>, o: Orders) returns (ok: bool)
      requires Valid() && M.SetScenarioUnits(State(), units, o).Some?
      modifies `sourceUnits, `seatSources, `seats
      ensures Some((State(), ok)) == M.SetScenarioUnits(old(State()), units, o)
      ensures Valid()
    {
      ok := BindToScenario(units, o);
      Safety.SetScenarioUnitsIsSound(old(State()), units, o, Some((State(), ok)));
    }

    method BindToScenario(units: seq<M.ScenarioUnit>, o: Orders) returns (ok: bool)
      requires M.SetScenarioUnits(State(), units, o).Some?
      modifies `sourceUnits, `seatSources, `seats
      ensures Some((State(), ok)) == M.SetScenarioUnits(old(State()), units, o)
    {
      var sources := ReadSources(units);
      if sources.None? { return false; }
      var kept := KeepBindings(sources.value);
      if kept.None? { return false; }
      var taken := set id | id in kept.value :: kept.value[id];
      var bindings := BindBuckets(kept.value, sources.value, o.limits(M.Buckets(sources.value)), taken, o);
      Bind(M.Binding(sources.value, bindings));
      ok := true;
    }

    /* ---------------------------------------------------------------- saving and restoring */

    method ToJson(o: Orders) returns (saved: M.Saved)
      ensures saved == M.Save(State(), o)
    {
      var savedSeats := SeatProjection(o.seats(seats.Keys));
      var savedTransfers := TransferList(o.users(transfers.Keys));
      var savedOperations := OperationList();
      saved := M.Saved(mode, vmfSingleSide, phase, winner, revision, nextUnitSequence, rngState, savedSeats,
                       savedTransfers, savedOperations);
    }

    method SeatProjection(ids: seq<SeatId>) returns (result: seq<Seat>)
      ensures result == M.SeatsInOrder(seats, ids)
    {
      result := [];
      for i := 0 to |ids|
        invariant result == M.SeatsInOrder(seats, ids[..i])
      {
        assert ids[..i + 1][..i] == ids[..i];
        if ids[i] in seats { result := result + [seats[ids[i]]]; }
      }
      assert ids[..|ids|] == ids;
    }

    method TransferList(users: seq<int>) returns (result: seq<Transfer>)
      ensures result == M.TransfersInOrder(transfers, users)
    {
      result := [];
      for i := 0 to |users|
        invariant result == M.TransfersInOrder(transfers, users[..i])
      {
        assert users[..i + 1][..i] == users[..i];
        if users[i] in transfers { result := result + [transfers[users[i]]]; }
      }
      assert users[..|users|] == users;
    }

    method OperationList() returns (result: seq<(string, int)>)
      ensures result == M.OperationsInOrder(operations, operationOrder)
    {
      result := [];
      for i := 0 to |operationOrder|
        invariant result == M.OperationsInOrder(operations, operationOrder[..i])
      {
        assert operationOrder[..i + 1][..i] == operationOrder[..i];
        var id := operationOrder[i];
        result := result + [(id, if id in operations then operations[id] else 0)];
      }
      assert operationOrder[..|operationOrder|] == operationOrder;
    }

    static lemma SpoiltSeats(r: Room, vmf: bool, saved: seq<Seat>, i: nat)
      requires i <= |saved| && M.ReadSeats(r, vmf, saved[..i]).None?
      ensures M.ReadSeats(r, vmf, saved).None?
      decreases |saved|
    {
      if i < |saved| {
        assert saved[..|saved| - 1][..i] == saved[..i];
        SpoiltSeats(r, vmf, saved[..|saved| - 1], i);
      } else {
        assert saved[..i] == saved;
      }
    }

    method Locate(saved: Seat) returns (seat: Seat)
      ensures seat == M.Located(State().bound, saved)
    {
      seat := saved;
      if seat.source.None? && seat.seatId in seatSources { seat := seat.(source := Some(seatSources[seat.seatId])); }
    }

    method SourceSuits(seat: Seat) returns (suits: bool)
      ensures suits == M.SourceSuits(sourceUnits, seat)
    {
      suits := seat.source.None?
               || (seat.source.value in sourceUnits && sourceUnits[seat.source.value].side == seat.seatId.side
                   && M.For(sourceUnits[seat.source.value].kind) == seat.template);
    }

    /** One saved seat, as it is taken over; None when it is not acceptable. */
    method ReadSeat(vmf: bool, saved: Seat) returns (seat: Option<Seat>)
      ensures seat == if M.SavedSeatOk(State(), vmf, saved) then Some(M.Reread(State().bound, vmf, saved)) else None
    {
      var read := Locate(saved);
      var suits := SourceSuits(read);
      if (read.controller.Human? && read.controller.user <= 0)
         || (vmf && read.seatId.side == M.Blue && read.control != M.FixedTarget)
         || !M.ValidSeat(templates, seatLimits, vmfSingleSide || vmf, read.seatId, read.template)
         || !suits || (read.ready && !read.deployed) {
        return None;
      }
      if vmf && read.source.Some? {
        var source := sourceUnits[read.source.value];
        read := read.(unitId := M.FromScenario(source.id), position := source.position, deployed := true,
                      ready := read.ready || read.controller.Placeholder?);
      }
      seat := Some(read);
    }

    method ReadSeats(vmf: bool, saved: seq<Seat>) returns (result: Option<M.Seats>)
      ensures result == M.ReadSeats(State(), vmf, saved)
    {
      var read: M.Seats := map[];
      for i := 0 to |saved|
        invariant M.ReadSeats(State(), vmf, saved[..i]) == Some(read)
      {
        assert saved[..i + 1][..i] == saved[..i];
        var seat := ReadSeat(vmf, saved[i]);
        if saved[i].seatId in read || seat.None? {
          SpoiltSeats(State(), vmf, saved, i + 1);
          return None;
        }
        read := read[saved[i].seatId := seat.value];
      }
      assert saved[..|saved|] == saved;
      result := Some(read);
    }

    method HasUser(user: int) returns (found: bool)
      ensures found == M.SeatOf(seats, user).Some?
    {
      if user <= 0 { return false; }
      var rest := seats.Keys;
      while rest != {}
        invariant rest <= seats.Keys
        invariant forall id :: id in seats && id !in rest ==> !M.Holds(seats, id, user)
        decreases |rest|
      {
        var id :| id in rest;
        if seats[id].controller == M.Human(user) {
          assert M.Holds(seats, id, user);
          return true;
        }
        rest := rest - {id};
      }
      found := false;
    }

    static lemma SpoiltTransfers(r: Room, seats: M.Seats, saved: seq<Transfer>, i: nat)
      requires i <= |saved| && !M.ReadTransfers(r, seats, saved[..i]).1
      ensures M.ReadTransfers(r, seats, saved) == M.ReadTransfers(r, seats, saved[..i])
      decreases |saved|
    {
      if i < |saved| {
        assert saved[..|saved| - 1][..i] == saved[..i];
        SpoiltTransfers(r, seats, saved[..|saved| - 1], i);
      } else {
        assert saved[..i] == saved;
      }
    }

    method ReadTransfers(saved: seq<Transfer>) returns (read: map<int, Transfer>, ok: bool)
      ensures (read, ok) == M.ReadTransfers(State(), seats, saved)
    {
      read := map[];
      for i := 0 to |saved|
        invariant M.ReadTransfers(State(), seats, saved[..i]) == (read, true)
      {
        var transfer := saved[i];
        assert saved[..i + 1][..i] == saved[..i];
        var seated := HasUser(transfer.user);
        if !seated || transfer.template !in templates || transfer.revision == 0 {
          SpoiltTransfers(State(), seats, saved, i + 1);
          return read, false;
        }
        read := read[transfer.user := transfer];
      }
      assert saved[..|saved|] == saved;
      ok := true;
    }

    static lemma OneMoreKept(kept: seq<string>, id: string, rest: seq<string>)
      ensures kept + ([id] + rest) == kept + [id] + rest
    {
    }

    static method Without(order: seq<string>, id: string) returns (result: seq<string>)
      ensures result == M.Excluding(order, id)
    {
      result := [];
      for i := 0 to |order|
        invariant result + M.Excluding(order[i..], id) == M.Excluding(order, id)
      {
        assert order[i..][1..] == order[i + 1..];
        if order[i] != id {
          OneMoreKept(result, order[i], M.Excluding(order[i + 1..], id));
          result := result + [order[i]];
        }
      }
    }

    static method Trim(m: M.Memory) returns (result: M.Memory)
      ensures result == M.Trimmed(m)
    {
      result := m;
      while |result.order| > M.MAX_OPERATIONS
        invariant M.Trimmed(result) == M.Trimmed(m)
        decreases |result.order|
      {
        var oldest := result.order[0];
        var left := result.operations - {oldest};
        assert left == map id | id in result.operations && id != oldest :: result.operations[id];
        result := M.Memory(left, result.order[1..]);
      }
    }

    static method ReadOperations(saved: seq<(string, int)>) returns (m: M.Memory)
      ensures m == M.ReadOperations(saved)
    {
      m := M.Memory(map[], []);
      for i := 0 to |saved|
        invariant m == M.ReadOperations(saved[..i])
      {
        assert saved[..i + 1][..i] == saved[..i];
        if saved[i].0 != "" && saved[i].1 > 0 {
          var order := Without(m.order, saved[i].0);
          m := Trim(M.Memory(m.operations[saved[i].0 := saved[i].1], order + [saved[i].0]));
        }
      }
      assert saved[..|saved|] == saved;
    }

    method Restore(s: M.Saved) returns (ok: bool)
      modifies this
      ensures (State(), ok) == M.Restored(old(State()), s)
    {
      if s.revision <= 0 || s.nextUnit <= 0 || s.rng == 0 { return false; }
      var read := ReadSeats(s.vmf, s.seats);
      if read.None? { return false; }
      Adopt(s, read.value);
      ok := AdoptRest(s);
    }

    /** Transfers and remembered operations, once the seats are taken over. */
    method AdoptRest(s: M.Saved) returns (ok: bool)
      modifies `transfers, `operations, `operationOrder
      ensures (State(), ok) == M.RestRestored(old(State()), s)
    {
      var read, complete := ReadTransfers(s.transfers);
      transfers := read;
      if !complete { return false; }
      var memory := ReadOperations(s.operations);
      operations, operationOrder := memory.operations, memory.order;
      ok := true;
    }

    method Adopt(s: M.Saved, read: M.Seats)
      requires M.HeaderOk(s)
      modifies this
      ensures State() == M.Adopted(old(State()), s, read)
    {
      AdoptSeats(s, read);
      AdoptMode(s);
      AdoptCounters(s);
    }

    method AdoptSeats(s: M.Saved, read: M.Seats)
      modifies `seats, `phase, `winner
      ensures State() == old(State()).(seats := read, phase := s.phase, winner := s.winner)
    {
      seats, phase, winner := read, s.phase, s.winner;
    }

    method AdoptMode(s: M.Saved)
      modifies `mode, `vmfSingleSide
      ensures State() == old(State()).(mode := M.RestoredMode(s), vmf := s.vmf)
    {
      mode, vmfSingleSide := if s.vmf && s.mode == M.Pve then M.Pvp else s.mode, s.vmf;
    }

    method AdoptCounters(s: M.Saved)
      requires M.HeaderOk(s)
      modifies `revision, `nextUnitSequence, `rngState, `transfers
      ensures State() == old(State()).(revision := s.revision, nextUnit := s.nextUnit, rng := s.rng, transfers := map[])
    {
      revision, nextUnitSequence, rngState := s.revision, s.nextUnit, s.rng;
      transfers := map[];
    }

    /* ---------------------------------------------------------------- modes, limits and placeholders */

    method RemoveAllHeldBy(kind: M.Controller)
      modifies `seats
      ensures seats == M.WithoutAll(old(seats), kind)
    {
      var rest := seats.Keys;
      ghost var before := seats;
      while rest != {}
        invariant rest <= before.Keys && seats.Keys <= before.Keys
        invariant forall id :: id in seats ==> seats[id] == before[id]
        invariant forall id :: id in rest ==> id in seats
        invariant forall id :: id in before && id !in rest ==> (id in seats <==> before[id].controller != kind)
        decreases |rest|
      {
        var id :| id in rest;
        if seats[id].controller == kind { seats := seats - {id}; }
        rest := rest - {id};
      }
    }

    /** Reads back what was saved before an operation that has given up. */
    method FallBack(before: M.Saved)
      modifies this
      ensures State() == M.RolledBack(old(State()), before)
    {
      var _ := Restore(before);
    }

    method SetMode(requested: Option<M.Mode>, o: Orders) returns (outcome: Outcome)
      requires Valid()
      modifies this
      ensures (State(), outcome) == M.SetMode(old(State()), requested, o)
      ensures Valid()
    {
      if phase != M.Preparing {
        outcome := Failed(M.SeatLocked);
      } else if requested.None? {
        outcome := Failed(M.InvalidRoomMode);
      } else if vmfSingleSide && requested.value == M.Pve {
        outcome := Failed(M.VmfPveConflict);
      } else if mode == requested.value {
        outcome := KeepMode(o);
      } else if requested.value == M.Pvp {
        outcome := TurnPvp();
      } else {
        outcome := TurnPve(o);
      }
      Safety.SetModeIsSound(Any, old(State()), requested, o, State());
    }

    method KeepMode(o: Orders) returns (outcome: Outcome)
      modifies `seats, `nextUnitSequence, `revision
      ensures (State(), outcome)
           == if mode == M.Pve then M.SyncAiRoster(old(State()), o) else M.Same(old(State()))
    {
      if mode == M.Pve { outcome := Synchronise(o); } else { outcome := Unchanged(); }
    }

    method TurnPvp() returns (outcome: Outcome)
      modifies `mode, `seats, `revision
      ensures (State(), outcome) == M.Succeed(old(State()).(mode := M.Pvp, seats := M.WithoutAll(old(seats), M.Ai)))
    {
      mode := M.Pvp;
      RemoveAllHeldBy(M.Ai);
      outcome := Success();
    }

    method TurnPve(o: Orders) returns (outcome: Outcome)
      modifies this
      ensures (State(), outcome) == M.OrBack(old(State()), M.SyncAiRoster(old(State()).(mode := M.Pve), o), o)
    {
      var before := ToJson(o);
      outcome := EnterPve(o);
      KeepOrFallBack(outcome, before);
    }

    method EnterPve(o: Orders) returns (outcome: Outcome)
      modifies `mode, `seats, `nextUnitSequence, `revision
      ensures (State(), outcome) == M.SyncAiRoster(old(State()).(mode := M.Pve), o)
    {
      mode := M.Pve;
      assert State() == old(State()).(mode := M.Pve);
      outcome := Synchronise(o);
    }

    /** Keeps what a synchronisation has done, unless it has failed. */
    method KeepOrFallBack(roster: Outcome, before: M.Saved)
      modifies this
      ensures State() == if roster.ok then old(State()) else M.RolledBack(old(State()), before)
    {
      if !roster.ok { FallBack(before); }
    }

    static method LimitsAreValid(limits: M.Limits) returns (valid: bool)
      ensures valid == M.ValidLimits(limits)
    {
      var rest := limits.Keys;
      while rest != {}
        invariant rest <= limits.Keys
        invariant forall key :: key in limits && key !in rest ==> M.ValidLimit(key, limits[key])
        decreases |rest|
      {
        var key :| key in rest;
        if !M.ValidLimit(key, limits[key]) { return false; }
        rest := rest - {key};
      }
      valid := true;
    }

    method SetSeatLimits(limits: M.Limits) returns (ok: bool)
      requires Valid()
      modifies `seatLimits
      ensures (State(), ok) == M.SetSeatLimits(old(State()), limits)
      ensures Valid()
    {
      var valid := LimitsAreValid(limits);
      if !valid { return false; }
      LimitsAreSound(Any, State(), limits);
      var rest := seats.Keys;
      while rest != {}
        invariant rest <= seats.Keys
        invariant forall id :: id in seats && id !in rest ==> M.Fits(limits, vmfSingleSide, id)
        decreases |rest|
      {
        var id :| id in rest;
        if !M.Fits(limits, vmfSingleSide, id) { return false; }
        rest := rest - {id};
      }
      seatLimits := limits;
      ok := true;
    }

    method SetTemplateCatalog(catalog: M.Catalog) returns (ok: bool)
      requires Valid()
      modifies `templates
      ensures (State(), ok) == M.SetTemplateCatalog(old(State()), catalog)
      ensures Valid()
    {
      if !M.Complete(catalog) { return false; }
      CatalogIsSound(Any, State(), catalog);
      templates := catalog;
      ok := true;
    }

    method InstallPlaceholder(id: SeatId)
      modifies `seats, `nextUnitSequence
      ensures State() == M.InstallPlaceholder(old(State()), id)
    {
      if id in seats { return; }
      var template := M.For(id.kind);
      var position := if template in templates then templates[template].position else M.ORIGIN;
      var unit := M.Allocated(id.side, template, nextUnitSequence);
      nextUnitSequence := nextUnitSequence + 1;
      seats := seats[id := M.Seat(id, M.Placeholder, M.VmfAuto, "placeholder", template, None, unit, "", position, true,
                                  true, revision + 1, false, false)];
    }

    method InstallNumbered(key: M.LimitKey, last: int)
      modifies `seats, `nextUnitSequence
      ensures State() == M.InstallNumbered(old(State()), key, 1, last)
    {
      var index := 1;
      while index <= last
        invariant M.InstallNumbered(State(), key, index, last) == M.InstallNumbered(old(State()), key, 1, last)
      {
        InstallPlaceholder(M.SeatId(key.0, key.1, index));
        index := index + 1;
      }
    }

    method InstallMissing(keys: seq<M.LimitKey>)
      modifies `seats, `nextUnitSequence
      ensures State() == M.InstallMissing(old(State()), keys)
    {
      var i := 0;
      while i < |keys|
        invariant 0 <= i <= |keys|
        invariant M.InstallMissing(State(), keys[i..]) == M.InstallMissing(old(State()), keys)
      {
        assert keys[i..][1..] == keys[i + 1..];
        if keys[i].1 != M.Commander && keys[i] in seatLimits { InstallNumbered(keys[i], seatLimits[keys[i]]); }
        i := i + 1;
      }
    }

    method InstallPlaceholdersForMissing(o: Orders) returns (outcome: Outcome)
      requires Valid()
      modifies `seats, `nextUnitSequence, `revision
      ensures (State(), outcome) == M.InstallPlaceholders(old(State()), o)
      ensures Valid()
    {
      if phase != M.Preparing && phase != M.Running {
        outcome := Failed(M.SeatLocked);
      } else if vmfSingleSide {
        outcome := SyncVmfRoster(o);
      } else {
        outcome := FillUp(o);
      }
      Safety.InstallPlaceholdersIsSound(Any, old(State()), o);
    }

    method FillUp(o: Orders) returns (outcome: Outcome)
      modifies `seats, `nextUnitSequence, `revision
      ensures (State(), outcome) == M.FilledUp(old(State()), o)
    {
      var seatsBefore, unitsBefore := seats, nextUnitSequence;
      InstallMissing(o.limits(seatLimits.Keys));
      InstallingKeepsRevision(old(State()), o.limits(seatLimits.Keys));
      if seats == seatsBefore && nextUnitSequence == unitsBefore {
        outcome := Unchanged();
      } else {
        outcome := Success();
      }
    }

    static lemma {:induction false} InstallingKeepsRevision(r: Room, keys: seq<M.LimitKey>)
      ensures var t := M.InstallMissing(r, keys); t == r.(seats := t.seats, nextUnit := t.nextUnit)
      decreases |keys|
    {
      if keys != [] {
        if keys[0].1 != M.Commander && keys[0] in r.limits {
          NumberingKeepsRevision(r, keys[0], 1, r.limits[keys[0]]);
          InstallingKeepsRevision(M.InstallNumbered(r, keys[0], 1, r.limits[keys[0]]), keys[1..]);
        } else {
          InstallingKeepsRevision(r, keys[1..]);
        }
      }
    }

    static lemma {:induction false} NumberingKeepsRevision(r: Room, key: M.LimitKey, index: int, last: int)
      ensures var t := M.InstallNumbered(r, key, index, last); t == r.(seats := t.seats, nextUnit := t.nextUnit)
      decreases last - index
    {
      if index <= last {
        NumberingKeepsRevision(M.InstallPlaceholder(r, M.SeatId(key.0, key.1, index)), key, index + 1, last);
      }
    }

    method RemovePlaceholders() returns (outcome: Outcome)
      requires Valid()
      modifies `seats, `revision
      ensures (State(), outcome) == M.RemovePlaceholders(old(State()))
      ensures Valid()
    {
      if phase != M.Preparing {
        outcome := Failed(M.SeatLocked);
      } else if !M.AnyHeldBy(seats, M.Placeholder) {
        outcome := Unchanged();
      } else {
        RemoveAllHeldBy(M.Placeholder);
        outcome := Success();
      }
      Safety.RemovePlaceholdersIsSound(Any, old(State()));
    }

    /* ---------------------------------------------------------------- placing the opponent's units */

    static method ClearOfAll(p: GeoPos, placements: map<SeatId, GeoPos>) returns (clear: bool)
      ensures clear == M.ClearOf(p, placements)
    {
      var rest := placements.Keys;
      while rest != {}
        invariant rest <= placements.Keys
        invariant forall id :: id in placements && id !in rest ==> M.FarApart(p, placements[id])
        decreases |rest|
      {
        var id :| id in rest;
        if !M.FarApart(p, placements[id]) { return false; }
        rest := rest - {id};
      }
      clear := true;
    }

    static method ValidAiPosition(p: GeoPos, t: M.Terrain, placements: map<SeatId, GeoPos>) returns (valid: bool)
      ensures valid == M.ValidAiPosition(p, t, placements)
    {
      if p.x < 0.0 || p.y < 0.0 || p.x > t.width || p.y > t.height { return false; }
      valid := ClearOfAll(p, placements);
    }

    static method FindPosition(id: SeatId, start: GeoPos, t: M.Terrain, placements: map<SeatId, GeoPos>)
      returns (spot: Option<GeoPos>)
      ensures spot == M.Placed(id, start, t, placements)
    {
      var candidate := start;
      var placed := ValidAiPosition(candidate, t, placements);
      if placed { return Some(candidate); }
      var seed, attempt := t.seeds(id), 0;
      while attempt < M.PLACEMENT_ATTEMPTS && !placed
        invariant seed == Xorshift.Following(t.seeds(id), attempt)
        invariant placed ==> M.Retried(id, 0, t, start.alt, placements) == Some(candidate)
        invariant !placed ==>
                    M.Retried(id, 0, t, start.alt, placements) == M.Retried(id, attempt, t, start.alt, placements)
        decreases M.PLACEMENT_ATTEMPTS - attempt
      {
        seed := Xorshift.Next(seed);
        candidate := M.SpotOf(seed, t, start.alt);
        placed := ValidAiPosition(candidate, t, placements);
        attempt := attempt + 1;
      }
      spot := if placed then Some(candidate) else None;
    }

    method Station(id: SeatId, spot: GeoPos)
      requires id in seats
      modifies `seats
      ensures State() == M.Stationed(old(State()), id, spot)
    {
      seats := seats[id := seats[id].(position := spot, deployed := true, ready := true, revision := revision + 1)];
    }

    method DeployEach(ids: seq<SeatId>, t: M.Terrain, occupied: map<SeatId, GeoPos>) returns (all: bool)
      modifies `seats
      ensures (State(), all) == M.DeployEach(old(State()), ids, t, occupied)
    {
      var placements := occupied;
      var i := 0;
      while i < |ids|
        invariant 0 <= i <= |ids|
        invariant M.DeployEach(State(), ids[i..], t, placements) == M.DeployEach(old(State()), ids, t, occupied)
      {
        assert ids[i..][1..] == ids[i + 1..];
        var id := ids[i];
        if id in seats {
          var seat := seats[id];
          var start := if seat.template in templates then templates[seat.template].position else M.ORIGIN;
          var spot := FindPosition(id, start, t, placements);
          if spot.None? { return false; }
          Station(id, spot.value);
          placements := placements[id := spot.value];
        }
        i := i + 1;
      }
      all := true;
    }

    method DeployAiSeats(terrain: Option<M.Terrain>, o: Orders) returns (outcome: Outcome)
      requires Valid()
      modifies this
      ensures (State(), outcome) == M.DeployAiSeats(old(State()), terrain, o)
      ensures Valid()
    {
      if mode != M.Pve || phase != M.Preparing {
        outcome := Failed(M.SeatLocked);
      } else if terrain.None? || terrain.value.width <= 0.0 || terrain.value.height <= 0.0 {
        outcome := Failed(M.AiDeploymentFailed);
      } else {
        outcome := DeployOpponent(terrain.value, o);
      }
      Safety.DeployAiSeatsIsSound(Any, old(State()), terrain, o, State());
    }

    method DeployOpponent(terrain: M.Terrain, o: Orders) returns (outcome: Outcome)
      modifies this
      ensures (State(), outcome) == M.OpponentPlaced(old(State()), terrain, o)
    {
      var before := ToJson(o);
      var all := DeployEach(o.seats(M.AiSeats(seats)), terrain, M.Occupied(seats));
      if all {
        outcome := Success();
      } else {
        FallBack(before);
        outcome := Failed(M.AiDeploymentFailed);
      }
    }

    /* ---------------------------------------------------------------- taking a seat */

    method CommanderUnready(id: SeatId)
      modifies `seats
      ensures State() == M.CommanderUnready(old(State()), id)
    {
      if id in seats && seats[id].ready {
        seats := seats[id := seats[id].(ready := false, revision := revision + 1)];
      }
    }

    /** Why a claim is refused before it is known whether the person sits anywhere, if it is. */
    method CheckClaim(user: int, username: string, id: SeatId, template: Template) returns (code: Option<M.Code>)
      ensures code == M.ClaimObjection(State(), user, username, id, template)
    {
      var placeholderTakeover := id in seats && seats[id].controller == M.Placeholder;
      if (phase != M.Preparing && !placeholderTakeover) || user <= 0 || M.Blank(username) {
        return Some(M.InvalidState);
      }
      if !M.ValidSeat(templates, seatLimits, vmfSingleSide, id, template) { return Some(M.InvalidTemplate); }
      if vmfSingleSide && id.side != M.Red { return Some(M.SideReservedForFixedTarget); }
      if mode == M.Pve && id.side == M.Blue { return Some(M.SideReservedForAi); }
      if mode == M.Pve && !M.ValidSeat(templates, seatLimits, vmfSingleSide, M.Mirror(id), template) {
        return Some(M.AiRosterMismatch);
      }
      if id in seats && !seats[id].controller.Placeholder? && M.UserOf(seats[id]) != user {
        return Some(M.SeatOccupied);
      }
      if id.kind == M.Commander && id.side == M.Blue && M.RED_COMMANDER !in seats { return Some(M.CommanderPriority); }
      if id.kind != M.Commander && (M.RED_COMMANDER !in seats
                                        || (!vmfSingleSide && M.BLUE_COMMANDER !in seats)) {
        return Some(M.CommanderPriority);
      }
      code := None;
    }

    /** The seat a person takes, and whether a new unit has been numbered for it. */
    method MakeSeat(user: int, username: string, id: SeatId, template: Template) returns (seat: Seat)
      modifies `nextUnitSequence
      ensures seat == M.ClaimedSeat(old(State()), user, username, id, template)
      ensures nextUnitSequence == M.NumberAfterClaim(old(State()), id)
    {
      var taken := id in seats;
      var sourceId := if taken && seats[id].source.Some? then seats[id].source
                      else if id in seatSources then Some(seatSources[id]) else None;
      var bound := sourceId.Some? && sourceId.value in sourceUnits;
      seat := M.Seat(id, M.Human(user), M.ByHuman, username, template, sourceId,
                     M.Allocated(id.side, template, nextUnitSequence), "", M.ORIGIN, vmfSingleSide, false, revision + 1,
                     false, false);
      if taken {
        var previous := seats[id];
        seat := seat.(unitId := previous.unitId, unitName := previous.unitName, position := previous.position,
                      deployed := vmfSingleSide || previous.deployed);
      } else if !bound {
        nextUnitSequence := nextUnitSequence + 1;
      }
      if bound {
        var source := sourceUnits[sourceId.value];
        seat := seat.(template := M.For(source.kind));
        if !taken { seat := seat.(unitId := M.FromScenario(source.id)); }
        if vmfSingleSide { seat := seat.(position := source.position); }
      }
    }

    method Seat(user: int, username: string, id: SeatId, template: Template)
      modifies `seats, `nextUnitSequence, `departedUsers
      ensures State() == M.Seated(old(State()), user, username, id, template)
    {
      var seat := MakeSeat(user, username, id, template);
      seats := seats[id := seat];
      if id.kind != M.Commander { CommanderUnready(M.CommanderOf(id.side)); }
      departedUsers := departedUsers - {user};
    }

    method ClaimSeat(user: int, username: string, id: SeatId, template: Template, o: Orders) returns (outcome: Outcome)
      requires Valid()
      modifies this
      ensures (State(), outcome) == M.ClaimSeat(old(State()), user, username, id, template, o)
      ensures Valid()
    {
      PeopleSitOnce(State());
      var objection := CheckClaim(user, username, id, template);
      if objection.Some? {
        outcome := Failed(objection.value);
      } else {
        outcome := ClaimUnopposed(user, username, id, template, o);
      }
      Safety.ClaimSeatIsSound(Any, old(State()), user, username, id, template, o, State());
    }

    method ClaimUnopposed(user: int, username: string, id: SeatId, template: Template, o: Orders)
      returns (outcome: Outcome)
      requires OneSeatEach(seats)
      modifies this
      ensures (State(), outcome) == M.ClaimUnopposed(old(State()), user, username, id, template, o)
    {
      var current := SeatForUser(user);
      if current.None? {
        outcome := TakeSeat(user, username, id, template, o);
      } else if current.value != id {
        outcome := Failed(M.TransferRequired);
      } else {
        outcome := Unchanged();
      }
    }

    method TakeSeat(user: int, username: string, id: SeatId, template: Template, o: Orders) returns (outcome: Outcome)
      modifies this
      ensures (State(), outcome)
           == M.TakeSeat(old(State()), M.Seated(old(State()), user, username, id, template), id, o)
    {
      var before := ToJson(o);
      Seat(user, username, id, template);
      outcome := Success();
      if mode == M.Pve && id.side == M.Red {
        outcome := Synchronise(o);
        KeepOrFallBack(outcome, before);
      }
    }

    /* ---------------------------------------------------------------- changing seats */

    method RequestTransfer(user: int, target: SeatId, template: Template) returns (outcome: Outcome)
      requires Valid()
      modifies this
      ensures (State(), outcome) == M.RequestTransfer(old(State()), user, target, template)
      ensures Valid()
    {
      PeopleSitOnce(State());
      outcome := AskForTransfer(user, target, template);
      Safety.RequestTransferIsSound(Any, old(State()), user, target, template);
    }

    method AskForTransfer(user: int, target: SeatId, template: Template) returns (outcome: Outcome)
      requires OneSeatEach(seats)
      modifies this
      ensures (State(), outcome) == M.RequestTransfer(old(State()), user, target, template)
    {
      var current := SeatForUser(user);
      if phase != M.Preparing {
        outcome := Failed(M.SeatLocked);
      } else if current.None? {
        outcome := Failed(M.SeatRequired);
      } else if current.value.kind == M.Commander {
        outcome := Failed(M.SuccessorRequired);
      } else if user in transfers {
        outcome := Failed(M.TransferAlreadyPending);
      } else if !M.ValidSeat(templates, seatLimits, vmfSingleSide, target, template)
                || target.side != current.value.side || target.kind == M.Commander || target in seats {
        outcome := Failed(M.InvalidTransfer);
      } else if mode == M.Pve && target.side == M.Red
                && !M.ValidSeat(templates, seatLimits, vmfSingleSide, M.Mirror(target), template) {
        outcome := Failed(M.AiRosterMismatch);
      } else {
        outcome := NoteTransfer(current.value, user, target, template);
      }
    }

    method NoteTransfer(id: SeatId, user: int, target: SeatId, template: Template) returns (outcome: Outcome)
      requires id in seats
      modifies `seats, `transfers, `revision
      ensures (State(), outcome) == M.TransferNoted(old(State()), id, user, target, template)
    {
      revision := revision + 1;
      transfers := transfers[user := M.Transfer(user, target, template, revision)];
      seats := seats[id := seats[id].(pendingTransfer := true)];
      outcome := Failed(M.TransferPending);
    }

    method InvalidateTransfer(user: int, code: M.Code) returns (outcome: Outcome)
      requires OneSeatEach(seats)
      modifies `seats, `transfers, `revision
      ensures (State(), outcome) == M.InvalidateTransfer(old(State()), user, code)
    {
      var source := SeatForUser(user);
      if user !in transfers {
        outcome := Failed(code);
      } else {
        DropTransfer(user, source);
        outcome := Success();
      }
    }

    method DropTransfer(user: int, source: Option<SeatId>)
      requires source.Some? ==> source.value in seats
      modifies `seats, `transfers
      ensures State() == M.TransferDropped(old(State()), user, source)
    {
      RemoveTransfer(user);
      if source.Some? { seats := seats[source.value := seats[source.value].(pendingTransfer := false)]; }
    }

    method RemoveTransfer(user: int)
      modifies `transfers
      ensures transfers == M.WithoutTransfer(old(transfers), user)
    {
      transfers := transfers - {user};
    }

    method DropStaleTransfer(user: int) returns (outcome: Outcome)
      requires OneSeatEach(seats)
      modifies `seats, `transfers, `revision
      ensures (State(), outcome) == M.StaleTransferOf(old(State()), user)
    {
      if user in transfers { var _ := InvalidateTransfer(user, M.StaleTransfer); }
      outcome := Failed(M.StaleTransfer);
    }

    method CancelTransfer(user: int, requestedRevision: int) returns (outcome: Outcome)
      requires Valid()
      modifies `seats, `transfers, `revision
      ensures (State(), outcome) == M.CancelTransfer(old(State()), user, requestedRevision)
      ensures Valid()
    {
      PeopleSitOnce(State());
      if user !in transfers || transfers[user].revision != requestedRevision {
        outcome := DropStaleTransfer(user);
      } else {
        outcome := InvalidateTransfer(user, M.TransferNotFound);
      }
      Safety.CancelTransferIsSound(Any, old(State()), user, requestedRevision);
    }

    method Commands(commander: int, user: int) returns (yes: bool)
      requires OneSeatEach(seats)
      ensures yes == M.Commands(State(), commander, user)
    {
      var commanderSeat := SeatForUser(commander);
      var sourceSeat := SeatForUser(user);
      yes := commanderSeat.Some? && sourceSeat.Some? && commanderSeat.value.kind == M.Commander
             && commanderSeat.value.side == sourceSeat.value.side;
    }

    method RejectTransfer(commander: int, user: int, requestedRevision: int) returns (outcome: Outcome)
      requires Valid()
      modifies `seats, `transfers, `revision
      ensures (State(), outcome) == M.RejectTransfer(old(State()), commander, user, requestedRevision)
      ensures Valid()
    {
      PeopleSitOnce(State());
      var permitted := Commands(commander, user);
      if !permitted {
        outcome := Failed(M.PermissionDenied);
      } else if user !in transfers || transfers[user].revision != requestedRevision || requestedRevision != revision {
        outcome := DropStaleTransfer(user);
      } else {
        outcome := InvalidateTransfer(user, M.TransferNotFound);
      }
      Safety.RejectTransferIsSound(Any, old(State()), commander, user, requestedRevision);
    }

    /** Moves a person to another place, with a new unit that is not deployed yet. */
    method MoveTo(source: SeatId, target: SeatId, template: Template, user: int)
      requires source in seats
      modifies `seats, `transfers, `nextUnitSequence
      ensures State() == M.MovedTo(old(State()), source, target, template, user)
    {
      var seat := seats[source];
      RemoveSeat(source);
      RemoveTransfer(user);
      var unit := M.Allocated(target.side, template, nextUnitSequence);
      nextUnitSequence := nextUnitSequence + 1;
      seats := seats[target := seat.(seatId := target, template := template, unitId := unit, position := M.ORIGIN,
                                     deployed := false, ready := false, pendingTransfer := false,
                                     revision := revision + 1)];
    }

    method RemoveSeat(id: SeatId)
      modifies `seats
      ensures seats == M.Without(old(seats), id)
    {
      seats := seats - {id};
    }

    method Follow(o: Orders) returns (outcome: Outcome)
      modifies `seats, `nextUnitSequence, `revision
      ensures (State(), outcome) == M.Followed(old(State()), o)
    {
      outcome := Success();
      if mode == M.Pve { outcome := Synchronise(o); }
    }

    /** A person is gone, and the roster of the room's mode follows. */
    method Refill(o: Orders) returns (outcome: Outcome)
      modifies `seats, `nextUnitSequence, `revision
      ensures (State(), outcome) == M.Refilled(old(State()), o)
    {
      outcome := Success();
      if vmfSingleSide || mode == M.Pve { outcome := Restaff(o); }
    }

    method ApproveTransfer(commander: int, user: int, requestedRevision: int, o: Orders) returns (outcome: Outcome)
      requires Valid()
      modifies this
      ensures (State(), outcome) == M.ApproveTransfer(old(State()), commander, user, requestedRevision, o)
      ensures Valid()
    {
      PeopleSitOnce(State());
      outcome := GrantIfDue(commander, user, requestedRevision, o);
      Safety.ApproveTransferIsSound(Any, old(State()), commander, user, requestedRevision, o, State());
    }

    method GrantIfDue(commander: int, user: int, requestedRevision: int, o: Orders) returns (outcome: Outcome)
      requires OneSeatEach(seats)
      modifies this
      ensures (State(), outcome) == M.ApproveTransfer(old(State()), commander, user, requestedRevision, o)
    {
      var permitted := Commands(commander, user);
      if phase != M.Preparing {
        outcome := Failed(M.SeatLocked);
      } else if !permitted {
        outcome := Failed(M.PermissionDenied);
      } else if user !in transfers || requestedRevision != revision || transfers[user].revision != requestedRevision
                || transfers[user].target in seats {
        outcome := DropStaleTransfer(user);
      } else {
        outcome := GrantTo(user, o);
      }
    }

    method GrantTo(user: int, o: Orders) returns (outcome: Outcome)
      requires OneSeatEach(seats) && user in transfers && M.SeatOf(seats, user).Some?
      modifies this
      ensures (State(), outcome)
           == M.Granted(old(State()), M.SeatOf(old(seats), user).value, user, old(transfers)[user], o)
    {
      var source := SeatForUser(user);
      outcome := Grant(source.value, user, transfers[user], o);
    }

    method Grant(source: SeatId, user: int, transfer: Transfer, o: Orders) returns (outcome: Outcome)
      requires OneSeatEach(seats) && source in seats
      modifies this
      ensures (State(), outcome) == M.Granted(old(State()), source, user, transfer, o)
    {
      if !M.ValidSeat(templates, seatLimits, vmfSingleSide, transfer.target, transfer.template) {
        var _ := InvalidateTransfer(user, M.InvalidTransfer);
        outcome := Failed(M.InvalidTransfer);
      } else {
        MoveTo(source, transfer.target, transfer.template, user);
        outcome := Follow(o);
      }
    }

    /* ---------------------------------------------------------------- leaving */

    /** The successor's seat at the commander's place. */
    method MakeSuccessorSeat(place: SeatId, source: SeatId) returns (seat: Seat)
      requires place in seats && source in seats
      modifies `nextUnitSequence
      ensures seat == M.PromotedSeat(old(State()), seats[place], seats[source], place)
      ensures State() == old(State()).(nextUnit := if phase == M.Preparing then old(nextUnitSequence) + 1
                                                   else old(nextUnitSequence))
    {
      var commander := seats[place];
      seat := seats[source];
      if phase == M.Preparing {
        var unit := M.Allocated(place.side, M.For(M.Commander), nextUnitSequence);
        nextUnitSequence := nextUnitSequence + 1;
        seat := seat.(template := M.For(M.Commander), unitId := unit, unitName := "", position := M.ORIGIN,
                      deployed := false, ready := false);
      } else {
        seat := seat.(template := commander.template, unitId := commander.unitId, unitName := commander.unitName,
                      position := commander.position, deployed := commander.deployed, ready := commander.ready);
      }
      seat := seat.(seatId := place, pendingTransfer := false, revision := revision + 1);
    }

    method InstallSuccessor(place: SeatId, source: SeatId, commander: int, successor: int)
      requires place in seats && source in seats
      modifies `seats, `transfers, `departedUsers, `nextUnitSequence
      ensures State() == M.Promoted(old(State()), place, source, commander, successor)
    {
      var seat := MakeSuccessorSeat(place, source);
      MoveSeat(source, place, seat);
      Dismiss(commander, successor);
    }

    /** A seat is given up for another. */
    method MoveSeat(source: SeatId, place: SeatId, seat: Seat)
      modifies `seats
      ensures State() == old(State()).(seats := M.Without(old(seats), source)[place := seat])
    {
      RemoveSeat(source);
      seats := seats[place := seat];
    }

    /** The commander has departed, and the successor's transfer with them. */
    method Dismiss(commander: int, successor: int)
      modifies `transfers, `departedUsers
      ensures State() == old(State()).(transfers := M.WithoutTransfer(old(transfers), successor),
                                       departed := old(departedUsers) + {commander})
    {
      RemoveTransfer(successor);
      departedUsers := departedUsers + {commander};
    }

    method Promote(commander: int, successor: int, o: Orders) returns (outcome: Outcome)
      requires OneSeatEach(seats)
      modifies this
      ensures (State(), outcome) == M.Promote(old(State()), commander, successor, o)
    {
      var place := SeatForUser(commander);
      var source := SeatForUser(successor);
      if place.None? || source.None? {
        outcome := Failed(M.SuccessorNotFound);
      } else if place.value.kind != M.Commander || source.value.kind == M.Commander
                || place.value.side != source.value.side {
        outcome := Failed(M.InvalidSuccessor);
      } else {
        InstallSuccessor(place.value, source.value, commander, successor);
        outcome := Success();
        outcome := Join(outcome.(successor := successor), o);
      }
    }

    /** The roster of the room's mode follows a promotion while preparing. */
    method Join(result: Outcome, o: Orders) returns (outcome: Outcome)
      modifies `seats, `nextUnitSequence, `revision
      ensures (State(), outcome) == M.Joined(old(State()), result, o)
    {
      outcome := result;
      if phase == M.Preparing && (vmfSingleSide || mode == M.Pve) {
        var roster := Restaff(o);
        outcome := if roster.ok then outcome.(revision := roster.revision) else roster;
      }
    }

    method Depart(id: SeatId, user: int)
      modifies `seats, `departedUsers
      ensures State() == M.Gone(old(State()), id, user)
    {
      RemoveSeat(id);
      departedUsers := departedUsers + {user};
    }

    method Vacate(id: SeatId, user: int, o: Orders) returns (outcome: Outcome)
      modifies this
      ensures (State(), outcome) == M.Vacated(old(State()), id, user, o)
    {
      Depart(id, user);
      RemoveTransfer(user);
      assert State() == M.Gone(old(State()), id, user).(transfers := M.WithoutTransfer(old(transfers), user));
      if phase == M.Preparing { outcome := Refill(o); } else { outcome := Success(); }
    }

    method Leave(user: int, successor: int, o: Orders) returns (outcome: Outcome)
      requires Valid()
      modifies this
      ensures (State(), outcome) == M.Leave(old(State()), user, successor, o)
      ensures Valid()
    {
      PeopleSitOnce(State());
      outcome := GiveUpSeat(user, successor, o);
      Safety.LeaveIsSound(Any, old(State()), user, successor, o, State());
    }

    method GiveUpSeat(user: int, successor: int, o: Orders) returns (outcome: Outcome)
      requires OneSeatEach(seats)
      modifies this
      ensures (State(), outcome) == M.Leave(old(State()), user, successor, o)
    {
      var current := SeatForUser(user);
      if current.None? {
        outcome := Unchanged();
      } else if vmfSingleSide && phase != M.Preparing {
        outcome := ConvertToVmfAutomation(current.value);
      } else if current.value.kind == M.Commander {
        if successor <= 0 { outcome := Failed(M.SuccessorRequired); } else { outcome := Promote(user, successor, o); }
      } else {
        outcome := Vacate(current.value, user, o);
      }
    }

    /** The k-th smallest of a set of user ids. */
    static method Kth(users: set<int>, k: nat) returns (user: int)
      requires k < |users|
      ensures user == Ascending(users)[k]
      decreases k
    {
      user := Smallest(users);
      LeastComesFirst(users, user);
      if k > 0 { user := Kth(users - {user}, k - 1); }
    }

    static lemma LeastComesFirst(users: set<int>, least: int)
      requires Least(least, users)
      ensures Ascending(users) == [least] + Ascending(users - {least})
    {
    }

    static method Smallest(users: set<int>) returns (least: int)
      requires |users| > 0
      ensures Least(least, users)
    {
      ghost var some := Element(users);
      assert some in users;
      least :| least in users;
      var rest := users - {least};
      while rest != {}
        invariant rest <= users && least in users
        invariant forall user :: user in users && user !in rest ==> least <= user
        decreases |rest|
      {
        var user :| user in rest;
        if user < least { least := user; }
        rest := rest - {user};
      }
    }

    method ChooseSuccessor(side: M.Side) returns (successor: int)
      modifies `rngState
      ensures (State(), successor) == M.ChooseSuccessor(old(State()), side)
    {
      var candidates := M.Candidates(seats, side);
      if candidates == {} { return 0; }
      rngState := Xorshift.Next(rngState);
      successor := Kth(candidates, Xorshift.Value(rngState) % |candidates|);
    }

    method VacateCommander(id: SeatId, user: int, o: Orders) returns (outcome: Outcome)
      modifies this
      ensures (State(), outcome) == M.CommanderVacated(old(State()), id, user, o)
    {
      Depart(id, user);
      outcome := Refill(o);
    }

    method LeaveRoom(user: int, o: Orders) returns (outcome: Outcome)
      requires Valid()
      modifies this
      ensures (State(), outcome) == M.LeaveRoom(old(State()), user, o)
      ensures Valid()
    {
      PeopleSitOnce(State());
      outcome := DepartFromRoom(user, o);
      Safety.LeaveRoomIsSound(Any, old(State()), user, o, State());
    }

    method DepartFromRoom(user: int, o: Orders) returns (outcome: Outcome)
      requires OneSeatEach(seats)
      modifies this
      ensures (State(), outcome) == M.LeaveRoom(old(State()), user, o)
    {
      var current := SeatForUser(user);
      if current.None? {
        outcome := Unchanged();
      } else if vmfSingleSide && phase != M.Preparing {
        outcome := ConvertToVmfAutomation(current.value);
      } else if current.value.kind != M.Commander {
        outcome := GiveUpSeat(user, 0, o);
      } else {
        outcome := LeaveAsCommander(current.value, user, o);
      }
    }

    method LeaveAsCommander(id: SeatId, user: int, o: Orders) returns (outcome: Outcome)
      requires OneSeatEach(seats)
      modifies this
      ensures (State(), outcome)
           == M.CommanderLeaves(old(State()), id, user, M.ChooseSuccessor(old(State()), id.side), o)
    {
      var successor := ChooseSuccessor(id.side);
      outcome := LeaveCommand(old(State()), id, user, successor, o);
    }

    method LeaveCommand(ghost r: Room, id: SeatId, user: int, successor: int, o: Orders) returns (outcome: Outcome)
      requires OneSeatEach(seats) && r.phase == phase && (successor <= 0 ==> State() == r)
      modifies this
      ensures (State(), outcome) == M.CommanderLeaves(r, id, user, (old(State()), successor), o)
    {
      if successor > 0 {
        outcome := Promote(user, successor, o);
      } else if phase != M.Preparing {
        outcome := Failed(M.SuccessorRequired);
      } else {
        outcome := VacateCommander(id, user, o);
      }
    }

    method Disconnect(user: int, o: Orders) returns (outcome: Outcome)
      requires Valid()
      modifies this
      ensures (State(), outcome) == M.Disconnect(old(State()), user, o)
      ensures Valid()
    {
      PeopleSitOnce(State());
      outcome := DropConnection(user, o);
      Safety.DisconnectIsSound(Any, old(State()), user, o, State());
    }

    method DropConnection(user: int, o: Orders) returns (outcome: Outcome)
      requires OneSeatEach(seats)
      modifies this
      ensures (State(), outcome) == M.Disconnect(old(State()), user, o)
    {
      var current := SeatForUser(user);
      if current.None? {
        outcome := M.Outcome(true, None, revision, user in departedUsers, 0, false, None);
      } else if vmfSingleSide && phase != M.Preparing {
        outcome := ConvertToVmfAutomation(current.value);
      } else if current.value.kind != M.Commander {
        outcome := GiveUpSeat(user, 0, o);
      } else {
        outcome := LoseAsCommander(current.value, user, o);
      }
    }

    method LoseAsCommander(id: SeatId, user: int, o: Orders) returns (outcome: Outcome)
      requires OneSeatEach(seats)
      modifies this
      ensures (State(), outcome)
           == M.CommanderLost(old(State()), id, user, M.ChooseSuccessor(old(State()), id.side), o)
    {
      var successor := ChooseSuccessor(id.side);
      outcome := LoseCommand(old(State()), id, user, successor, o);
    }

    method LoseCommand(ghost r: Room, id: SeatId, user: int, successor: int, o: Orders) returns (outcome: Outcome)
      requires OneSeatEach(seats) && r.phase == phase && (successor <= 0 ==> State() == r)
      modifies this
      ensures (State(), outcome) == M.CommanderLost(r, id, user, (old(State()), successor), o)
    {
      if successor > 0 {
        outcome := Promote(user, successor, o);
      } else if phase == M.Preparing {
        outcome := VacateCommander(id, user, o);
      } else if phase == M.Finished {
        outcome := Unchanged();
      } else {
        outcome := Forfeit(id, user);
      }
    }

    method Forfeit(id: SeatId, user: int) returns (outcome: Outcome)
      modifies this
      ensures (State(), outcome) == M.Forfeited(old(State()), id, user, M.Opponent(id.side))
    {
      Depart(id, user);
      phase := M.Finished;
      winner := Some(if id.side == M.Red then M.BlueWins else M.RedWins);
      outcome := Success();
      outcome := outcome.(forfeit := true, winner := winner);
    }

    method Expel(id: SeatId, user: int)
      modifies `seats, `transfers, `revision
      ensures State() == M.Expelled(old(State()), id, user)
    {
      RemoveSeat(id);
      RemoveTransfer(user);
      revision := revision + 1;
    }

    method RemoveUser(user: int, o: Orders) returns (removed: bool)
      requires Valid()
      modifies this
      ensures (State(), removed) == M.RemoveUser(old(State()), user, o)
      ensures Valid()
    {
      PeopleSitOnce(State());
      var current := SeatForUser(user);
      removed := current.Some?;
      if removed {
        Expel(current.value, user);
        if phase == M.Preparing { var _ := Restaff(o); }
      }
      Safety.RemoveUserIsSound(Any, old(State()), user, o, State());
    }

    /* ---------------------------------------------------------------- deploying and getting ready */

    /** Puts a changed seat in its place, under the next revision. */
    method ReplaceSeat(id: SeatId, seat: Seat) returns (outcome: Outcome)
      modifies `seats, `revision
      ensures (State(), outcome) == M.Succeed(M.Put(old(State()), id, M.Touched(seat, old(State()))))
    {
      seats := seats[id := seat.(revision := revision + 1)];
      outcome := Success();
    }

    method PlaceSeat(id: SeatId, position: GeoPos) returns (outcome: Outcome)
      requires id in seats
      modifies `seats, `revision
      ensures (State(), outcome) == M.DeployedAt(old(State()), id, position)
    {
      outcome := ReplaceSeat(id, seats[id].(position := position, deployed := true, ready := false));
    }

    method Deploy(commander: int, id: SeatId, position: Option<GeoPos>) returns (outcome: Outcome)
      requires Valid()
      modifies `seats, `revision
      ensures (State(), outcome) == M.Deploy(old(State()), commander, id, position)
      ensures Valid()
    {
      PeopleSitOnce(State());
      var commands := CommandsSeat(commander, id);
      if !commands || position.None? || position.value.x < 0.0 || position.value.y < 0.0 {
        outcome := Failed(M.InvalidDeployment);
      } else {
        Safety.DeployedAtIsSound(Any, State(), id, position.value);
        outcome := PlaceSeat(id, position.value);
      }
    }

    method CommandsSeat(commander: int, id: SeatId) returns (commands: bool)
      requires OneSeatEach(seats)
      ensures commands == M.CommandsSeat(State(), commander, id)
    {
      var place := SeatForUser(commander);
      commands := place.Some? && place.value.kind == M.Commander && id in seats && place.value.side == id.side;
    }

    method DeployInitial(id: SeatId, position: Option<GeoPos>) returns (outcome: Outcome)
      requires Valid()
      modifies `seats, `revision
      ensures (State(), outcome) == M.DeployInitial(old(State()), id, position)
      ensures Valid()
    {
      if phase != M.Preparing || id !in seats || position.None? || position.value.x < 0.0 || position.value.y < 0.0 {
        outcome := Failed(M.InvalidDeployment);
      } else {
        Safety.DeployedAtIsSound(Any, State(), id, position.value);
        outcome := PlaceSeat(id, position.value);
      }
    }

    method SomebodyHoldsUp(side: M.Side) returns (held: bool)
      ensures held == exists id :: M.HoldsUp(seats, side, id)
    {
      var rest := seats.Keys;
      while rest != {}
        invariant rest <= seats.Keys
        invariant forall id :: id in seats && id !in rest ==> !M.HoldsUp(seats, side, id)
        decreases |rest|
      {
        var id :| id in rest;
        if M.HoldsUp(seats, side, id) { return true; }
        rest := rest - {id};
      }
      held := false;
    }

    method SetReady(user: int, ready: bool) returns (outcome: Outcome)
      requires Valid()
      modifies `seats, `revision
      ensures (State(), outcome) == M.SetReady(old(State()), user, ready)
      ensures Valid()
    {
      PeopleSitOnce(State());
      var current := SeatForUser(user);
      if current.None? || (ready && !seats[current.value].deployed) {
        outcome := Failed(M.NotDeployed);
      } else {
        outcome := MarkReady(current.value, ready);
      }
      Safety.SetReadyIsSound(Any, old(State()), user, ready);
    }

    method MarkReady(id: SeatId, ready: bool) returns (outcome: Outcome)
      requires id in seats
      modifies `seats, `revision
      ensures (State(), outcome) == M.MarkedReady(old(State()), id, ready)
    {
      var held := SomebodyHoldsUp(id.side);
      if ready && id.kind == M.Commander && held {
        outcome := Failed(M.FriendlySeatsNotReady);
      } else if seats[id].ready == ready {
        outcome := Unchanged();
      } else {
        outcome := ReplaceSeat(id, seats[id].(ready := ready));
      }
    }

    method SetUnitName(user: int, text: string) returns (outcome: Outcome)
      requires Valid()
      modifies `seats, `revision
      ensures (State(), outcome) == M.SetUnitName(old(State()), user, text)
      ensures Valid()
    {
      PeopleSitOnce(State());
      var current := SeatForUser(user);
      var name := M.Trim(text);
      if phase != M.Preparing || current.None? || name == "" || |name| > M.MAX_NAME_LENGTH {
        outcome := Failed(M.InvalidUnitName);
      } else if seats[current.value].unitName == name {
        outcome := Unchanged();
      } else {
        outcome := ReplaceSeat(current.value, seats[current.value].(unitName := name));
      }
      Safety.SetUnitNameIsSound(Any, old(State()), user, text);
    }

    method ClearReadiness()
      requires Valid()
      modifies `seats, `revision
      ensures State() == M.ClearReadiness(old(State()))
      ensures Valid()
    {
      StampAll(vmfSingleSide, revision + 1);
      revision := revision + 1;
      Safety.ClearReadinessIsSound(Any, old(State()));
    }

    method RequestRedeploy(user: int) returns (outcome: Outcome)
      requires Valid()
      modifies `seats, `revision
      ensures (State(), outcome) == M.RequestRedeploy(old(State()), user)
      ensures Valid()
    {
      PeopleSitOnce(State());
      var current := SeatForUser(user);
      if phase != M.Preparing || current.None? || !seats[current.value].deployed {
        outcome := Failed(M.NotDeployed);
      } else if seats[current.value].redeployRequested {
        outcome := Unchanged();
      } else {
        outcome := ReplaceSeat(current.value, seats[current.value].(redeployRequested := true));
      }
      Safety.RequestRedeployIsSound(Any, old(State()), user);
    }

    /** The seat that is named, or else the only one of the side that asks to be deployed anew. */
    method FindRedeployTarget(side: M.Side, named: Option<SeatId>) returns (target: Result<SeatId, M.Code>)
      ensures target == M.RedeployTarget(State(), side, named)
    {
      if named.Some? { return Ok(named.value); }
      var asking := M.Requesting(seats, side);
      if asking == {} { return Err(M.InvalidRedeployTarget); }
      var one :| one in asking;
      target := if asking == {one} then Ok(one) else Err(M.TargetRequired);
    }

    method ClearSeat(place: SeatId, target: SeatId) returns (outcome: Outcome)
      requires target in seats
      modifies `seats, `transfers, `revision
      ensures (State(), outcome) == M.Redeployed(old(State()), place, target)
    {
      RemoveTransfer(M.UserOf(seats[target]));
      seats := seats[target := seats[target].(position := M.ORIGIN, deployed := false, ready := false,
                                              pendingTransfer := false, redeployRequested := false,
                                              revision := revision + 1)];
      if target != place { CommanderUnready(place); }
      outcome := Success();
    }

    method Redeploy(commander: int, named: Option<SeatId>) returns (outcome: Outcome)
      requires Valid()
      modifies `seats, `transfers, `revision
      ensures (State(), outcome) == M.Redeploy(old(State()), commander, named)
      ensures Valid()
    {
      PeopleSitOnce(State());
      outcome := RedeployBy(commander, named);
      Safety.RedeployIsSound(Any, old(State()), commander, named, State());
    }

    method RedeployBy(commander: int, named: Option<SeatId>) returns (outcome: Outcome)
      requires OneSeatEach(seats)
      modifies `seats, `transfers, `revision
      ensures (State(), outcome) == M.Redeploy(old(State()), commander, named)
    {
      var place := SeatForUser(commander);
      if phase != M.Preparing || place.None? || place.value.kind != M.Commander {
        outcome := Failed(M.PermissionDenied);
      } else {
        outcome := RedeployFor(place.value, named);
      }
    }

    method RedeployFor(place: SeatId, named: Option<SeatId>) returns (outcome: Outcome)
      modifies `seats, `transfers, `revision
      ensures (State(), outcome) == M.RedeployedFor(old(State()), place, named)
    {
      var target := FindRedeployTarget(place.side, named);
      if target.Err? {
        outcome := Failed(target.error);
      } else if target.value !in seats || target.value.side != place.side || !seats[target.value].deployed {
        outcome := Failed(M.InvalidRedeployTarget);
      } else {
        outcome := ClearSeat(place, target.value);
      }
    }

    /* ---------------------------------------------------------------- the match */

    method AllReady() returns (ready: bool)
      ensures ready == M.EverySeatReady(seats)
    {
      var rest := seats.Keys;
      while rest != {}
        invariant rest <= seats.Keys
        invariant forall id :: id in seats && id !in rest ==> seats[id].deployed && seats[id].ready
        decreases |rest|
      {
        var id :| id in rest;
        if !seats[id].deployed || !seats[id].ready { return false; }
        rest := rest - {id};
      }
      ready := true;
    }

    method Readiness() returns (readiness: M.Readiness)
      ensures readiness == M.ReadinessOf(State())
    {
      var red := M.RED_COMMANDER in seats;
      var humanRedCommander := red && seats[M.RED_COMMANDER].controller.Human?
                               && seats[M.RED_COMMANDER].controller.user > 0;
      var commanders := (if vmfSingleSide then humanRedCommander else red) && M.BLUE_COMMANDER in seats;
      var all := AllReady();
      readiness := M.Readiness(commanders, humanRedCommander && seats[M.RED_COMMANDER].deployed
                                           && seats[M.RED_COMMANDER].ready, commanders && all);
    }

    method Start() returns (outcome: Outcome)
      requires Valid()
      modifies `phase, `revision
      ensures (State(), outcome) == M.StartMatch(old(State()))
      ensures Valid()
    {
      var readiness := Readiness();
      if (phase != M.Preparing && phase != M.Paused) || !readiness.ready {
        outcome := Failed(M.NotReady);
      } else {
        phase := M.Running;
        outcome := Success();
      }
      Safety.StartIsSound(Any, old(State()));
    }

    method Pause() returns (outcome: Outcome)
      requires Valid()
      modifies `phase, `revision
      ensures (State(), outcome) == M.PauseMatch(old(State()))
      ensures Valid()
    {
      if phase != M.Running {
        outcome := Failed(M.InvalidState);
      } else {
        phase := M.Paused;
        outcome := Success();
      }
      Safety.PauseIsSound(Any, old(State()));
    }

    method Finish(result: Option<M.Winner>) returns (outcome: Outcome)
      requires Valid()
      modifies `phase, `winner, `revision
      ensures (State(), outcome) == M.FinishMatch(old(State()), result)
      ensures Valid()
    {
      if result.None? {
        outcome := Failed(M.InvalidResult);
      } else if phase == M.Finished {
        if winner != result {
          outcome := Failed(M.ResultConflict);
        } else {
          outcome := Unchanged();
          outcome := outcome.(winner := winner);
        }
      } else {
        phase, winner := M.Finished, result;
        outcome := Success();
        outcome := outcome.(winner := winner);
      }
      Safety.FinishIsSound(Any, old(State()), result);
    }

    method ClearOne(id: SeatId)
      requires id in seats
      modifies `seats, `nextUnitSequence
      ensures State() == M.ClearedOne(old(State()), id)
    {
      var seat := seats[id];
      var sourceId := if seat.source.Some? then seat.source
                      else if seat.seatId in seatSources then Some(seatSources[seat.seatId]) else None;
      var unit := M.Allocated(seat.seatId.side, seat.template, nextUnitSequence);
      if sourceId.Some? && sourceId.value in sourceUnits {
        unit := M.FromScenario(sourceUnits[sourceId.value].id);
      } else {
        nextUnitSequence := nextUnitSequence + 1;
      }
      seats := seats[id := seat.(unitId := unit, position := M.ORIGIN, deployed := false, ready := false,
                                 pendingTransfer := false, redeployRequested := false, revision := revision + 1)];
    }

    method ClearDeployment(ids: seq<SeatId>)
      modifies `seats, `nextUnitSequence
      ensures State() == M.ClearedEach(old(State()), ids)
    {
      var i := 0;
      while i < |ids|
        invariant 0 <= i <= |ids|
        invariant M.ClearedEach(State(), ids[i..]) == M.ClearedEach(old(State()), ids)
      {
        assert ids[i..][1..] == ids[i + 1..];
        if ids[i] in seats { ClearOne(ids[i]); }
        i := i + 1;
      }
    }

    method BackToStart()
      modifies `phase, `winner, `transfers
      ensures State() == M.BackToStart(old(State()))
    {
      phase, winner, transfers := M.Preparing, None, map[];
    }

    /** Takes effect and is remembered, unless the roster has failed. */
    method Conclude(roster: Outcome, id: string) returns (outcome: Outcome)
      modifies `operations, `operationOrder, `revision
      ensures (State(), outcome) == M.Concluded((old(State()), roster), id)
    {
      if !roster.ok { return roster; }
      outcome := Success();
      var memory := Trim(M.Memory(operations[id := revision], operationOrder + [id]));
      operations, operationOrder := memory.operations, memory.order;
    }

    method ApplyOperation(id: string, action: Option<M.Action>, requestedRevision: int, o: Orders)
      returns (outcome: Outcome)
      requires Valid()
      modifies this
      ensures (State(), outcome) == M.ApplyOperation(old(State()), id, action, requestedRevision, o)
      ensures Valid()
    {
      if M.Blank(id) {
        outcome := Failed(M.InvalidOperation);
      } else if id in operations {
        outcome := M.Outcome(true, None, operations[id], true, 0, false, None);
      } else if requestedRevision != revision {
        outcome := Failed(M.StaleRevision);
      } else if action.None? {
        outcome := Failed(M.InvalidOperation);
      } else {
        outcome := Operate(id, action.value, o);
      }
      Safety.ApplyOperationIsSound(Any, old(State()), id, action, requestedRevision, o, State());
    }

    method Operate(id: string, action: M.Action, o: Orders) returns (outcome: Outcome)
      modifies this
      ensures (State(), outcome) == M.Operated(old(State()), id, action, o)
    {
      BackToStart();
      if action == M.RedeployRoom { outcome := RedeployAll(id, o); } else { outcome := Reset(id, o); }
    }

    method RedeployAll(id: string, o: Orders) returns (outcome: Outcome)
      modifies this
      ensures (State(), outcome) == M.Concluded(M.Same(M.ClearedEach(old(State()), o.seats(old(seats).Keys))), id)
    {
      ClearDeployment(o.seats(seats.Keys));
      outcome := Unchanged();
      outcome := Conclude(outcome, id);
    }

    method Reset(id: string, o: Orders) returns (outcome: Outcome)
      modifies this
      ensures (State(), outcome) == M.Reset(old(State()).(seats := map[]), id, o)
    {
      seats := map[];
      assert State() == old(State()).(seats := map[]);
      outcome := Restaff(o);
      outcome := Conclude(outcome, id);
    }
  }
}

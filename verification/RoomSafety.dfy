/**
 Every operation of the room keeps it sound, and so every room that can come about is: one lemma for each operation,
 in the order in which the room offers them.
 */
module RoomSafety {
  import opened Listings
  import opened Options
  import opened RoomInvariants
  import opened RoomModel
  import opened RoomRollback
  import Xorshift

  /* ------------------------------------------------------------------ modes and placeholders */

  lemma DroppingAiIsSound(g: Regime, r: Room, t: Room)
    requires Sound(g, r) && t == r.(mode := Pvp, seats := WithoutAll(r.seats, Ai))
    ensures Sound(g, t)
  {
    MatchMeans(g, r);
    PartedIsSound(g, r, t);
  }

  /** Falling back on what was saved before leaves a sound room. */
  lemma OrBackIsSound(g: Regime, r: Room, roster: Step, o: Orders, t: Room)
    requires Sound(g, r) && Sound(g, roster.0) && SameRules(r, roster.0) && t == OrBack(r, roster, o).0
    ensures Sound(g, t)
  {
    if !roster.1.ok { RollingBackIsSound(g, r, roster.0, o, t); }
  }

  lemma FollowedIsSound(g: Regime, r: Room, o: Orders, t: Room)
    requires Sound(g, r) && t == Followed(r, o).0
    ensures Sound(g, t)
  {
    SucceedingIsSound(g, r);
    SyncingIsSound(g, Succeed(r).0, o);
  }

  lemma RestaffedIsSound(g: Regime, r: Room, o: Orders)
    requires Sound(g, r)
    ensures Proceeds(g, r, Restaffed(r, o).0)
  {
    StayingProceeds(g, r);
    SyncingVmfIsSound(g, r, o);
    SyncingIsSound(g, r, o);
  }

  lemma RefilledIsSound(g: Regime, r: Room, o: Orders, t: Room)
    requires Sound(g, r) && t == Refilled(r, o).0
    ensures Sound(g, t)
  {
    SucceedingIsSound(g, r);
    RestaffedIsSound(g, Succeed(r).0, o);
  }

  lemma TurningPveIsSound(g: Regime, r: Room)
    requires Sound(g, r) && !r.vmf
    ensures Sound(g, r.(mode := Pve))
  {
    SoundMeans(g, r);
    SoundWhen(g, r.(mode := Pve));
  }

  lemma SetModeIsSound(g: Regime, r: Room, mode: Option<Mode>, o: Orders, t: Room)
    requires Sound(g, r) && t == SetMode(r, mode, o).0
    ensures Sound(g, t)
  {
    if mode.Some? && r.phase == Preparing && !(r.vmf && mode.value == Pve) {
      if r.mode == mode.value {
        SyncingIsSound(g, r, o);
      } else if mode.value == Pvp {
        var pvp := r.(mode := Pvp, seats := WithoutAll(r.seats, Ai));
        DroppingAiIsSound(g, r, pvp);
        SucceedingIsSound(g, pvp);
      } else {
        var pve := r.(mode := Pve);
        TurningPveIsSound(g, r);
        SyncingIsSound(g, pve, o);
        OrBackIsSound(g, r, SyncAiRoster(pve, o), o, t);
      }
    }
  }

  /* ------------------------------------------------------------------ the single-side mode and the scenario */

  /** The single-side mode begins with nobody on the blue side and no opponent. */
  lemma EnteringIsSound(r: Room)
    requires Sound(Any, r) && r.mode == Pvp && forall id :: !BluePerson(r.seats, id)
    ensures Sound(Any, r.(vmf := true))
  {
    var t := r.(vmf := true);
    SoundMeans(Any, r);
    forall id | id in t.seats ensures SeatOk(BasisOf(Any, t), id, t.seats[id]) {
      assert SeatOk(BasisOf(Any, r), id, r.seats[id]) && !BluePerson(r.seats, id);
    }
    SoundWhen(Any, t);
  }

  lemma DroppingPlaceholdersIsSound(g: Regime, r: Room, t: Room)
    requires Sound(g, r) && t == r.(seats := WithoutAll(r.seats, Placeholder))
    ensures Sound(g, t)
  {
    MatchMeans(g, r);
    PartedIsSound(g, r, t);
  }

  lemma LeavingModeIsSound(r: Room, t: Room)
    requires Sound(Any, r) && t == r.(vmf := false, seats := WithoutAll(r.seats, Placeholder))
    ensures Sound(Any, t)
  {
    var u := r.(seats := t.seats);
    DroppingPlaceholdersIsSound(Any, r, u);
    SoundMeans(Any, u);
    forall id | id in t.seats ensures SeatOk(BasisOf(Any, t), id, t.seats[id]) {
      assert SeatOk(BasisOf(Any, u), id, u.seats[id]);
    }
    SoundWhen(Any, t);
  }

  lemma SetVmfSingleSideIsSound(g: Regime, r: Room, enabled: bool, o: Orders, t: Room)
    requires Sound(g, r) && (g.Standard? ==> !enabled) && t == SetVmfSingleSide(r, enabled, o).0
    ensures Sound(g, t)
  {
    SoundMeans(g, r);
    if enabled && r.mode == Pvp && forall id :: !BluePerson(r.seats, id) {
      EnteringIsSound(r);
      SyncingVmfIsSound(Any, r.(vmf := true), o);
    } else if !enabled && r.vmf {
      var left := r.(vmf := false, seats := WithoutAll(r.seats, Placeholder));
      LeavingModeIsSound(r, left);
      SucceedingIsSound(Any, left);
    }
  }

  lemma BoundSeatsAreAlike(r: Room, b: Binding)
    ensures AllAlike(Any, r.seats, BoundRoom(r, b).seats)
    ensures forall id :: id in BoundRoom(r, b).seats ==>
              BoundRoom(r, b).seats[id].pendingTransfer == r.seats[id].pendingTransfer
  {
  }

  lemma BindingKeepsWaiting(r: Room, b: Binding)
    requires Sound(Any, r) && forall id :: !Obstructs(r, b.units, id)
    ensures WaitingWithout(r.seats, BoundRoom(r, b).seats, 0)
  {
    BoundSeatsAreAlike(r, b);
    forall id | id in r.seats && r.seats[id].controller.Human? ensures id in BoundRoom(r, b).seats {
      assert !Obstructs(r, b.units, id);
    }
  }

  /** Binding changes what seats are bound to, and not who sits there; the seats that go are nobody's. */
  lemma BindingIsSound(r: Room, b: Binding, t: Room)
    requires Sound(Any, r) && t == BoundRoom(r, b) && forall id :: !Obstructs(r, b.units, id)
    ensures Sound(Any, t)
  {
    var u := t.(bound := r.bound);
    BoundSeatsAreAlike(r, b);
    BindingKeepsWaiting(r, b);
    SoundMeans(Any, r);
    ChangingAllKeepsSeating(BasisOf(Any, r), r.seats, u.seats);
    ReseatedIsSound(Any, r, u);
    RebindingIsSound(u, b);
  }

  lemma RebindingIsSound(r: Room, b: Binding)
    requires Sound(Any, r)
    ensures Sound(Any, r.(bound := b))
  {
    SoundMeans(Any, r);
    SoundWhen(Any, r.(bound := b));
  }

  lemma SetScenarioUnitsIsSound(r: Room, units: seq<ScenarioUnit>, o: Orders, result: Option<(Room, bool)>)
    requires Sound(Any, r) && result == SetScenarioUnits(r, units, o) && result.Some?
    ensures Sound(Any, result.value.0)
  {
    var sources := ReadSources(units);
    if result.value.1 {
      var b := Binding(sources.value, Bindings(r, sources.value, o).value);
      BindingIsSound(r, b, result.value.0);
    }
  }

  /* ------------------------------------------------------------------ placeholders */

  lemma PlaceholderSeatIsOk(g: Regime, r: Room, id: SeatId, later: Basis)
    requires Sound(g, r) && (id.side, id.kind) in r.limits && id.kind != Commander
    requires 1 <= id.index <= r.limits[(id.side, id.kind)]
    requires later == BasisOf(g, r).(nextUnit := r.nextUnit + 1)
    ensures SeatOk(later, id, PlaceholderSeat(r, id))
    ensures g.Standard? ==> UnitIsNew(r.seats, id, PlaceholderSeat(r, id).unitId)
  {
    SoundMeans(g, r);
    if g.Standard? {
      CompleteHas(r.templates, id.kind);
      NextNumberIsNew(BasisOf(g, r), r.seats, id, id.side, For(id.kind));
    }
  }

  lemma PlaceholderIsSound(g: Regime, r: Room, key: LimitKey, index: int)
    requires Sound(g, r) && key in r.limits && key.1 != Commander && 1 <= index <= r.limits[key]
    ensures Proceeds(g, r, InstallPlaceholder(r, SeatId(key.0, key.1, index)))
  {
    var id := SeatId(key.0, key.1, index);
    StayingProceeds(g, r);
    if id !in r.seats {
      var seat := PlaceholderSeat(r, id);
      PlaceholderSeatIsOk(g, r, id, BasisOf(g, r).(nextUnit := r.nextUnit + 1));
      NewSeatIsSound(g, r, id, seat, Put(r, id, seat).(nextUnit := r.nextUnit + 1));
    }
  }

  /** An empty seat is taken by nobody in person. */
  lemma NewSeatIsSound(g: Regime, r: Room, id: SeatId, seat: Seat, t: Room)
    requires Sound(g, r) && id !in r.seats && t == Put(r, id, seat).(nextUnit := r.nextUnit + 1)
    requires SeatOk(BasisOf(g, t), id, seat) && (g.Standard? ==> UnitIsNew(r.seats, id, seat.unitId))
    requires !seat.controller.Human? && !seat.pendingTransfer
    ensures Proceeds(g, r, t)
  {
    MatchMeans(g, r);
    PuttingIsSound(g, r, id, seat, t);
  }

  lemma {:induction false} NumberedAreSound(g: Regime, r: Room, key: LimitKey, index: int, last: int)
    requires Sound(g, r) && key in r.limits && key.1 != Commander && 1 <= index && last <= r.limits[key]
    ensures Sound(g, InstallNumbered(r, key, index, last)) && Carries(r, InstallNumbered(r, key, index, last))
    decreases last - index
  {
    MatchMeans(g, r);
    if index <= last {
      var t := InstallPlaceholder(r, SeatId(key.0, key.1, index));
      PlaceholderIsSound(g, r, key, index);
      NumberedAreSound(g, t, key, index + 1, last);
    }
  }

  lemma {:induction false} MissingAreSound(g: Regime, r: Room, keys: seq<LimitKey>)
    requires Sound(g, r)
    ensures var t := InstallMissing(r, keys); Sound(g, t) && Carries(r, t)
    decreases |keys|
  {
    MatchMeans(g, r);
    if keys != [] {
      var t := if keys[0].1 == Commander || keys[0] !in r.limits then r
               else InstallNumbered(r, keys[0], 1, r.limits[keys[0]]);
      if keys[0].1 != Commander && keys[0] in r.limits { NumberedAreSound(g, r, keys[0], 1, r.limits[keys[0]]); }
      MissingAreSound(g, t, keys[1..]);
    }
  }

  lemma InstallPlaceholdersIsSound(g: Regime, r: Room, o: Orders)
    requires Sound(g, r)
    ensures Sound(g, InstallPlaceholders(r, o).0)
  {
    var t := InstallMissing(r, o.limits(r.limits.Keys));
    MissingAreSound(g, r, o.limits(r.limits.Keys));
    SucceedingIsSound(g, t);
    SyncingVmfIsSound(g, r, o);
  }

  lemma RemovePlaceholdersIsSound(g: Regime, r: Room)
    requires Sound(g, r)
    ensures Sound(g, RemovePlaceholders(r).0)
  {
    var t := r.(seats := WithoutAll(r.seats, Placeholder));
    DroppingPlaceholdersIsSound(g, r, t);
    SucceedingIsSound(g, t);
  }

  /* ------------------------------------------------------------------ placing the opponent's units */

  lemma StationedIsSound(g: Regime, r: Room, id: SeatId, spot: GeoPos)
    requires Sound(g, r) && id in r.seats
    ensures Proceeds(g, r, Stationed(r, id, spot))
  {
    MatchMeans(g, r);
    ChangedSeatIsSound(g, r, id, Stationed(r, id, spot).seats[id], Stationed(r, id, spot));
  }

  lemma {:induction false} DeployingEachIsSound(g: Regime, r: Room, ids: seq<SeatId>, t: Terrain,
                                                placements: map<SeatId, GeoPos>)
    requires Sound(g, r)
    ensures Proceeds(g, r, DeployEach(r, ids, t, placements).0)
    decreases |ids|
  {
    StayingProceeds(g, r);
    if ids != [] {
      if ids[0] !in r.seats {
        DeployingEachIsSound(g, r, ids[1..], t, placements);
      } else {
        var spot := Placed(ids[0], TemplatePosition(r, r.seats[ids[0]].template), t, placements);
        if spot.Some? {
          StationedIsSound(g, r, ids[0], spot.value);
          DeployingEachIsSound(g, Stationed(r, ids[0], spot.value), ids[1..], t, placements[ids[0] := spot.value]);
        }
      }
    }
  }

  lemma DeployAiSeatsIsSound(g: Regime, r: Room, terrain: Option<Terrain>, o: Orders, t: Room)
    requires Sound(g, r) && t == DeployAiSeats(r, terrain, o).0
    ensures Sound(g, t)
  {
    if terrain.Some? {
      var ids := o.seats(AiSeats(r.seats));
      var each := DeployEach(r, ids, terrain.value, Occupied(r.seats));
      DeployingEachIsSound(g, r, ids, terrain.value, Occupied(r.seats));
      AfterPlacingIsSound(g, r, each, o, AfterPlacing(r, each, o).0);
    }
  }

  lemma AfterPlacingIsSound(g: Regime, r: Room, each: (Room, bool), o: Orders, t: Room)
    requires Sound(g, r) && Sound(g, each.0) && SameRules(r, each.0) && t == AfterPlacing(r, each, o).0
    ensures Sound(g, t)
  {
    if each.1 { SucceedingIsSound(g, each.0); } else { RollingBackIsSound(g, r, each.0, o, t); }
  }

  /* ------------------------------------------------------------------ taking a seat */

  lemma UnreadySeatIsSound(g: Regime, r: Room, id: SeatId, t: Room)
    requires Sound(g, r) && id in r.seats && t == Put(r, id, Touched(r.seats[id].(ready := false), r))
    ensures Proceeds(g, r, t)
  {
    MatchMeans(g, r);
    ChangedSeatIsSound(g, r, id, Touched(r.seats[id].(ready := false), r), t);
  }

  lemma UnreadyingCommanderIsSound(g: Regime, r: Room, id: SeatId)
    requires Sound(g, r)
    ensures Proceeds(g, r, CommanderUnready(r, id))
  {
    var t := CommanderUnready(r, id);
    StayingProceeds(g, r);
    if t != r { UnreadySeatIsSound(g, r, id, t); }
  }

  /** Whoever claims a seat may have it: a place of its own, which is empty or a placeholder's. */
  predicate Claimable(r: Room, user: int, id: SeatId, template: Template) {
    && user > 0 && ValidSeat(r.templates, r.limits, r.vmf, id, template) && (r.vmf ==> id.side == Red)
    && (id in r.seats ==> r.seats[id].controller.Placeholder?)
  }

  lemma ClaimedSeatIsOk(g: Regime, r: Room, user: int, username: string, id: SeatId, template: Template, later: Basis)
    requires Sound(g, r) && Claimable(r, user, id, template)
    requires later == BasisOf(g, r).(nextUnit := NumberAfterClaim(r, id))
    ensures SeatOk(later, id, ClaimedSeat(r, user, username, id, template))
    ensures g.Standard? ==> UnitIsNew(r.seats, id, ClaimedSeat(r, user, username, id, template).unitId)
  {
    SoundMeans(g, r);
    if id in r.seats { assert SeatOk(BasisOf(g, r), id, r.seats[id]); }
    if g.Standard? {
      if id in r.seats { OwnUnitIsNew(r.seats, id); }
      else { NextNumberIsNew(BasisOf(g, r), r.seats, id, id.side, template); }
    }
  }

  lemma ClaimedIsSound(g: Regime, r: Room, user: int, username: string, id: SeatId, template: Template, t: Room)
    requires Sound(g, r) && SeatOf(r.seats, user).None? && Claimable(r, user, id, template)
    requires t == Put(r, id, ClaimedSeat(r, user, username, id, template)).(nextUnit := NumberAfterClaim(r, id))
    ensures Proceeds(g, r, t)
  {
    SoundMeans(g, r);
    ClaimedSeatIsOk(g, r, user, username, id, template, BasisOf(g, t));
    PuttingIsSound(g, r, id, ClaimedSeat(r, user, username, id, template), t);
  }

  lemma DepartureIsSound(g: Regime, r: Room, t: Room)
    requires Sound(g, r) && t == r.(departed := t.departed)
    ensures Sound(g, t)
  {
    MatchMeans(g, r);
    UnseatedIsSound(g, r, t);
  }

  lemma SeatedIsSound(g: Regime, r: Room, user: int, username: string, id: SeatId, template: Template, seated: Room)
    requires Sound(g, r) && SeatOf(r.seats, user).None? && Claimable(r, user, id, template)
    requires seated == Seated(r, user, username, id, template)
    ensures Proceeds(g, r, seated)
  {
    var t := Put(r, id, ClaimedSeat(r, user, username, id, template)).(nextUnit := NumberAfterClaim(r, id));
    ClaimedIsSound(g, r, user, username, id, template, t);
    UnreadyingCommanderIsSound(g, t, CommanderOf(id.side));
    DepartureIsSound(g, if id.kind != Commander then CommanderUnready(t, CommanderOf(id.side)) else t, seated);
  }

  /** A claim that is not refused finds the seat empty, or held by a placeholder. */
  lemma ClaimedSeatIsFree(r: Room, user: int, username: string, id: SeatId, template: Template)
    requires ClaimObjection(r, user, username, id, template).None? && SeatOf(r.seats, user).None?
    ensures Claimable(r, user, id, template)
  {
    assert !Holds(r.seats, id, user);
  }

  lemma TakingSeatIsSound(g: Regime, r: Room, seated: Room, id: SeatId, o: Orders, t: Room)
    requires Sound(g, r) && Proceeds(g, r, seated) && t == TakeSeat(r, seated, id, o).0
    ensures Sound(g, t)
  {
    var taken := Succeed(seated).0;
    SucceedingIsSound(g, seated);
    SyncingIsSound(g, taken, o);
    OrBackIsSound(g, r, SyncAiRoster(taken, o), o, OrBack(r, SyncAiRoster(taken, o), o).0);
  }

  lemma ClaimSeatIsSound(g: Regime, r: Room, user: int, username: string, id: SeatId, template: Template, o: Orders,
                         t: Room)
    requires Sound(g, r) && t == ClaimSeat(r, user, username, id, template, o).0
    ensures Sound(g, t)
  {
    if ClaimObjection(r, user, username, id, template).None? && SeatOf(r.seats, user).None? {
      var seated := Seated(r, user, username, id, template);
      ClaimedSeatIsFree(r, user, username, id, template);
      SeatedIsSound(g, r, user, username, id, template, seated);
      TakingSeatIsSound(g, r, seated, id, o, t);
    }
  }

  /* ------------------------------------------------------------------ transfers */

  lemma RequestTransferIsSound(g: Regime, r: Room, user: int, target: SeatId, template: Template)
    requires Sound(g, r)
    ensures Sound(g, RequestTransfer(r, user, target, template).0)
  {
    var t := RequestTransfer(r, user, target, template).0;
    if t != r {
      var id := SeatOf(r.seats, user).value;
      AskingKeepsSeating(g, r, id);
      RequestedTransferIsOk(g, r, user, target, template, t.transfers, id, r.seats[id].(pendingTransfer := true));
      SoundMeans(g, r);
      SoundWhen(g, t);
    }
  }

  lemma AskingKeepsSeating(g: Regime, r: Room, id: SeatId)
    requires Sound(g, r) && id in r.seats && r.seats[id].controller.Human? && id.kind != Commander
    ensures Seating(BasisOf(g, r), r.seats[id := r.seats[id].(pendingTransfer := true)])
  {
    SoundMeans(g, r);
    assert SeatOk(BasisOf(g, r), id, r.seats[id]);
    if g.Standard? { OwnUnitIsNew(r.seats, id); }
    OwnControllerIsNew(r.seats, id);
    PuttingKeepsSeating(BasisOf(g, r), BasisOf(g, r), r.seats, id, r.seats[id].(pendingTransfer := true));
  }

  lemma RequestedTransferIsOk(g: Regime, r: Room, user: int, target: SeatId, template: Template,
                              transfers: map<int, Transfer>, id: SeatId, seat: Seat)
    requires Sound(g, r) && Holds(r.seats, id, user) && seat == r.seats[id].(pendingTransfer := true)
    requires ValidSeat(r.templates, r.limits, r.vmf, target, template) && target.side == id.side
    requires transfers == r.transfers[user := Transfer(user, target, template, r.revision + 1)]
    ensures TransfersOk(r.templates, r.seats[id := seat], transfers)
  {
    var later := r.seats[id := seat];
    SoundMeans(g, r);
    assert Waiting(later, id, user);
    forall u | u in transfers && u != user ensures TransferOk(r.templates, later, u, transfers[u]) {
      assert TransferOk(r.templates, r.seats, u, r.transfers[u]);
      var other :| Waiting(r.seats, other, u) && other.side == r.transfers[u].target.side;
      assert Waiting(later, other, u);
    }
    forall other, u | Waiting(later, other, u) ensures u in transfers {
      if other != id { assert Waiting(r.seats, other, u); }
    }
  }

  lemma InvalidatingIsSound(g: Regime, r: Room, user: int, code: Code)
    requires Sound(g, r)
    ensures Sound(g, InvalidateTransfer(r, user, code).0)
  {
    if user in r.transfers {
      WhoeverTransfersSits(g, r, user);
      var id := SeatOf(r.seats, user).value;
      var seat := r.seats[id].(pendingTransfer := false);
      var t := Put(r, id, seat).(transfers := WithoutTransfer(r.transfers, user));
      NotWaitingIsAlike(g, r, id, seat);
      CeasingToWaitIsSound(g, r, id, user, seat, t);
      SucceedingIsSound(g, t);
    }
  }

  lemma NotWaitingIsAlike(g: Regime, r: Room, id: SeatId, seat: Seat)
    requires Sound(g, r) && id in r.seats && seat == r.seats[id].(pendingTransfer := false)
    ensures Alike(g, r.seats[id], seat)
  {
    SoundMeans(g, r);
    assert SeatOk(BasisOf(g, r), id, r.seats[id]);
  }

  lemma WhoeverTransfersSits(g: Regime, r: Room, user: int)
    requires Sound(g, r) && user in r.transfers
    ensures SeatOf(r.seats, user).Some? && SeatOf(r.seats, user).value.side == r.transfers[user].target.side
  {
    SoundMeans(g, r);
    assert TransferOk(r.templates, r.seats, user, r.transfers[user]);
    var id :| Waiting(r.seats, id, user) && id.side == r.transfers[user].target.side;
    assert Holds(r.seats, id, user);
  }

  /** Somebody stops waiting, whose seat is otherwise changed in what has no bearing on who sits where. */
  lemma CeasingToWaitIsSound(g: Regime, r: Room, id: SeatId, user: int, seat: Seat, t: Room)
    requires Sound(g, r) && Holds(r.seats, id, user) && Alike(g, r.seats[id], seat) && !seat.pendingTransfer
    requires t == Put(r, id, seat).(transfers := WithoutTransfer(r.transfers, user))
    ensures Sound(g, t)
  {
    SoundMeans(g, r);
    ChangingKeepsSeating(BasisOf(g, r), r.seats, id, seat);
    NobodyElseStops(g, r, id, user, seat);
    CarriedIsSound(g, r, t, user);
  }

  lemma NobodyElseStops(g: Regime, r: Room, id: SeatId, user: int, seat: Seat)
    requires Sound(g, r) && Holds(r.seats, id, user) && !seat.pendingTransfer
    ensures WaitingWithout(r.seats, r.seats[id := seat], user)
  {
    var later := r.seats[id := seat];
    SoundMeans(g, r);
    forall other, u ensures Waiting(later, other, u) <==> (Waiting(r.seats, other, u) && u != user) {
      if Holds(r.seats, other, user) { assert other == id; }
    }
  }

  lemma StaleTransferIsSound(g: Regime, r: Room, user: int)
    requires Sound(g, r)
    ensures Sound(g, StaleTransferOf(r, user).0)
  {
    InvalidatingIsSound(g, r, user, StaleTransfer);
  }

  lemma CancelTransferIsSound(g: Regime, r: Room, user: int, revision: int)
    requires Sound(g, r)
    ensures Sound(g, CancelTransfer(r, user, revision).0)
  {
    StaleTransferIsSound(g, r, user);
    InvalidatingIsSound(g, r, user, TransferNotFound);
  }

  lemma RejectTransferIsSound(g: Regime, r: Room, commander: int, user: int, revision: int)
    requires Sound(g, r)
    ensures Sound(g, RejectTransfer(r, commander, user, revision).0)
  {
    StaleTransferIsSound(g, r, user);
    InvalidatingIsSound(g, r, user, TransferNotFound);
  }

  /** Somebody leaves one seat for another: the seats without the old one, with a new seat held by the same person. */
  lemma MovingKeepsSeating(b: Basis, later: Basis, seats: Seats, source: SeatId, target: SeatId, user: int, seat: Seat)
    requires Seating(b, seats) && Holds(seats, source, user) && Extends(b, later) && SeatOk(later, target, seat)
    requires seat.controller == Human(user)
    requires b.regime.Standard? ==> UnitIsNew(Without(seats, source), target, seat.unitId)
    ensures Seating(later, Without(seats, source)[target := seat])
  {
    var left := Without(seats, source);
    PartsKeepSeating(b, seats, left);
    forall other ensures !Holds(left, other, user) { assert Holds(seats, other, user) ==> other == source; }
    PuttingKeepsSeating(b, later, left, target, seat);
  }

  lemma MovedSeatIsOk(g: Regime, r: Room, source: SeatId, target: SeatId, template: Template, later: Basis)
    requires Sound(g, r) && source in r.seats && r.seats[source].controller.Human? && target.side == source.side
    requires ValidSeat(r.templates, r.limits, r.vmf, target, template)
    requires later == BasisOf(g, r).(nextUnit := r.nextUnit + 1)
    ensures SeatOk(later, target, MovedSeat(r, r.seats[source], target, template))
  {
    SoundMeans(g, r);
    assert SeatOk(BasisOf(g, r), source, r.seats[source]);
  }

  lemma MovedToIsSound(g: Regime, r: Room, source: SeatId, target: SeatId, template: Template, user: int)
    requires Sound(g, r) && Holds(r.seats, source, user) && target !in r.seats && target.side == source.side
    requires ValidSeat(r.templates, r.limits, r.vmf, target, template)
    ensures Sound(g, MovedTo(r, source, target, template, user))
  {
    var seat := MovedSeat(r, r.seats[source], target, template);
    var t := MovedTo(r, source, target, template, user);
    SoundMeans(g, r);
    MovedSeatIsOk(g, r, source, target, template, BasisOf(g, t));
    if g.Standard? { NextNumberIsNew(BasisOf(g, r), r.seats, target, target.side, template); }
    MovingKeepsSeating(BasisOf(g, r), BasisOf(g, t), r.seats, source, target, user, seat);
    MovedStopsWaiting(g, r, source, target, user, seat);
    CarriedIsSound(g, r, t, user);
  }

  lemma MovedStopsWaiting(g: Regime, r: Room, source: SeatId, target: SeatId, user: int, seat: Seat)
    requires Sound(g, r) && Holds(r.seats, source, user) && !seat.pendingTransfer
    requires target !in r.seats || !r.seats[target].pendingTransfer
    ensures WaitingWithout(r.seats, Without(r.seats, source)[target := seat], user)
  {
    var later := Without(r.seats, source)[target := seat];
    SoundMeans(g, r);
    forall other, u ensures Waiting(later, other, u) <==> (Waiting(r.seats, other, u) && u != user) {
      if Holds(r.seats, other, user) { assert other == source; }
    }
  }

  lemma GrantedIsSound(g: Regime, r: Room, source: SeatId, user: int, transfer: Transfer, o: Orders, t: Room)
    requires Sound(g, r) && Holds(r.seats, source, user) && transfer.target !in r.seats
    requires transfer.target.side == source.side && t == Granted(r, source, user, transfer, o).0
    ensures Sound(g, t)
  {
    if ValidSeat(r.templates, r.limits, r.vmf, transfer.target, transfer.template) {
      var moved := MovedTo(r, source, transfer.target, transfer.template, user);
      MovedToIsSound(g, r, source, transfer.target, transfer.template, user);
      FollowedIsSound(g, moved, o, t);
    } else {
      InvalidatingIsSound(g, r, user, InvalidTransfer);
    }
  }

  lemma ApproveTransferIsSound(g: Regime, r: Room, commander: int, user: int, revision: int, o: Orders, t: Room)
    requires Sound(g, r) && t == ApproveTransfer(r, commander, user, revision, o).0
    ensures Sound(g, t)
  {
    StaleTransferIsSound(g, r, user);
    if Commands(r, commander, user) && user in r.transfers && r.transfers[user].target !in r.seats {
      var source, transfer := SeatOf(r.seats, user).value, r.transfers[user];
      WhoeverTransfersSits(g, r, user);
      GrantedIsSound(g, r, source, user, transfer, o, Granted(r, source, user, transfer, o).0);
    }
  }

  /* ------------------------------------------------------------------ leaving */

  lemma PromotedSeatIsOk(g: Regime, r: Room, place: SeatId, source: SeatId, later: Basis)
    requires Sound(g, r) && place in r.seats && source in r.seats && place.kind == Commander && source.kind != Commander
    requires r.seats[place].controller.Human? && r.seats[source].controller.Human? && place.side == source.side
    requires later == BasisOf(g, r).(nextUnit := if r.phase == Preparing then r.nextUnit + 1 else r.nextUnit)
    ensures var seat := PromotedSeat(r, r.seats[place], r.seats[source], place);
            SeatOk(later, place, seat) && (g.Standard? ==> UnitIsNew(Without(r.seats, source), place, seat.unitId))
  {
    SoundMeans(g, r);
    assert SeatOk(BasisOf(g, r), place, r.seats[place]) && SeatOk(BasisOf(g, r), source, r.seats[source]);
    if g.Standard? {
      NextNumberIsNew(BasisOf(g, r), r.seats, place, place.side, For(Commander));
      OwnUnitIsNew(r.seats, place);
    }
  }

  lemma PromotedIsSound(g: Regime, r: Room, place: SeatId, source: SeatId, commander: int, successor: int)
    requires Sound(g, r) && Holds(r.seats, place, commander) && Holds(r.seats, source, successor)
    requires place.kind == Commander && source.kind != Commander && place.side == source.side
    ensures Sound(g, Promoted(r, place, source, commander, successor))
  {
    var seat := PromotedSeat(r, r.seats[place], r.seats[source], place);
    var t := Promoted(r, place, source, commander, successor);
    SoundMeans(g, r);
    assert SeatOk(BasisOf(g, r), place, r.seats[place]);
    PromotedSeatIsOk(g, r, place, source, BasisOf(g, t));
    MovingKeepsSeating(BasisOf(g, r), BasisOf(g, t), r.seats, source, place, successor, seat);
    MovedStopsWaiting(g, r, source, place, successor, seat);
    CarriedIsSound(g, r, t, successor);
  }

  lemma JoinedIsSound(g: Regime, r: Room, result: Outcome, o: Orders, t: Room)
    requires Sound(g, r) && t == Joined(r, result, o).0
    ensures Sound(g, t)
  {
    RestaffedIsSound(g, r, o);
  }

  lemma PromoteIsSound(g: Regime, r: Room, commander: int, successor: int, o: Orders, t: Room)
    requires Sound(g, r) && t == Promote(r, commander, successor, o).0
    ensures Sound(g, t)
  {
    var place, source := SeatOf(r.seats, commander), SeatOf(r.seats, successor);
    if place.Some? && source.Some? && place.value.kind == Commander && source.value.kind != Commander
       && place.value.side == source.value.side {
      var promoted := Promoted(r, place.value, source.value, commander, successor);
      PromotedIsSound(g, r, place.value, source.value, commander, successor);
      SucceedingIsSound(g, promoted);
      JoinedIsSound(g, Succeed(promoted).0, Succeed(promoted).1.(successor := successor), o, t);
    }
  }

  /** Somebody gives up a seat, and whatever transfer was waiting there. */
  lemma GoneIsSound(g: Regime, r: Room, id: SeatId, user: int, t: Room)
    requires Sound(g, r) && Holds(r.seats, id, user) && Carries(r, t)
    requires t.seats == Without(r.seats, id) && t.transfers == WithoutTransfer(r.transfers, user)
    ensures Sound(g, t)
  {
    SoundMeans(g, r);
    SeatingExtends(BasisOf(g, r), BasisOf(g, t), r.seats);
    PartsKeepSeating(BasisOf(g, t), r.seats, t.seats);
    forall other, u ensures Waiting(t.seats, other, u) <==> (Waiting(r.seats, other, u) && u != user) {
      if Holds(r.seats, other, user) { assert other == id; }
    }
    CarriedIsSound(g, r, t, user);
  }

  /** A commander has no transfer to lose. */
  lemma CommandersHaveNoTransfer(g: Regime, r: Room, id: SeatId, user: int)
    requires Sound(g, r) && Holds(r.seats, id, user) && id.kind == Commander
    ensures WithoutTransfer(r.transfers, user) == r.transfers
  {
    SoundMeans(g, r);
    forall u | u in r.transfers ensures u != user {
      assert TransferOk(r.templates, r.seats, u, r.transfers[u]);
      var other :| Waiting(r.seats, other, u);
      assert SeatOk(BasisOf(g, r), other, r.seats[other]);
      assert Holds(r.seats, other, user) ==> other == id;
    }
  }

  /** A person's seat is automated: the person is gone, and with them the transfer that was waiting there. */
  lemma ConvertingIsSound(g: Regime, r: Room, id: SeatId, user: int, t: Room)
    requires Sound(g, r) && Holds(r.seats, id, user) && t == ConvertToVmf(r, id).0
    ensures Sound(g, t)
  {
    if r.vmf && id.side == Red {
      var u := Put(r, id, AutomatedSeat(r, r.seats[id]))
               .(transfers := WithoutTransfer(r.transfers, user), departed := r.departed + {user});
      SoundMeans(g, r);
      assert SeatOk(BasisOf(g, r), id, r.seats[id]);
      PuttingKeepsSeating(BasisOf(g, r), BasisOf(g, r), r.seats, id, AutomatedSeat(r, r.seats[id]));
      NobodyElseStops(g, r, id, user, AutomatedSeat(r, r.seats[id]));
      CarriedIsSound(g, r, u, user);
      SucceedingIsSound(g, u);
    }
  }

  lemma VacatedIsSound(g: Regime, r: Room, id: SeatId, user: int, o: Orders, t: Room)
    requires Sound(g, r) && Holds(r.seats, id, user) && t == Vacated(r, id, user, o).0
    ensures Sound(g, t)
  {
    var gone := r.(seats := Without(r.seats, id), transfers := WithoutTransfer(r.transfers, user),
                   departed := r.departed + {user});
    MatchMeans(g, r);
    GoneIsSound(g, r, id, user, gone);
    SucceedingIsSound(g, gone);
    RefilledIsSound(g, gone, o, Refilled(gone, o).0);
  }

  lemma CommanderVacatedIsSound(g: Regime, r: Room, id: SeatId, user: int, o: Orders, t: Room)
    requires Sound(g, r) && Holds(r.seats, id, user) && id.kind == Commander && t == CommanderVacated(r, id, user, o).0
    ensures Sound(g, t)
  {
    var gone := r.(seats := Without(r.seats, id), departed := r.departed + {user});
    MatchMeans(g, r);
    CommandersHaveNoTransfer(g, r, id, user);
    GoneIsSound(g, r, id, user, gone);
    RefilledIsSound(g, gone, o, t);
  }

  lemma LeaveIsSound(g: Regime, r: Room, user: int, successor: int, o: Orders, t: Room)
    requires Sound(g, r) && t == Leave(r, user, successor, o).0
    ensures Sound(g, t)
  {
    var current := SeatOf(r.seats, user);
    if current.Some? {
      if Automates(r) {
        ConvertingIsSound(g, r, current.value, user, t);
      } else if current.value.kind == Commander {
        PromoteIsSound(g, r, user, successor, o, Promote(r, user, successor, o).0);
      } else {
        VacatedIsSound(g, r, current.value, user, o, t);
      }
    }
  }

  lemma ChoosingIsSound(g: Regime, r: Room, side: Side)
    requires Sound(g, r)
    ensures var t := ChooseSuccessor(r, side).0; Sound(g, t) && t == r.(rng := t.rng)
  {
    var t := ChooseSuccessor(r, side).0;
    MatchMeans(g, r);
    Xorshift.NeverZero(r.rng);
    UnseatedIsSound(g, r, t);
  }

  lemma CommanderLeavesIsSound(g: Regime, r: Room, id: SeatId, user: int, chosen: (Room, int), o: Orders, t: Room)
    requires Sound(g, r) && Sound(g, chosen.0) && Holds(r.seats, id, user) && id.kind == Commander
    requires t == CommanderLeaves(r, id, user, chosen, o).0
    ensures Sound(g, t)
  {
    if chosen.1 > 0 {
      PromoteIsSound(g, chosen.0, user, chosen.1, o, t);
    } else if r.phase == Preparing {
      CommanderVacatedIsSound(g, r, id, user, o, t);
    }
  }

  lemma LeaveRoomIsSound(g: Regime, r: Room, user: int, o: Orders, t: Room)
    requires Sound(g, r) && t == LeaveRoom(r, user, o).0
    ensures Sound(g, t)
  {
    var current := SeatOf(r.seats, user);
    if current.Some? {
      if Automates(r) {
        ConvertingIsSound(g, r, current.value, user, t);
      } else if current.value.kind == Commander {
        ChoosingIsSound(g, r, current.value.side);
        CommanderLeavesIsSound(g, r, current.value, user, ChooseSuccessor(r, current.value.side), o, t);
      } else {
        LeaveIsSound(g, r, user, 0, o, t);
      }
    }
  }

  lemma ForfeitIsSound(g: Regime, r: Room, id: SeatId, user: int, winner: Winner, t: Room)
    requires Sound(g, r) && Holds(r.seats, id, user) && id.kind == Commander && t == Forfeited(r, id, user, winner).0
    ensures Sound(g, t)
  {
    var gone := Gone(r, id, user);
    MatchMeans(g, r);
    CommandersHaveNoTransfer(g, r, id, user);
    GoneIsSound(g, r, id, user, gone);
    MatchStateIsSound(g, gone, Finished, Some(winner), r.revision + 1);
  }

  lemma CommanderLostIsSound(g: Regime, r: Room, id: SeatId, user: int, chosen: (Room, int), o: Orders, t: Room)
    requires Sound(g, r) && Sound(g, chosen.0) && Holds(r.seats, id, user) && id.kind == Commander
    requires t == CommanderLost(r, id, user, chosen, o).0
    ensures Sound(g, t)
  {
    if chosen.1 > 0 {
      PromoteIsSound(g, chosen.0, user, chosen.1, o, t);
    } else if r.phase == Preparing {
      CommanderVacatedIsSound(g, r, id, user, o, t);
    } else if r.phase != Finished {
      ForfeitIsSound(g, r, id, user, Opponent(id.side), t);
    }
  }

  lemma DisconnectIsSound(g: Regime, r: Room, user: int, o: Orders, t: Room)
    requires Sound(g, r) && t == Disconnect(r, user, o).0
    ensures Sound(g, t)
  {
    var current := SeatOf(r.seats, user);
    if current.Some? {
      if Automates(r) {
        ConvertingIsSound(g, r, current.value, user, t);
      } else if current.value.kind == Commander {
        ChoosingIsSound(g, r, current.value.side);
        CommanderLostIsSound(g, r, current.value, user, ChooseSuccessor(r, current.value.side), o, t);
      } else {
        LeaveIsSound(g, r, user, 0, o, t);
      }
    }
  }

  lemma ExpelledIsSound(g: Regime, r: Room, id: SeatId, user: int, t: Room)
    requires Sound(g, r) && Holds(r.seats, id, user) && t == Expelled(r, id, user)
    ensures Sound(g, t)
  {
    MatchMeans(g, r);
    GoneIsSound(g, r, id, user, t);
  }

  lemma RemoveUserIsSound(g: Regime, r: Room, user: int, o: Orders, t: Room)
    requires Sound(g, r) && t == RemoveUser(r, user, o).0
    ensures Sound(g, t)
  {
    var current := SeatOf(r.seats, user);
    if current.Some? {
      var expelled := Expelled(r, current.value, user);
      ExpelledIsSound(g, r, current.value, user, expelled);
      RestaffedIsSound(g, expelled, o);
    }
  }

  /* ------------------------------------------------------------------ deploying and getting ready */

  lemma DeployedAtIsSound(g: Regime, r: Room, id: SeatId, position: GeoPos)
    requires Sound(g, r) && id in r.seats
    ensures Sound(g, DeployedAt(r, id, position).0)
  {
    var seat := Touched(r.seats[id].(position := position, deployed := true, ready := false), r);
    MatchMeans(g, r);
    ChangedSeatIsSound(g, r, id, seat, DeployedAt(r, id, position).0);
  }

  lemma ReadyIsSound(g: Regime, r: Room, id: SeatId, ready: bool)
    requires Sound(g, r) && id in r.seats && (ready ==> r.seats[id].deployed)
    ensures Sound(g, Succeed(Put(r, id, Touched(r.seats[id].(ready := ready), r))).0)
  {
    var seat := Touched(r.seats[id].(ready := ready), r);
    MatchMeans(g, r);
    ChangedSeatIsSound(g, r, id, seat, Succeed(Put(r, id, seat)).0);
  }

  lemma SetReadyIsSound(g: Regime, r: Room, user: int, ready: bool)
    requires Sound(g, r)
    ensures Sound(g, SetReady(r, user, ready).0)
  {
    var current := SeatOf(r.seats, user);
    if current.Some? && (ready ==> r.seats[current.value].deployed) { ReadyIsSound(g, r, current.value, ready); }
  }

  /** A mark on a seat that has no bearing on who sits where, or on its unit. */
  lemma MarkedIsSound(g: Regime, r: Room, id: SeatId, seat: Seat, t: Room)
    requires Sound(g, r) && id in r.seats && t == Succeed(Put(r, id, Touched(seat, r))).0
    requires seat == r.seats[id].(unitName := seat.unitName, redeployRequested := seat.redeployRequested)
    ensures Sound(g, t)
  {
    SoundMeans(g, r);
    assert SeatOk(BasisOf(g, r), id, r.seats[id]);
    ChangedSeatIsSound(g, r, id, Touched(seat, r), t);
  }

  lemma SetUnitNameIsSound(g: Regime, r: Room, user: int, text: string)
    requires Sound(g, r)
    ensures Sound(g, SetUnitName(r, user, text).0)
  {
    var t := SetUnitName(r, user, text).0;
    if t != r {
      var id := SeatOf(r.seats, user).value;
      MarkedIsSound(g, r, id, r.seats[id].(unitName := Trim(text)), t);
    }
  }

  lemma RequestRedeployIsSound(g: Regime, r: Room, user: int)
    requires Sound(g, r)
    ensures Sound(g, RequestRedeploy(r, user).0)
  {
    var t := RequestRedeploy(r, user).0;
    if t != r {
      var id := SeatOf(r.seats, user).value;
      MarkedIsSound(g, r, id, r.seats[id].(redeployRequested := true), t);
    }
  }

  lemma ClearReadinessIsSound(g: Regime, r: Room)
    requires Sound(g, r)
    ensures Sound(g, ClearReadiness(r))
  {
    SoundMeans(g, r);
    KeptSeatsAreSound(g, r, ClearReadiness(r));
  }

  lemma ClearedTargetIsSound(g: Regime, r: Room, id: SeatId, t: Room)
    requires Sound(g, r) && id in r.seats
    requires var seat := r.seats[id];
             t == Put(r, id, ClearedSeat(seat, r)).(transfers := WithoutTransfer(r.transfers, UserOf(seat)))
    ensures Sound(g, t)
  {
    var seat := r.seats[id];
    SoundMeans(g, r);
    assert SeatOk(BasisOf(g, r), id, seat);
    if seat.controller.Human? {
      CeasingToWaitIsSound(g, r, id, seat.controller.user, ClearedSeat(seat, r), t);
    } else {
      NobodyHasNumberZero(r.templates, r.seats, r.transfers);
      ChangedSeatIsSound(g, r, id, ClearedSeat(seat, r), t);
    }
  }

  lemma RedeployedIsSound(g: Regime, r: Room, place: SeatId, target: SeatId, t: Room)
    requires Sound(g, r) && target in r.seats && t == Redeployed(r, place, target).0
    ensures Sound(g, t)
  {
    var seat := r.seats[target];
    var cleared := Put(r, target, ClearedSeat(seat, r)).(transfers := WithoutTransfer(r.transfers, UserOf(seat)));
    ClearedTargetIsSound(g, r, target, cleared);
    SucceedingIsSound(g, cleared);
    UnreadyingCommanderIsSound(g, cleared, place);
    SucceedingIsSound(g, CommanderUnready(cleared, place));
  }

  lemma RedeployIsSound(g: Regime, r: Room, commander: int, named: Option<SeatId>, t: Room)
    requires Sound(g, r) && t == Redeploy(r, commander, named).0
    ensures Sound(g, t)
  {
    var place := SeatOf(r.seats, commander);
    if place.Some? {
      var target := RedeployTarget(r, place.value.side, named);
      if target.Ok? && target.value in r.seats {
        RedeployedIsSound(g, r, place.value, target.value, Redeployed(r, place.value, target.value).0);
      }
    }
  }

  /* ------------------------------------------------------------------ the match and the remembered operations */

  lemma MatchStateIsSound(g: Regime, r: Room, phase: Phase, winner: Option<Winner>, revision: nat)
    requires Sound(g, r) && (winner.Some? <==> phase == Finished) && revision >= r.revision
    ensures Sound(g, r.(phase := phase, winner := winner, revision := revision))
  {
    SoundMeans(g, r);
    SoundWhen(g, r.(phase := phase, winner := winner, revision := revision));
  }

  lemma StartIsSound(g: Regime, r: Room)
    requires Sound(g, r)
    ensures Sound(g, StartMatch(r).0)
  {
    MatchMeans(g, r);
    if r.phase != Finished { MatchStateIsSound(g, r, Running, r.winner, r.revision + 1); }
  }

  lemma PauseIsSound(g: Regime, r: Room)
    requires Sound(g, r)
    ensures Sound(g, PauseMatch(r).0)
  {
    MatchMeans(g, r);
    if r.phase != Finished { MatchStateIsSound(g, r, Paused, r.winner, r.revision + 1); }
  }

  lemma FinishIsSound(g: Regime, r: Room, winner: Option<Winner>)
    requires Sound(g, r)
    ensures Sound(g, FinishMatch(r, winner).0)
  {
    MatchMeans(g, r);
    if winner.Some? { MatchStateIsSound(g, r, Finished, winner, r.revision + 1); }
  }

  lemma ClearedSeatIsOk(g: Regime, r: Room, id: SeatId, t: Room)
    requires Seating(BasisOf(g, r), r.seats) && RegimeOk(g, r) && id in r.seats && t == ClearedOne(r, id)
    ensures SeatOk(BasisOf(g, t), id, t.seats[id]) && t.seats == r.seats[id := t.seats[id]]
    ensures t.seats[id].controller == r.seats[id].controller && Extends(BasisOf(g, r), BasisOf(g, t)) && RegimeOk(g, t)
    ensures g.Standard? ==> t.seats[id].unitId == Allocated(id.side, r.seats[id].template, r.nextUnit)
  {
    assert SeatOk(BasisOf(g, r), id, r.seats[id]);
  }

  lemma ClearingOneKeepsSeating(g: Regime, r: Room, id: SeatId, t: Room)
    requires Seating(BasisOf(g, r), r.seats) && RegimeOk(g, r) && id in r.seats && t == ClearedOne(r, id)
    ensures Seating(BasisOf(g, t), t.seats) && RegimeOk(g, t)
  {
    ClearedSeatIsOk(g, r, id, t);
    if g.Standard? { NextNumberIsNew(BasisOf(g, r), r.seats, id, id.side, r.seats[id].template); }
    OwnControllerIsNew(r.seats, id);
    PuttingKeepsSeating(BasisOf(g, r), BasisOf(g, t), r.seats, id, t.seats[id]);
  }

  lemma {:induction false} ClearingKeepsSeating(g: Regime, r: Room, ids: seq<SeatId>, t: Room)
    requires Seating(BasisOf(g, r), r.seats) && RegimeOk(g, r) && t == ClearedEach(r, ids)
    ensures Seating(BasisOf(g, t), t.seats)
    decreases |ids|
  {
    if ids != [] {
      var u := if ids[0] in r.seats then ClearedOne(r, ids[0]) else r;
      if ids[0] in r.seats { ClearingOneKeepsSeating(g, r, ids[0], u); }
      ClearingKeepsSeating(g, u, ids[1..], t);
    }
  }

  predicate StillPending(seats: Seats, id: SeatId) { id in seats && seats[id].pendingTransfer }

  lemma ClearingOneStopsWaiting(r: Room, id: SeatId, t: Room)
    requires id in r.seats && t == ClearedOne(r, id)
    ensures t == r.(seats := t.seats, nextUnit := t.nextUnit) && t.nextUnit >= r.nextUnit
    ensures t.seats.Keys == r.seats.Keys
    ensures forall other :: StillPending(t.seats, other) ==> StillPending(r.seats, other) && other != id
  {
  }

  /** Only seats and numbers change, and every seat gone through stops waiting. */
  lemma {:induction false} ClearingStopsWaiting(r: Room, ids: seq<SeatId>, t: Room)
    requires t == ClearedEach(r, ids)
    ensures t == r.(seats := t.seats, nextUnit := t.nextUnit) && t.nextUnit >= r.nextUnit
    ensures t.seats.Keys == r.seats.Keys
    ensures forall id :: StillPending(t.seats, id) ==> StillPending(r.seats, id) && (id in r.seats ==> id !in ids)
    decreases |ids|
  {
    if ids != [] {
      var u := if ids[0] in r.seats then ClearedOne(r, ids[0]) else r;
      if ids[0] in r.seats { ClearingOneStopsWaiting(r, ids[0], u); }
      ClearingStopsWaiting(u, ids[1..], t);
      forall id | StillPending(t.seats, id) ensures StillPending(r.seats, id) && (id in r.seats ==> id !in ids) {
        assert StillPending(u.seats, id);
      }
    }
  }

  lemma ClearedRoomIsSound(g: Regime, r: Room, ids: seq<SeatId>, t: Room)
    requires Sound(g, r) && Lists(ids, r.seats.Keys) && t == ClearedEach(BackToStart(r), ids)
    ensures Sound(g, t) && t.operations == r.operations
  {
    var back := BackToStart(r);
    SoundMeans(g, r);
    ClearingKeepsSeating(g, back, ids, t);
    ClearingStopsWaiting(back, ids, t);
    forall id, user ensures !Waiting(t.seats, id, user) {
      if id in t.seats {
        assert id in Elements(ids);
        assert !StillPending(t.seats, id);
      }
    }
    SoundWhen(g, t);
  }

  lemma EmptiedRoomIsSound(g: Regime, r: Room)
    requires Sound(g, r)
    ensures Sound(g, BackToStart(r).(seats := map[]))
  {
    SoundMeans(g, r);
    SoundWhen(g, BackToStart(r).(seats := map[]));
  }

  lemma RememberingIsOk(m: Memory, id: string, revision: nat)
    requires MemoryOk(m) && id !in m.operations && id != "" && revision > 0
    ensures MemoryOk(Trimmed(Memory(m.operations[id := revision], m.order + [id])))
  {
    var more := Memory(m.operations[id := revision], m.order + [id]);
    AppendedElement(m.order, id);
    forall x | x in m.operations ensures Recalled(more.operations, x) { assert Recalled(m.operations, x); }
    if |more.order| > MAX_OPERATIONS { DroppingOldestIsOk(more); }
  }

  lemma DroppingOldestIsOk(m: Memory)
    requires Lists(m.order, m.operations.Keys) && |m.order| == MAX_OPERATIONS + 1
    requires forall id :: id in m.operations ==> Recalled(m.operations, id)
    ensures MemoryOk(Trimmed(m))
  {
    var first, rest := m.order[0], m.order[1..];
    var left := map id | id in m.operations && id != first :: m.operations[id];
    assert Trimmed(m) == Memory(left, rest);
    assert m.order == [first] + rest;
    forall id ensures id in rest <==> id in left {
      assert id in m.operations <==> id in Elements(m.order);
      if id in rest {
        var i :| 0 <= i < |rest| && rest[i] == id;
        assert m.order[i + 1] == id && m.order[0] != m.order[i + 1];
      }
    }
    assert Elements(rest) == left.Keys;
    forall id | id in left ensures Recalled(left, id) { assert Recalled(m.operations, id); }
  }

  lemma ConcludedIsSound(g: Regime, roster: Step, id: string, t: Room)
    requires Sound(g, roster.0) && id !in roster.0.operations && id != "" && t == Concluded(roster, id).0
    ensures Sound(g, t)
  {
    var r := roster.0;
    SoundMeans(g, r);
    RememberingIsOk(Memory(r.operations, r.order), id, r.revision + 1);
    if roster.1.ok { SoundWhen(g, t); }
  }

  lemma ResetIsSound(g: Regime, empty: Room, id: string, o: Orders, t: Room)
    requires Sound(g, empty) && id !in empty.operations && id != "" && t == Reset(empty, id, o).0
    ensures Sound(g, t)
  {
    RestaffedIsSound(g, empty, o);
    ConcludedIsSound(g, Restaffed(empty, o), id, t);
  }

  lemma ApplyOperationIsSound(g: Regime, r: Room, id: string, action: Option<Action>, revision: int, o: Orders, t: Room)
    requires Sound(g, r) && t == ApplyOperation(r, id, action, revision, o).0
    ensures Sound(g, t)
  {
    if !Blank(id) && id !in r.operations && revision == r.revision && action.Some? {
      if action.value == RedeployRoom {
        var cleared := ClearedEach(BackToStart(r), o.seats(r.seats.Keys));
        ClearedRoomIsSound(g, r, o.seats(r.seats.Keys), cleared);
        ConcludedIsSound(g, Same(cleared), id, t);
      } else {
        EmptiedRoomIsSound(g, r);
        ResetIsSound(g, BackToStart(r).(seats := map[]), id, o, t);
      }
    }
  }
}

/**
 Whole runs of a room, through any calls in any order, and what can be relied on at every point of them.
 */
module RoomRuns {
  import opened Listings
  import opened Options
  import opened RoomInvariants
  import opened RoomModel
  import opened RoomRollback
  import opened RoomSafety

  datatype RoomCall =
    | ChangeMode(mode: Option<Mode>) | ChangeLimits(limits: Limits) | ChangeCatalog(catalog: Catalog)
    | SingleSide(enabled: bool) | BindSeats(units: seq<ScenarioUnit>)
    | FillWithPlaceholders | TakePlaceholdersAway | SyncRoster | PlaceOpponent(terrain: Option<Terrain>)

  datatype SeatCall =
    | Claim(user: int, username: string, id: SeatId, template: Template)
    | AskTransfer(user: int, target: SeatId, template: Template)
    | DropTransfer(user: int, revision: int)
    | DenyTransfer(commander: int, user: int, revision: int)
    | GrantTransfer(commander: int, user: int, revision: int)

  datatype LeaveCall =
    | GiveUp(user: int, successor: int) | GoAway(user: int) | LoseConnection(user: int) | Expel(user: int)

  datatype UnitCall =
    | Place(commander: int, id: SeatId, position: Option<GeoPos>)
    | PlaceFirst(id: SeatId, position: Option<GeoPos>)
    | BeReady(user: int, ready: bool) | Name(user: int, name: string) | NobodyReady
    | AskRedeploy(user: int) | TakeBack(commander: int, named: Option<SeatId>)

  datatype MatchCall =
    | Begin | Halt | End(winner: Option<Winner>) | Operate(id: string, action: Option<Action>, revision: int)

  datatype Call = OnRoom(room: RoomCall) | OnSeat(seat: SeatCall) | OnLeaving(leave: LeaveCall) | OnUnit(unit: UnitCall)
                | OnMatch(match_: MatchCall)

  /** A search that never ends leaves the room as it was. */
  function AfterBinding(r: Room, result: Option<(Room, bool)>): Room { if result.Some? then result.value.0 else r }

  ghost function AfterRoomCall(r: Room, c: RoomCall, o: Orders): Room {
    match c
    case ChangeMode(mode) => SetMode(r, mode, o).0
    case ChangeLimits(limits) => SetSeatLimits(r, limits).0
    case ChangeCatalog(catalog) => SetTemplateCatalog(r, catalog).0
    case SingleSide(enabled) => SetVmfSingleSide(r, enabled, o).0
    case BindSeats(units) => AfterBinding(r, SetScenarioUnits(r, units, o))
    case FillWithPlaceholders => InstallPlaceholders(r, o).0
    case TakePlaceholdersAway => RemovePlaceholders(r).0
    case SyncRoster => SyncAiRoster(r, o).0
    case PlaceOpponent(terrain) => DeployAiSeats(r, terrain, o).0
  }

  ghost function AfterSeatCall(r: Room, c: SeatCall, o: Orders): Room {
    match c
    case Claim(user, username, id, template) => ClaimSeat(r, user, username, id, template, o).0
    case AskTransfer(user, target, template) => RequestTransfer(r, user, target, template).0
    case DropTransfer(user, revision) => CancelTransfer(r, user, revision).0
    case DenyTransfer(commander, user, revision) => RejectTransfer(r, commander, user, revision).0
    case GrantTransfer(commander, user, revision) => ApproveTransfer(r, commander, user, revision, o).0
  }

  ghost function AfterLeaveCall(r: Room, c: LeaveCall, o: Orders): Room {
    match c
    case GiveUp(user, successor) => Leave(r, user, successor, o).0
    case GoAway(user) => LeaveRoom(r, user, o).0
    case LoseConnection(user) => Disconnect(r, user, o).0
    case Expel(user) => RemoveUser(r, user, o).0
  }

  ghost function AfterUnitCall(r: Room, c: UnitCall): Room {
    match c
    case Place(commander, id, position) => Deploy(r, commander, id, position).0
    case PlaceFirst(id, position) => DeployInitial(r, id, position).0
    case BeReady(user, ready) => SetReady(r, user, ready).0
    case Name(user, name) => SetUnitName(r, user, name).0
    case NobodyReady => ClearReadiness(r)
    case AskRedeploy(user) => RequestRedeploy(r, user).0
    case TakeBack(commander, named) => Redeploy(r, commander, named).0
  }

  ghost function AfterMatchCall(r: Room, c: MatchCall, o: Orders): Room {
    match c
    case Begin => StartMatch(r).0
    case Halt => PauseMatch(r).0
    case End(winner) => FinishMatch(r, winner).0
    case Operate(id, action, revision) => ApplyOperation(r, id, action, revision, o).0
  }

  ghost function After(r: Room, c: Call, o: Orders): Room {
    match c
    case OnRoom(call) => AfterRoomCall(r, call, o)
    case OnSeat(call) => AfterSeatCall(r, call, o)
    case OnLeaving(call) => AfterLeaveCall(r, call, o)
    case OnUnit(call) => AfterUnitCall(r, call)
    case OnMatch(call) => AfterMatchCall(r, call, o)
  }

  /** A standard room is never bound to a scenario, and never enters the single-side mode. */
  predicate Permitted(g: Regime, c: Call) {
    g.Standard? && c.OnRoom? ==> !c.room.BindSeats? && !(c.room.SingleSide? && c.room.enabled)
  }

  lemma RoomCallIsSound(g: Regime, r: Room, c: RoomCall, o: Orders, t: Room)
    requires Sound(g, r) && Permitted(g, OnRoom(c)) && t == AfterRoomCall(r, c, o)
    ensures Sound(g, t)
  {
    match c
    case ChangeMode(mode) => SetModeIsSound(g, r, mode, o, t);
    case ChangeLimits(limits) => LimitsAreSound(g, r, limits);
    case ChangeCatalog(catalog) => CatalogIsSound(g, r, catalog);
    case SingleSide(enabled) => SetVmfSingleSideIsSound(g, r, enabled, o, t);
    case BindSeats(units) =>
      if SetScenarioUnits(r, units, o).Some? { SetScenarioUnitsIsSound(r, units, o, SetScenarioUnits(r, units, o)); }
    case FillWithPlaceholders => InstallPlaceholdersIsSound(g, r, o);
    case TakePlaceholdersAway => RemovePlaceholdersIsSound(g, r);
    case SyncRoster => SyncingIsSound(g, r, o);
    case PlaceOpponent(terrain) => DeployAiSeatsIsSound(g, r, terrain, o, t);
  }

  lemma SeatCallIsSound(g: Regime, r: Room, c: SeatCall, o: Orders, t: Room)
    requires Sound(g, r) && t == AfterSeatCall(r, c, o)
    ensures Sound(g, t)
  {
    match c
    case Claim(user, username, id, template) => ClaimSeatIsSound(g, r, user, username, id, template, o, t);
    case AskTransfer(user, target, template) => RequestTransferIsSound(g, r, user, target, template);
    case DropTransfer(user, revision) => CancelTransferIsSound(g, r, user, revision);
    case DenyTransfer(commander, user, revision) => RejectTransferIsSound(g, r, commander, user, revision);
    case GrantTransfer(commander, user, revision) => ApproveTransferIsSound(g, r, commander, user, revision, o, t);
  }

  lemma LeaveCallIsSound(g: Regime, r: Room, c: LeaveCall, o: Orders, t: Room)
    requires Sound(g, r) && t == AfterLeaveCall(r, c, o)
    ensures Sound(g, t)
  {
    match c
    case GiveUp(user, successor) => LeaveIsSound(g, r, user, successor, o, t);
    case GoAway(user) => LeaveRoomIsSound(g, r, user, o, t);
    case LoseConnection(user) => DisconnectIsSound(g, r, user, o, t);
    case Expel(user) => RemoveUserIsSound(g, r, user, o, t);
  }

  lemma UnitCallIsSound(g: Regime, r: Room, c: UnitCall, t: Room)
    requires Sound(g, r) && t == AfterUnitCall(r, c)
    ensures Sound(g, t)
  {
    match c
    case Place(commander, id, position) =>
      if CommandsSeat(r, commander, id) && OnGround(position) { DeployedAtIsSound(g, r, id, position.value); }
    case PlaceFirst(id, position) =>
      if id in r.seats && OnGround(position) { DeployedAtIsSound(g, r, id, position.value); }
    case BeReady(user, ready) => SetReadyIsSound(g, r, user, ready);
    case Name(user, text) => SetUnitNameIsSound(g, r, user, text);
    case NobodyReady => ClearReadinessIsSound(g, r);
    case AskRedeploy(user) => RequestRedeployIsSound(g, r, user);
    case TakeBack(commander, named) => RedeployIsSound(g, r, commander, named, t);
  }

  lemma MatchCallIsSound(g: Regime, r: Room, c: MatchCall, o: Orders, t: Room)
    requires Sound(g, r) && t == AfterMatchCall(r, c, o)
    ensures Sound(g, t)
  {
    match c
    case Begin => StartIsSound(g, r);
    case Halt => PauseIsSound(g, r);
    case End(winner) => FinishIsSound(g, r, winner);
    case Operate(id, action, revision) => ApplyOperationIsSound(g, r, id, action, revision, o, t);
  }

  lemma CallIsSound(g: Regime, r: Room, c: Call, o: Orders, t: Room)
    requires Sound(g, r) && Permitted(g, c) && t == After(r, c, o)
    ensures Sound(g, t)
  {
    match c
    case OnRoom(call) => RoomCallIsSound(g, r, call, o, t);
    case OnSeat(call) => SeatCallIsSound(g, r, call, o, t);
    case OnLeaving(call) => LeaveCallIsSound(g, r, call, o, t);
    case OnUnit(call) => UnitCallIsSound(g, r, call, t);
    case OnMatch(call) => MatchCallIsSound(g, r, call, o, t);
  }

  /* ------------------------------------------------------------------ runs */

  /** A new room: nothing has been supplied and nothing has happened, except perhaps its unit templates. */
  predicate New(r: Room) {
    && r.bound == UNBOUND && r.limits == map[] && r.seats == map[] && r.transfers == map[] && r.operations == map[]
    && r.order == [] && r.departed == {} && r.phase == Preparing && r.mode == Pvp && !r.vmf && r.winner == None
    && r.revision == 1 && r.nextUnit == 1 && r.rng != 0
  }

  ghost predicate StepAt(g: Regime, states: seq<Room>, calls: seq<Call>, orders: seq<Orders>, k: nat)
    requires k < |calls| == |orders| && |states| == |calls| + 1
  {
    Permitted(g, calls[k]) && states[k + 1] == After(states[k], calls[k], orders[k])
  }

  /** Any calls in any order, seats and transfers being gone through in any order each time. A run of a standard room
      starts once its unit templates have been supplied. */
  ghost predicate Run(g: Regime, states: seq<Room>, calls: seq<Call>, orders: seq<Orders>) {
    && |calls| == |orders| && |states| == |calls| + 1 && New(states[0]) && RegimeOk(g, states[0])
    && forall k :: 0 <= k < |calls| ==> StepAt(g, states, calls, orders, k)
  }

  /** Every room of the run so far is sound. */
  ghost predicate SoundUpTo(g: Regime, states: seq<Room>, n: nat)
    requires n < |states|
  {
    forall k :: 0 <= k <= n ==> Sound(g, states[k])
  }

  lemma {:induction false} RunIsSound(g: Regime, states: seq<Room>, calls: seq<Call>, orders: seq<Orders>, n: nat)
    requires Run(g, states, calls, orders) && n < |states|
    ensures SoundUpTo(g, states, n)
  {
    if n > 0 {
      RunIsSound(g, states, calls, orders, n - 1);
      assert Sound(g, states[n - 1]) && StepAt(g, states, calls, orders, n - 1);
      CallIsSound(g, states[n - 1], calls[n - 1], orders[n - 1], states[n]);
    } else {
      NewIsSound(g, states[0]);
    }
  }

  lemma NewIsSound(g: Regime, r: Room)
    requires New(r) && RegimeOk(g, r)
    ensures Sound(g, r)
  {
    SoundWhen(g, r);
  }

  /** At every point of every run nobody sits twice; and in a standard room no two seats have the same unit. */
  lemma SeatsAndUnitsAreDistinct(g: Regime, states: seq<Room>, calls: seq<Call>, orders: seq<Orders>, n: nat,
                                 a: SeatId, b: SeatId)
    requires Run(g, states, calls, orders) && n < |states| && a in states[n].seats && b in states[n].seats && a != b
    ensures states[n].seats[a].controller.Human? ==> states[n].seats[a].controller != states[n].seats[b].controller
    ensures g.Standard? ==> states[n].seats[a].unitId != states[n].seats[b].unitId
  {
    RunIsSound(g, states, calls, orders, n);
    SoundMeans(g, states[n]);
    var seats := states[n].seats;
    assert SeatOk(BasisOf(g, states[n]), a, seats[a]);
    if g.Standard? { assert !SameUnit(seats, a, b); }
    if seats[a].controller.Human? {
      assert Holds(seats, a, seats[a].controller.user);
      assert !Holds(seats, b, seats[a].controller.user);
    }
  }

  /** At every point of every run: the seats that wait for a transfer are exactly those of the people who have one,
      none of them is a commander, and everybody who has one is seated on the side it leads to. */
  lemma TransfersMatchTheWaitingSeats(g: Regime, states: seq<Room>, calls: seq<Call>, orders: seq<Orders>, n: nat,
                                      id: SeatId)
    requires Run(g, states, calls, orders) && n < |states| && id in states[n].seats
    ensures var seat := states[n].seats[id];
            seat.pendingTransfer <==> (seat.controller.Human? && seat.controller.user in states[n].transfers)
    ensures states[n].seats[id].pendingTransfer ==> id.kind != Commander
    ensures forall user :: user in states[n].transfers ==> exists other ::
              Holds(states[n].seats, other, user) && states[n].seats[other].pendingTransfer
              && other.side == states[n].transfers[user].target.side
  {
    RunIsSound(g, states, calls, orders, n);
    var r := states[n];
    var seat := r.seats[id];
    SoundMeans(g, r);
    assert SeatOk(BasisOf(g, r), id, seat);
    forall user | user in r.transfers
      ensures exists other :: Holds(r.seats, other, user) && r.seats[other].pendingTransfer
                              && other.side == r.transfers[user].target.side
    {
      assert TransferOk(r.templates, r.seats, user, r.transfers[user]);
      var other :| Waiting(r.seats, other, user) && other.side == r.transfers[user].target.side;
      assert Holds(r.seats, other, user) && r.seats[other].pendingTransfer;
    }
    if seat.pendingTransfer { assert Waiting(r.seats, id, seat.controller.user); }
    if seat.controller.Human? && seat.controller.user in r.transfers {
      assert Holds(r.seats, id, seat.controller.user);
    }
  }

  /** At every point of every run the winner is known exactly when the match is over, and at most 256 operations are
      remembered, each once and in their order. */
  lemma ResultAndMemoryAreConsistent(g: Regime, states: seq<Room>, calls: seq<Call>, orders: seq<Orders>, n: nat)
    requires Run(g, states, calls, orders) && n < |states|
    ensures states[n].winner.Some? <==> states[n].phase == Finished
    ensures |states[n].order| <= MAX_OPERATIONS && Lists(states[n].order, states[n].operations.Keys)
    ensures states[n].rng != 0
  {
    RunIsSound(g, states, calls, orders, n);
    SoundMeans(g, states[n]);
  }

  /** At every point of every run: in the single-side mode there is no opponent, and no person on the blue side. */
  lemma SingleSideIsOneSided(g: Regime, states: seq<Room>, calls: seq<Call>, orders: seq<Orders>, n: nat, id: SeatId)
    requires Run(g, states, calls, orders) && n < |states| && states[n].vmf
    ensures states[n].mode == Pvp && !BluePerson(states[n].seats, id)
  {
    RunIsSound(g, states, calls, orders, n);
    SoundMeans(g, states[n]);
    if id in states[n].seats { assert SeatOk(BasisOf(g, states[n]), id, states[n].seats[id]); }
  }

  /** Whatever a standard room can become can be saved and read back unchanged, up to the list of departed users. */
  lemma EveryRoomIsRestored(states: seq<Room>, calls: seq<Call>, orders: seq<Orders>, n: nat, o: Orders, t: Room)
    requires Run(Standard, states, calls, orders) && n < |states| && SameRules(states[n], t)
    ensures Restored(t, Save(states[n], o)) == (states[n].(departed := t.departed), true)
  {
    RunIsSound(Standard, states, calls, orders, n);
    SavedRoomIsRestored(states[n], t, o);
  }

  /** Whatever any room can become is read back with its seats as reading leaves them, or refused without a trace; it
      is refused exactly when one of its seats is not acceptable. */
  lemma EveryRoomIsReadOrRefused(g: Regime, states: seq<Room>, calls: seq<Call>, orders: seq<Orders>, n: nat, o: Orders,
                                 t: Room)
    requires Run(g, states, calls, orders) && n < |states| && SameRules(states[n], t)
    ensures Restored(t, Save(states[n], o))
         == if Readable(states[n]) then (RereadRoom(states[n]).(departed := t.departed), true) else (t, false)
  {
    RunIsSound(g, states, calls, orders, n);
    SoundAtAll(g, states[n]);
    SavedRoomIsRead(states[n], t, o);
  }

  /* ------------------------------------------------------------------ the result of a match stands */

  predicate ResultStands(r: Room, t: Room) { t.phase == Finished && t.winner == r.winner }

  lemma SyncStands(r: Room, o: Orders, t: Room)
    requires r.phase == Finished && t == SyncAiRoster(r, o).0
    ensures t == r
  {
  }

  lemma RoomCallStands(r: Room, c: RoomCall, o: Orders, t: Room)
    requires r.phase == Finished && t == AfterRoomCall(r, c, o)
    ensures ResultStands(r, t)
  {
    match c
    case ChangeMode(mode) => RefusedStands(r, mode, None, o);
    case ChangeLimits(limits) => RulesStand(r, limits, r.templates);
    case ChangeCatalog(catalog) => RulesStand(r, r.limits, catalog);
    case SingleSide(enabled) => SingleSideStands(r, enabled, o);
    case BindSeats(units) => BindingStands(r, units, o);
    case FillWithPlaceholders => PlaceholdersStand(r, o);
    case TakePlaceholdersAway => PlaceholdersStand(r, o);
    case SyncRoster => SyncStands(r, o, t);
    case PlaceOpponent(terrain) => RefusedStands(r, None, terrain, o);
  }

  lemma RulesStand(r: Room, limits: Limits, catalog: Catalog)
    requires r.phase == Finished
    ensures ResultStands(r, SetSeatLimits(r, limits).0) && ResultStands(r, SetTemplateCatalog(r, catalog).0)
  {
  }

  lemma PlaceholdersStand(r: Room, o: Orders)
    requires r.phase == Finished
    ensures InstallPlaceholders(r, o).0 == r && RemovePlaceholders(r).0 == r
  {
  }

  lemma SingleSideStands(r: Room, enabled: bool, o: Orders)
    requires r.phase == Finished
    ensures SetVmfSingleSide(r, enabled, o).0 == r
  {
  }

  lemma BindingStands(r: Room, units: seq<ScenarioUnit>, o: Orders)
    requires r.phase == Finished
    ensures ResultStands(r, AfterBinding(r, SetScenarioUnits(r, units, o)))
  {
  }

  lemma RefusedStands(r: Room, mode: Option<Mode>, terrain: Option<Terrain>, o: Orders)
    requires r.phase == Finished
    ensures SetMode(r, mode, o).0 == r && DeployAiSeats(r, terrain, o).0 == r
  {
  }

  lemma TakenSeatStands(r: Room, seated: Room, id: SeatId, o: Orders, t: Room)
    requires Sound(Any, r) && r.phase == Finished && t == TakeSeat(r, seated, id, o).0
    requires SameRules(r, seated) && ResultStands(r, seated)
    ensures ResultStands(r, t)
  {
    var taken := Succeed(seated).0;
    SyncStands(taken, o, SyncAiRoster(taken, o).0);
    SavedRoomIsRead(r, taken, o);
  }

  lemma ClaimStands(r: Room, user: int, username: string, id: SeatId, template: Template, o: Orders, t: Room)
    requires Sound(Any, r) && r.phase == Finished && t == ClaimSeat(r, user, username, id, template, o).0
    ensures ResultStands(r, t)
  {
    if t != r {
      var seated := Seated(r, user, username, id, template);
      SeatedStands(r, user, username, id, template, seated);
      TakenSeatStands(r, seated, id, o, t);
    }
  }

  lemma SeatedStands(r: Room, user: int, username: string, id: SeatId, template: Template, seated: Room)
    requires r.phase == Finished && seated == Seated(r, user, username, id, template)
    ensures SameRules(r, seated) && ResultStands(r, seated)
  {
    var t := Put(r, id, ClaimedSeat(r, user, username, id, template)).(nextUnit := NumberAfterClaim(r, id));
    UnreadyingStands(t, CommanderOf(id.side));
  }

  lemma UnreadyingStands(r: Room, id: SeatId)
    ensures CommanderUnready(r, id) == r.(seats := CommanderUnready(r, id).seats)
  {
  }

  lemma SeatCallStands(r: Room, c: SeatCall, o: Orders, t: Room)
    requires Sound(Any, r) && r.phase == Finished && t == AfterSeatCall(r, c, o)
    ensures ResultStands(r, t)
  {
    match c
    case Claim(user, username, id, template) => ClaimStands(r, user, username, id, template, o, t);
    case AskTransfer(user, target, template) =>
    case DropTransfer(user, revision) => TransferStands(r, user);
    case DenyTransfer(commander, user, revision) => TransferStands(r, user);
    case GrantTransfer(commander, user, revision) =>
  }

  lemma TransferStands(r: Room, user: int)
    requires r.phase == Finished
    ensures ResultStands(r, StaleTransferOf(r, user).0)
    ensures ResultStands(r, InvalidateTransfer(r, user, TransferNotFound).0)
  {
  }

  lemma PromoteStands(r: Room, commander: int, successor: int, o: Orders, t: Room)
    requires r.phase == Finished && t == Promote(r, commander, successor, o).0
    ensures ResultStands(r, t)
  {
  }

  lemma ConvertedStands(r: Room, id: SeatId)
    requires r.phase == Finished
    ensures ResultStands(r, ConvertToVmf(r, id).0)
  {
  }

  lemma LeaveStands(r: Room, user: int, successor: int, o: Orders, t: Room)
    requires r.phase == Finished && t == Leave(r, user, successor, o).0
    ensures ResultStands(r, t)
  {
    var current := SeatOf(r.seats, user);
    if current.Some? {
      if Automates(r) {
        ConvertedStands(r, current.value);
      } else if current.value.kind == Commander {
        PromoteStands(r, user, successor, o, Promote(r, user, successor, o).0);
      } else {
        VacatedStands(r, current.value, user, o, t);
      }
    }
  }

  lemma VacatedStands(r: Room, id: SeatId, user: int, o: Orders, t: Room)
    requires r.phase == Finished && t == Vacated(r, id, user, o).0
    ensures ResultStands(r, t)
  {
  }

  lemma CommanderStands(r: Room, id: SeatId, user: int, chosen: (Room, int), o: Orders)
    requires r.phase == Finished && ResultStands(r, chosen.0)
    ensures ResultStands(r, CommanderLeaves(r, id, user, chosen, o).0)
    ensures ResultStands(r, CommanderLost(r, id, user, chosen, o).0)
  {
    PromoteStands(chosen.0, user, chosen.1, o, Promote(chosen.0, user, chosen.1, o).0);
  }

  lemma LeaveCallStands(r: Room, c: LeaveCall, o: Orders, t: Room)
    requires r.phase == Finished && t == AfterLeaveCall(r, c, o)
    ensures ResultStands(r, t)
  {
    match c
    case GiveUp(user, successor) => LeaveStands(r, user, successor, o, t);
    case GoAway(user) => RoomLeftStands(r, user, o, t);
    case LoseConnection(user) => ConnectionLostStands(r, user, o, t);
    case Expel(user) =>
  }

  lemma RoomLeftStands(r: Room, user: int, o: Orders, t: Room)
    requires r.phase == Finished && t == LeaveRoom(r, user, o).0
    ensures ResultStands(r, t)
  {
    var current := SeatOf(r.seats, user);
    if current.Some? {
      if Automates(r) {
        ConvertedStands(r, current.value);
      } else if current.value.kind == Commander {
        CommanderStands(r, current.value, user, ChooseSuccessor(r, current.value.side), o);
      } else {
        LeaveStands(r, user, 0, o, t);
      }
    }
  }

  lemma ConnectionLostStands(r: Room, user: int, o: Orders, t: Room)
    requires r.phase == Finished && t == Disconnect(r, user, o).0
    ensures ResultStands(r, t)
  {
    var current := SeatOf(r.seats, user);
    if current.Some? {
      if Automates(r) {
        ConvertedStands(r, current.value);
      } else if current.value.kind == Commander {
        CommanderStands(r, current.value, user, ChooseSuccessor(r, current.value.side), o);
      } else {
        LeaveStands(r, user, 0, o, t);
      }
    }
  }

  lemma UnitCallStands(r: Room, c: UnitCall, t: Room)
    requires r.phase == Finished && t == AfterUnitCall(r, c)
    ensures ResultStands(r, t)
  {
  }

  lemma MatchCallStands(r: Room, c: MatchCall, o: Orders, t: Room)
    requires r.phase == Finished && t == AfterMatchCall(r, c, o) && !c.Operate?
    ensures ResultStands(r, t)
  {
  }

  lemma CallStands(r: Room, c: Call, o: Orders, t: Room)
    requires Sound(Any, r) && r.phase == Finished && t == After(r, c, o)
    requires !(c.OnMatch? && c.match_.Operate?)
    ensures ResultStands(r, t)
  {
    match c
    case OnRoom(call) => RoomCallStands(r, call, o, t);
    case OnSeat(call) => SeatCallStands(r, call, o, t);
    case OnLeaving(call) => LeaveCallStands(r, call, o, t);
    case OnUnit(call) => UnitCallStands(r, call, t);
    case OnMatch(call) => MatchCallStands(r, call, o, t);
  }

  lemma StepStands(g: Regime, states: seq<Room>, calls: seq<Call>, orders: seq<Orders>, k: nat)
    requires Run(g, states, calls, orders) && k < |calls| && states[k].phase == Finished
    requires !(calls[k].OnMatch? && calls[k].match_.Operate?)
    ensures ResultStands(states[k], states[k + 1])
  {
    RunIsSound(g, states, calls, orders, k);
    SoundAtAll(g, states[k]);
    assert StepAt(g, states, calls, orders, k);
    CallStands(states[k], calls[k], orders[k], states[k + 1]);
  }

  /** Once a match is over, nothing but a reset or a redeployment of the room changes its winner. */
  lemma {:induction false} ResultStandsUntilReset(g: Regime, states: seq<Room>, calls: seq<Call>, orders: seq<Orders>,
                                                  i: nat, j: nat)
    requires Run(g, states, calls, orders) && i <= j < |states| && states[i].phase == Finished
    requires forall k :: i <= k < j ==> !(calls[k].OnMatch? && calls[k].match_.Operate?)
    ensures ResultStands(states[i], states[j])
    decreases j - i
  {
    if i < j {
      ResultStandsUntilReset(g, states, calls, orders, i, j - 1);
      StepStands(g, states, calls, orders, j - 1);
    }
  }
}

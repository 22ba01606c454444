/**
 The authoritative room: seats held by people, by the artificial opponent or by placeholders, transfers between
 seats, the phases of a match, the units of a scenario that seats are bound to, the single-side mode that automates
 seats, and the operations that change all this. Each operation is given here as a function from a room to the room
 and the result it leaves.
 */
module RoomModel {
  import opened Listings
  import opened Options
  import Xorshift

  const MAX_OPERATIONS: nat := 256
  const MAX_NAME_LENGTH: nat := 128
  const PLACEMENT_ATTEMPTS: nat := 64
  const MINIMUM_SPACING: real := 80.0

  datatype Side = Red | Blue

  /** The type of a seat, which is also the kind of unit its template must have. */
  datatype Kind = Commander | Attack | Recon | Ground | Jammer

  /** A unit template: the one for a seat type, or any other entry of the catalog. */
  datatype Template = For(kind: Kind) | Other(name: string)

  /** A seat's id; index 0 stands for an id without a number. */
  datatype SeatId = SeatId(side: Side, kind: Kind, index: int)

  datatype Controller = Human(user: int) | Ai | Placeholder

  /** How a seat is controlled. */
  datatype Control = ByHuman | ByAi | VmfAuto | FixedTarget

  /** The id of a seat's unit: a command post, an id made from side, template and a counter, the id of the scenario's
      unit the seat is bound to, or that of an automated unit of the single-side mode. */
  datatype UnitId =
    | CommandPost(side: Side) | Allocated(side: Side, template: Template, number: nat) | FromScenario(id: string)
    | Automated(side: Side, kind: Kind)

  datatype GeoPos = GeoPos(x: real, y: real, alt: real)

  datatype Seat = Seat(
    seatId: SeatId, controller: Controller, control: Control, username: string, template: Template,
    source: Option<string>, unitId: UnitId, unitName: string, position: GeoPos, deployed: bool, ready: bool,
    revision: nat, pendingTransfer: bool, redeployRequested: bool)

  /** A unit of the scenario that a seat may be bound to. */
  datatype Source = Source(id: string, side: Side, kind: Kind, position: GeoPos)

  /** The scenario's units by their ids, and the unit each place is bound to. */
  datatype Binding = Binding(units: map<string, Source>, seats: map<SeatId, string>)

  datatype Transfer = Transfer(user: int, target: SeatId, template: Template, revision: nat)

  datatype Phase = Preparing | Running | Paused | Finished

  datatype Mode = Pvp | Pve

  datatype Winner = RedWins | BlueWins | Draw

  datatype Unit = Unit(kind: Template, position: GeoPos, maxHp: real)

  /** What may be asked of an operation: an unknown name is None wherever it occurs. */
  datatype Action = ResetRoom | RedeployRoom

  type Catalog = map<Template, Unit>
  type LimitKey = (Side, Kind)
  type Limits = map<LimitKey, int>
  type Seats = map<SeatId, Seat>

  datatype Room = Room(
    templates: Catalog, bound: Binding, limits: Limits, seats: Seats, transfers: map<int, Transfer>,
    operations: map<string, nat>, order: seq<string>, departed: set<int>,
    phase: Phase, mode: Mode, vmf: bool, winner: Option<Winner>, revision: nat, nextUnit: nat, rng: bv64)

  datatype Code =
    | SeatLocked | InvalidRoomMode | InvalidAiSeat | SideReservedForAi | AiDeploymentFailed | InvalidState
    | InvalidTemplate | AiRosterMismatch | SeatOccupied | CommanderPriority | TransferRequired | SeatRequired
    | SuccessorRequired | TransferAlreadyPending | InvalidTransfer | TransferPending | StaleTransfer
    | TransferNotFound | PermissionDenied | SuccessorNotFound | InvalidSuccessor | InvalidDeployment | NotDeployed
    | FriendlySeatsNotReady | InvalidUnitName | NotReady | InvalidResult | ResultConflict | TargetRequired
    | InvalidRedeployTarget | InvalidOperation | StaleRevision | VmfPveConflict | BlueSeatsOccupied | InvalidVmfSeat
    | SideReservedForFixedTarget

  datatype Outcome = Outcome(
    ok: bool, code: Option<Code>, revision: nat, duplicate: bool, successor: int, forfeit: bool, winner: Option<Winner>)

  type Step = (Room, Outcome)

  const ORIGIN := GeoPos(0.0, 0.0, 0.0)
  const RED_COMMANDER := SeatId(Red, Commander, 0)
  const BLUE_COMMANDER := SeatId(Blue, Commander, 0)

  function CommanderOf(side: Side): SeatId { SeatId(side, Commander, 0) }

  /** The blue seat that mirrors a red one, and back. */
  function Mirror(id: SeatId): SeatId { id.(side := Blue) }

  function Counterpart(id: SeatId): SeatId { id.(side := Red) }

  /* ------------------------------------------------------------------ enumeration */

  /** The order in which a set of seats is gone through: sorted, or as a hash table has it. */
  type SeatOrder = f: set<SeatId> -> seq<SeatId> | forall s :: Lists(f(s), s) ghost witness AnyOrder<SeatId>

  type UserOrder = f: set<int> -> seq<int> | forall s :: Lists(f(s), s) ghost witness AnyOrder<int>

  type LimitOrder = f: set<LimitKey> -> seq<LimitKey> | forall s :: Lists(f(s), s) ghost witness AnyOrder<LimitKey>

  type NameOrder = f: set<string> -> seq<string> | forall s :: Lists(f(s), s) ghost witness AnyOrder<string>

  datatype Orders = Orders(seats: SeatOrder, users: UserOrder, limits: LimitOrder, names: NameOrder)

  /* ------------------------------------------------------------------ results */

  function Failure(r: Room, code: Code): Outcome { Outcome(false, Some(code), r.revision, false, 0, false, None) }

  function Refuse(r: Room, code: Code): Step { (r, Failure(r, code)) }

  /** Accepted, with nothing to do. */
  function Same(r: Room): Step { (r, Outcome(true, None, r.revision, true, 0, false, None)) }

  function Done(r: Room): Outcome { Outcome(true, None, r.revision, false, 0, false, None) }

  function Succeed(r: Room): Step {
    var t := r.(revision := r.revision + 1);
    (t, Done(t))
  }

  /* ------------------------------------------------------------------ seats */

  predicate Canonical(id: SeatId) { if id.kind == Commander then id.index == 0 else id.index > 0 }

  /** The place a seat takes among the seats of its side and type. */
  function Place(id: SeatId): int { if id.kind == Commander then 1 else id.index }

  function Limit(limits: Limits, id: SeatId): int {
    if (id.side, id.kind) in limits then limits[(id.side, id.kind)] else 0
  }

  /** A red place the single-side mode provides whatever the limits are. */
  predicate Provisioned(vmf: bool, id: SeatId) {
    vmf && id.side == Red && id.index == 1 && id.kind in {Recon, Attack, Ground}
  }

  predicate ValidSeat(templates: Catalog, limits: Limits, vmf: bool, id: SeatId, template: Template) {
    && template in templates && template == For(id.kind) && Canonical(id)
    && (limits != map[] ==> Provisioned(vmf, id) || Place(id) <= Limit(limits, id))
  }

  /** The seat is held by the person with the given id. */
  predicate Holds(seats: Seats, id: SeatId, user: int) {
    user > 0 && id in seats && seats[id].controller == Human(user)
  }

  ghost function SeatOf(seats: Seats, user: int): (found: Option<SeatId>)
    ensures found.Some? ==> Holds(seats, found.value, user)
    ensures found.None? ==> forall id :: !Holds(seats, id, user)
  {
    if exists id :: Holds(seats, id, user) then
      var id :| Holds(seats, id, user);
      Some(id)
    else None
  }

  function UserOf(seat: Seat): int { if seat.controller.Human? then seat.controller.user else 0 }

  predicate HeldBy(seats: Seats, id: SeatId, kind: Controller) { id in seats && seats[id].controller == kind }

  function Without(seats: Seats, id: SeatId): Seats { map x | x in seats && x != id :: seats[x] }

  function WithoutTransfer(transfers: map<int, Transfer>, user: int): map<int, Transfer> {
    map x | x in transfers && x != user :: transfers[x]
  }

  /** The seats without those of one kind of controller. */
  function WithoutAll(seats: Seats, kind: Controller): Seats {
    map id | id in seats && seats[id].controller != kind :: seats[id]
  }

  predicate AnyHeldBy(seats: Seats, kind: Controller) { exists id :: id in seats && seats[id].controller == kind }

  predicate BluePerson(seats: Seats, id: SeatId) { id in seats && id.side == Blue && seats[id].controller.Human? }

  /** The unit of the scenario a seat has, or would have by its place. */
  function SourceId(b: Binding, id: SeatId, own: Option<string>): Option<string> {
    if own.Some? then own else if id in b.seats then Some(b.seats[id]) else None
  }

  function UnitOf(b: Binding, id: Option<string>): Option<Source> {
    if id.Some? && id.value in b.units then Some(b.units[id.value]) else None
  }

  function SourceOf(b: Binding, seat: Seat): Option<Source> { UnitOf(b, SourceId(b, seat.seatId, seat.source)) }

  function Touched(seat: Seat, r: Room): Seat { seat.(revision := r.revision + 1) }

  function Put(r: Room, id: SeatId, seat: Seat): Room { r.(seats := r.seats[id := seat]) }

  /** Takes back a commander's readiness, if it is given. */
  function CommanderUnready(r: Room, id: SeatId): Room {
    if id in r.seats && r.seats[id].ready then Put(r, id, Touched(r.seats[id].(ready := false), r)) else r
  }

  /* ------------------------------------------------------------------ saving and restoring */

  datatype Saved = Saved(
    mode: Mode, vmf: bool, phase: Phase, winner: Option<Winner>, revision: int, nextUnit: int, rng: bv64,
    seats: seq<Seat>, transfers: seq<Transfer>, operations: seq<(string, int)>)

  function SeatsInOrder(seats: Seats, ids: seq<SeatId>): seq<Seat> {
    if ids == [] then []
    else
      var last, rest := ids[|ids| - 1], SeatsInOrder(seats, ids[..|ids| - 1]);
      if last in seats then rest + [seats[last]] else rest
  }

  function TransfersInOrder(transfers: map<int, Transfer>, users: seq<int>): seq<Transfer> {
    if users == [] then []
    else
      var last, rest := users[|users| - 1], TransfersInOrder(transfers, users[..|users| - 1]);
      if last in transfers then rest + [transfers[last]] else rest
  }

  function OperationsInOrder(operations: map<string, nat>, order: seq<string>): seq<(string, int)> {
    if order == [] then []
    else
      var last := order[|order| - 1];
      OperationsInOrder(operations, order[..|order| - 1]) + [(last, if last in operations then operations[last] else 0)]
  }

  function Save(r: Room, o: Orders): Saved {
    Saved(r.mode, r.vmf, r.phase, r.winner, r.revision, r.nextUnit, r.rng, SeatsInOrder(r.seats, o.seats(r.seats.Keys)),
          TransfersInOrder(r.transfers, o.users(r.transfers.Keys)), OperationsInOrder(r.operations, r.order))
  }

  predicate HeaderOk(s: Saved) { s.revision > 0 && s.nextUnit > 0 && s.rng != 0 }

  /** A saved seat with the unit its place is bound to, if it names none itself. */
  function Located(b: Binding, seat: Seat): Seat { seat.(source := SourceId(b, seat.seatId, seat.source)) }

  /** The unit a seat names is there and belongs to it. */
  predicate SourceSuits(units: map<string, Source>, seat: Seat) {
    seat.source.Some? ==>
      && seat.source.value in units && units[seat.source.value].side == seat.seatId.side
      && For(units[seat.source.value].kind) == seat.template
  }

  predicate SavedSeatOk(r: Room, vmf: bool, seat: Seat) {
    && (seat.controller.Human? ==> seat.controller.user > 0)
    && (vmf && seat.seatId.side == Blue ==> seat.control == FixedTarget)
    && ValidSeat(r.templates, r.limits, r.vmf || vmf, seat.seatId, seat.template)
    && SourceSuits(r.bound.units, Located(r.bound, seat))
    && (seat.ready ==> seat.deployed)
  }

  /** A saved seat as it is taken over: in the single-side mode a bound seat stands where its unit does. */
  function Reread(b: Binding, vmf: bool, seat: Seat): Seat {
    var located := Located(b, seat);
    var source := UnitOf(b, located.source);
    if !vmf || source.None? then located
    else
      located.(unitId := FromScenario(source.value.id), position := source.value.position, deployed := true,
               ready := located.ready || located.controller.Placeholder?)
  }

  /** Reads the saved seats one by one; a bad or repeated one spoils all. */
  function ReadSeats(r: Room, vmf: bool, saved: seq<Seat>): Option<Seats> {
    if saved == [] then Some(map[])
    else
      var last, rest := saved[|saved| - 1], ReadSeats(r, vmf, saved[..|saved| - 1]);
      if rest.None? || last.seatId in rest.value || !SavedSeatOk(r, vmf, last) then None
      else Some(rest.value[last.seatId := Reread(r.bound, vmf, last)])
  }

  ghost predicate SavedTransferOk(r: Room, seats: Seats, t: Transfer) {
    SeatOf(seats, t.user).Some? && t.template in r.templates && t.revision > 0
  }

  /** The saved transfers up to the first bad one, and whether there is none. */
  ghost function ReadTransfers(r: Room, seats: Seats, saved: seq<Transfer>): (map<int, Transfer>, bool) {
    if saved == [] then (map[], true)
    else
      var last, rest := saved[|saved| - 1], ReadTransfers(r, seats, saved[..|saved| - 1]);
      if !rest.1 || !SavedTransferOk(r, seats, last) then (rest.0, false) else (rest.0[last.user := last], true)
  }

  datatype Memory = Memory(operations: map<string, nat>, order: seq<string>)

  function Trimmed(m: Memory): Memory
    decreases |m.order|
  {
    if |m.order| <= MAX_OPERATIONS then m
    else Trimmed(Memory(map id | id in m.operations && id != m.order[0] :: m.operations[id], m.order[1..]))
  }

  function Remembered(m: Memory, id: string, revision: nat): Memory {
    Trimmed(Memory(m.operations[id := revision], Excluding(m.order, id) + [id]))
  }

  function Excluding(order: seq<string>, id: string): seq<string> {
    if order == [] then []
    else if order[0] == id then Excluding(order[1..], id)
    else [order[0]] + Excluding(order[1..], id)
  }

  function ReadOperations(saved: seq<(string, int)>): Memory {
    if saved == [] then Memory(map[], [])
    else
      var last, rest := saved[|saved| - 1], ReadOperations(saved[..|saved| - 1]);
      if last.0 == "" || last.1 <= 0 then rest else Remembered(rest, last.0, last.1)
  }

  /** The single-side mode and an opponent exclude each other. */
  function RestoredMode(s: Saved): Mode { if s.vmf then Pvp else s.mode }

  /** Reading a saved room into a room: catalog, bindings, limits and the list of departed users stay as they are. A
      bad transfer is found only when the seats and the transfers before it have been taken over already. */
  ghost function Restored(r: Room, s: Saved): (Room, bool) {
    if !HeaderOk(s) then (r, false)
    else
      var seats := ReadSeats(r, s.vmf, s.seats);
      if seats.None? then (r, false) else RestRestored(Adopted(r, s, seats.value), s)
  }

  /** The room once seats and counters are taken over. */
  function Adopted(r: Room, s: Saved, seats: Seats): Room
    requires HeaderOk(s)
  {
    r.(seats := seats, phase := s.phase, mode := RestoredMode(s), vmf := s.vmf, winner := s.winner,
       revision := s.revision, nextUnit := s.nextUnit, rng := s.rng, transfers := map[])
  }

  ghost function RestRestored(t: Room, s: Saved): (Room, bool) {
    var transfers := ReadTransfers(t, t.seats, s.transfers);
    if !transfers.1 then (t.(transfers := transfers.0), false)
    else
      var memory := ReadOperations(s.operations);
      (t.(transfers := transfers.0, operations := memory.operations, order := memory.order), true)
  }

  /** What a room becomes when an operation gives up and reads back what it saved before. */
  ghost function RolledBack(r: Room, before: Saved): Room { Restored(r, before).0 }

  /* ------------------------------------------------------------------ the opponent's roster */

  function AiSeat(r: Room, id: SeatId, template: Template): Seat {
    Seat(id, Ai, ByAi, "AI", template, None,
         if id.kind == Commander then CommandPost(Blue) else Allocated(id.side, template, r.nextUnit),
         "", ORIGIN, false, false, r.revision + 1, false, false)
  }

  function InstallAi(r: Room, id: SeatId, template: Template): Step {
    if !ValidSeat(r.templates, r.limits, r.vmf, id, template) || id.side != Blue then Refuse(r, InvalidAiSeat)
    else if id in r.seats && !r.seats[id].controller.Ai? then Refuse(r, SideReservedForAi)
    else if id in r.seats && r.seats[id].template == template then Same(r)
    else Succeed(AiInstalled(r, id, template))
  }

  function AiInstalled(r: Room, id: SeatId, template: Template): Room {
    Put(r, id, AiSeat(r, id, template)).(nextUnit := if id.kind == Commander then r.nextUnit else r.nextUnit + 1)
  }

  /** A red seat the opponent mirrors: held by a person, and not the commander's. */
  predicate Mirrored(seats: Seats, id: SeatId) {
    id in seats && id.side == Red && id.kind != Commander && seats[id].controller.Human?
  }

  /** The seats the opponent should hold. */
  predicate Desired(seats: Seats, id: SeatId) {
    id == BLUE_COMMANDER || (id.side == Blue && Mirrored(seats, Counterpart(id)))
  }

  function InstallMirrors(r: Room, ids: seq<SeatId>): Step
    decreases |ids|
  {
    if ids == [] then Same(r)
    else if !Mirrored(r.seats, ids[0]) then InstallMirrors(r, ids[1..])
    else
      var step := InstallAi(r, Mirror(ids[0]), r.seats[ids[0]].template);
      if !step.1.ok then step else InstallMirrors(step.0, ids[1..])
  }

  function WithoutStale(r: Room): Room {
    r.(seats := map id | id in r.seats && (r.seats[id].controller.Ai? ==> Desired(r.seats, id)) :: r.seats[id])
  }

  /** Every seat under a new revision, and nobody ready any more, except placeholders where they are automated. */
  function Stamped(seats: Seats, automated: bool, stamp: nat): Seats {
    map id | id in seats :: seats[id].(ready := automated && seats[id].controller.Placeholder?, revision := stamp)
  }

  function Unready(r: Room): Room { r.(seats := Stamped(r.seats, false, r.revision + 1)) }

  function SettleRoster(before: Room, r: Room): Step {
    var t := WithoutStale(r);
    if t == before then Same(t) else Succeed(Unready(t))
  }

  function SyncAiRoster(r: Room, o: Orders): Step {
    if r.mode != Pve then Same(r)
    else if r.phase != Preparing then Refuse(r, SeatLocked)
    else AfterCommander(r, InstallAi(r, BLUE_COMMANDER, For(Commander)), o)
  }

  /** The synchronisation once the blue commander is installed, and once the mirrors are. */
  function AfterCommander(r: Room, commander: Step, o: Orders): Step {
    if !commander.1.ok then commander
    else AfterMirrors(r, InstallMirrors(commander.0, o.seats(commander.0.seats.Keys)))
  }

  function AfterMirrors(r: Room, mirrors: Step): Step {
    if !mirrors.1.ok then mirrors else SettleRoster(r, mirrors.0)
  }

  /** The outcome of a synchronisation, or the room as it was saved before when there is none. */
  ghost function OrBack(r: Room, roster: Step, o: Orders): Step {
    if roster.1.ok then roster else (RolledBack(roster.0, Save(r, o)), roster.1)
  }

  /** A change is made, and the opponent's roster follows if there is an opponent. */
  function Followed(t: Room, o: Orders): Step {
    if t.mode == Pve then SyncAiRoster(Succeed(t).0, o) else Succeed(t)
  }

  ghost function SetMode(r: Room, mode: Option<Mode>, o: Orders): Step {
    if r.phase != Preparing then Refuse(r, SeatLocked)
    else if mode.None? then Refuse(r, InvalidRoomMode)
    else if r.vmf && mode.value == Pve then Refuse(r, VmfPveConflict)
    else if r.mode == mode.value then (if r.mode == Pve then SyncAiRoster(r, o) else Same(r))
    else if mode.value == Pvp then Succeed(r.(mode := Pvp, seats := WithoutAll(r.seats, Ai)))
    else OrBack(r, SyncAiRoster(r.(mode := Pve), o), o)
  }

  /* ------------------------------------------------------------------ the single-side mode */

  const AUTOMATED_KINDS := [Recon, Attack, Ground]

  /** A seat of the single-side mode, with the unit its place is bound to or else a template's. */
  function VmfSeat(r: Room, id: SeatId, template: Template, control: Control): Seat {
    var sourceId := SourceId(r.bound, id, None);
    var source := UnitOf(r.bound, sourceId);
    Seat(id, Placeholder, control, if control == FixedTarget then "fixed target" else "automated seat",
         if source.Some? then For(source.value.kind) else template, sourceId,
         if source.Some? then FromScenario(source.value.id)
         else if id.kind == Commander then CommandPost(id.side) else Automated(id.side, id.kind),
         "", if source.Some? then source.value.position else TemplatePosition(r, template), true, true,
         r.revision + 1, false, false)
  }

  /** The seat is what the single-side mode would install there. */
  predicate VmfSeatStands(r: Room, id: SeatId, seat: Seat) {
    && id in r.seats && r.seats[id].controller.Placeholder? && r.seats[id].control == seat.control
    && r.seats[id].source == seat.source && r.seats[id].template == seat.template
  }

  function InstallVmf(r: Room, id: SeatId, template: Template, control: Control): Step {
    if !r.vmf || !ValidSeat(r.templates, r.limits, r.vmf, id, template)
       || !((control == VmfAuto && id.side == Red) || (control == FixedTarget && id.side == Blue))
    then Refuse(r, InvalidVmfSeat)
    else if id in r.seats && r.seats[id].controller.Human? then
      if id.side != Red then Refuse(r, SideReservedForFixedTarget)
      else Same(Put(r, id, r.seats[id].(control := ByHuman)))
    else
      var seat := VmfSeat(r, id, template, control);
      if VmfSeatStands(r, id, seat) then Same(r) else Succeed(Put(r, id, seat))
  }

  /** A blue place that is bound to a unit of the scenario. */
  predicate Target(b: Binding, id: SeatId) { id in b.seats && id.side == Blue && b.seats[id] in b.units }

  function InstallTargets(r: Room, ids: seq<SeatId>): Step
    decreases |ids|
  {
    if ids == [] then Same(r)
    else if !Target(r.bound, ids[0]) then InstallTargets(r, ids[1..])
    else
      var step := InstallVmf(r, ids[0], For(r.bound.units[r.bound.seats[ids[0]]].kind), FixedTarget);
      if !step.1.ok then step else InstallTargets(step.0, ids[1..])
  }

  /** Blue seats that are no targets go. */
  function WithoutStrays(r: Room): Room {
    r.(seats := map id | id in r.seats && (id.side == Blue ==> Target(r.bound, id)) :: r.seats[id])
  }

  predicate Staffed(seats: Seats, kind: Kind) { exists id :: id in seats && id.side == Red && id.kind == kind }

  function InstallAutomated(r: Room, kinds: seq<Kind>): Step
    decreases |kinds|
  {
    if kinds == [] then Same(r)
    else if Staffed(r.seats, kinds[0]) then InstallAutomated(r, kinds[1..])
    else
      var step := InstallVmf(r, SeatId(Red, kinds[0], 1), For(kinds[0]), VmfAuto);
      if !step.1.ok then step else InstallAutomated(step.0, kinds[1..])
  }

  function SyncVmfRoster(r: Room, o: Orders): Step {
    if !r.vmf then Same(r)
    else if r.phase == Finished then Refuse(r, SeatLocked)
    else AfterTargets(r, InstallTargets(r, o.seats(r.bound.seats.Keys)))
  }

  /** The synchronisation once the targets are installed, and once the automated seats are. */
  function AfterTargets(before: Room, targets: Step): Step {
    if !targets.1.ok then targets
    else AfterAutomated(before, InstallAutomated(WithoutStrays(targets.0), AUTOMATED_KINDS))
  }

  function AfterAutomated(before: Room, automated: Step): Step {
    if !automated.1.ok then automated
    else if automated.0 == before then Same(automated.0) else (automated.0, Done(automated.0))
  }

  function SetVmfSingleSide(r: Room, enabled: bool, o: Orders): Step {
    if r.phase != Preparing && r.vmf != enabled then Refuse(r, SeatLocked)
    else if enabled && r.mode == Pve then Refuse(r, VmfPveConflict)
    else if enabled && exists id :: id in r.seats && BluePerson(r.seats, id) then Refuse(r, BlueSeatsOccupied)
    else if enabled then SyncVmfRoster(r.(vmf := true), o)
    else if !r.vmf then Same(r)
    else Succeed(r.(vmf := false, seats := WithoutAll(r.seats, Placeholder)))
  }

  /** A person's seat becomes an automated one. */
  function AutomatedSeat(r: Room, seat: Seat): Seat {
    seat.(controller := Placeholder, control := VmfAuto, username := "automated seat", ready := true,
          pendingTransfer := false, redeployRequested := false, revision := r.revision + 1)
  }

  function ConvertToVmf(r: Room, id: SeatId): Step {
    if !r.vmf || id !in r.seats || id.side != Red then Refuse(r, InvalidVmfSeat)
    else
      var user := UserOf(r.seats[id]);
      Succeed(Put(r, id, AutomatedSeat(r, r.seats[id]))
              .(transfers := WithoutTransfer(r.transfers, user), departed := r.departed + {user}))
  }

  /** The roster of the room's mode, brought up to date. */
  function Restaffed(r: Room, o: Orders): Step {
    if r.vmf then SyncVmfRoster(r, o) else if r.mode == Pve then SyncAiRoster(r, o) else Same(r)
  }

  /** A person is gone, and the roster of the room's mode follows. */
  function Refilled(t: Room, o: Orders): Step {
    if t.vmf || t.mode == Pve then Restaffed(Succeed(t).0, o) else Succeed(t)
  }

  /* ------------------------------------------------------------------ binding seats to the scenario's units */

  /** A unit of a scenario: side is None when it is neither of the two. */
  datatype ScenarioUnit = ScenarioUnit(id: string, side: Option<Side>, template: Template, position: GeoPos)

  /** The units that seats can be bound to, by their ids: a blank or repeated id or an unknown side spoils all. */
  function ReadSources(units: seq<ScenarioUnit>): Option<map<string, Source>> {
    if units == [] then Some(map[])
    else
      var last, rest := units[|units| - 1], ReadSources(units[..|units| - 1]);
      if rest.None? || last.template.Other? then rest
      else if Blank(last.id) || last.id in rest.value || last.side.None? then None
      else Some(rest.value[last.id := Source(last.id, last.side.value, last.template.kind, last.position)])
  }

  /** The seat is bound to a unit that suits it. */
  predicate StaysBound(units: map<string, Source>, seat: Seat) {
    && seat.source.Some? && seat.source.value in units && units[seat.source.value].side == seat.seatId.side
    && units[seat.source.value].kind == seat.seatId.kind
  }

  /** The unit a seat is bound to is no longer there or no longer suits it. */
  predicate Unbound(units: map<string, Source>, seat: Seat) { seat.source.Some? && !StaysBound(units, seat) }

  /** An unbound seat that may not simply be dropped. */
  predicate Obstructs(r: Room, units: map<string, Source>, id: SeatId) {
    id in r.seats && Unbound(units, r.seats[id]) && !(r.vmf && r.seats[id].controller.Placeholder?)
  }

  function KeptBindings(seats: Seats, units: map<string, Source>): map<SeatId, string> {
    map id | id in seats && StaysBound(units, seats[id]) :: seats[id].source.value
  }

  function Buckets(units: map<string, Source>): set<LimitKey> {
    set id | id in units :: (units[id].side, units[id].kind)
  }

  function Bucket(units: map<string, Source>, key: LimitKey): set<string> {
    set id | id in units && units[id].side == key.0 && units[id].kind == key.1
  }

  /** The bound places of a side and type from a number on. */
  function Ahead(bindings: map<SeatId, string>, key: LimitKey, index: int): set<SeatId> {
    set id | id in bindings && id.side == key.0 && id.kind == key.1 && id.index >= index
  }

  /** The first number from the given one on whose place is not bound. */
  function FreeIndex(bindings: map<SeatId, string>, key: LimitKey, index: int): int
    decreases Ahead(bindings, key, index)
  {
    if SeatId(key.0, key.1, index) !in bindings then index
    else
      assert SeatId(key.0, key.1, index) in Ahead(bindings, key, index) - Ahead(bindings, key, index + 1);
      FreeIndex(bindings, key, index + 1)
  }

  /** Binds the units of one side and type that are not bound yet to the first free places. None stands for a search
      that never ends: a side has a single place for a command post, and a second one is sent to it over and over. */
  function BindBucket(bindings: map<SeatId, string>, key: LimitKey, ids: seq<string>, index: int, taken: set<string>):
    Option<map<SeatId, string>>
    decreases |ids|
  {
    if ids == [] then Some(bindings)
    else if ids[0] in taken then BindBucket(bindings, key, ids[1..], index, taken)
    else if key.1 == Commander then
      if CommanderOf(key.0) in bindings then None
      else BindBucket(bindings[CommanderOf(key.0) := ids[0]], key, ids[1..], index, taken)
    else
      var free := FreeIndex(bindings, key, index);
      BindBucket(bindings[SeatId(key.0, key.1, free) := ids[0]], key, ids[1..], free + 1, taken)
  }

  function BindBuckets(bindings: map<SeatId, string>, units: map<string, Source>, keys: seq<LimitKey>,
                       taken: set<string>, o: Orders): Option<map<SeatId, string>>
    decreases |keys|
  {
    if keys == [] then Some(bindings)
    else
      var more := BindBucket(bindings, keys[0], o.names(Bucket(units, keys[0])), 1, taken);
      if more.None? then None else BindBuckets(more.value, units, keys[1..], taken, o)
  }

  function BoundSeat(vmf: bool, stamp: nat, b: Binding, seat: Seat): Seat {
    var id := SourceId(b, seat.seatId, seat.source);
    var source := UnitOf(b, id);
    if source.None? then seat
    else
      var bound := seat.(source := id, template := For(source.value.kind), unitId := FromScenario(source.value.id));
      if !vmf then bound
      else bound.(position := source.value.position, deployed := true, ready := !seat.controller.Human?,
                  revision := stamp)
  }

  /** The room with new bindings: seats whose unit is gone go, and the others get the units they are bound to. */
  function BoundRoom(r: Room, b: Binding): Room {
    r.(bound := b, seats := BoundSeats(r.seats, b, r.vmf, r.revision + 1))
  }

  function BoundSeats(seats: Seats, b: Binding, vmf: bool, stamp: nat): Seats {
    map id | id in seats && !Unbound(b.units, seats[id]) :: BoundSeat(vmf, stamp, b, seats[id])
  }

  function Bindings(r: Room, units: map<string, Source>, o: Orders): Option<map<SeatId, string>> {
    var kept := KeptBindings(r.seats, units);
    BindBuckets(kept, units, o.limits(Buckets(units)), set id | id in kept :: kept[id], o)
  }

  /** Binds the seats to the units of a scenario; None when the search for free places never ends. */
  function SetScenarioUnits(r: Room, units: seq<ScenarioUnit>, o: Orders): Option<(Room, bool)> {
    var sources := ReadSources(units);
    if sources.None? || exists id :: id in r.seats && Obstructs(r, sources.value, id) then Some((r, false))
    else
      var bindings := Bindings(r, sources.value, o);
      if bindings.None? then None else Some((BoundRoom(r, Binding(sources.value, bindings.value)), true))
  }

  /* ------------------------------------------------------------------ limits and templates */

  predicate ValidLimit(key: LimitKey, value: int) { 0 <= value <= 64 && (key.1 == Commander ==> value == 1) }

  predicate ValidLimits(limits: Limits) { forall key :: key in limits ==> ValidLimit(key, limits[key]) }

  predicate Fits(limits: Limits, vmf: bool, id: SeatId) {
    0 < Place(id) && (Provisioned(vmf, id) || Place(id) <= Limit(limits, id))
  }

  predicate AllFit(limits: Limits, vmf: bool, seats: Seats) { forall id :: id in seats ==> Fits(limits, vmf, id) }

  function SetSeatLimits(r: Room, limits: Limits): (Room, bool) {
    if ValidLimits(limits) && AllFit(limits, r.vmf, r.seats) then (r.(limits := limits), true) else (r, false)
  }

  predicate Usable(catalog: Catalog, kind: Kind) {
    For(kind) in catalog && catalog[For(kind)].kind == For(kind) && catalog[For(kind)].maxHp > 0.0
  }

  predicate Complete(catalog: Catalog) {
    Usable(catalog, Commander) && Usable(catalog, Attack) && Usable(catalog, Recon) && Usable(catalog, Ground)
    && Usable(catalog, Jammer)
  }

  function SetTemplateCatalog(r: Room, catalog: Catalog): (Room, bool) {
    if Complete(catalog) then (r.(templates := catalog), true) else (r, false)
  }

  /* ------------------------------------------------------------------ placeholders */

  function TemplatePosition(r: Room, template: Template): GeoPos {
    if template in r.templates then r.templates[template].position else ORIGIN
  }

  function PlaceholderSeat(r: Room, id: SeatId): Seat {
    Seat(id, Placeholder, VmfAuto, "placeholder", For(id.kind), None, Allocated(id.side, For(id.kind), r.nextUnit), "",
         TemplatePosition(r, For(id.kind)), true, true, r.revision + 1, false, false)
  }

  function InstallPlaceholder(r: Room, id: SeatId): Room {
    if id in r.seats then r else Put(r, id, PlaceholderSeat(r, id)).(nextUnit := r.nextUnit + 1)
  }

  function InstallNumbered(r: Room, key: LimitKey, index: int, last: int): Room
    decreases last - index
  {
    if index > last then r
    else InstallNumbered(InstallPlaceholder(r, SeatId(key.0, key.1, index)), key, index + 1, last)
  }

  function InstallMissing(r: Room, keys: seq<LimitKey>): Room
    decreases |keys|
  {
    if keys == [] then r
    else
      var t := if keys[0].1 == Commander || keys[0] !in r.limits then r
               else InstallNumbered(r, keys[0], 1, r.limits[keys[0]]);
      InstallMissing(t, keys[1..])
  }

  function FilledUp(r: Room, o: Orders): Step {
    var t := InstallMissing(r, o.limits(r.limits.Keys));
    if t == r then Same(r) else Succeed(t)
  }

  function InstallPlaceholders(r: Room, o: Orders): Step {
    if r.phase != Preparing && r.phase != Running then Refuse(r, SeatLocked)
    else if r.vmf then SyncVmfRoster(r, o) else FilledUp(r, o)
  }

  function RemovePlaceholders(r: Room): Step {
    if r.phase != Preparing then Refuse(r, SeatLocked)
    else if !AnyHeldBy(r.seats, Placeholder) then Same(r)
    else Succeed(r.(seats := WithoutAll(r.seats, Placeholder)))
  }

  /* ------------------------------------------------------------------ placing the opponent's units */

  /** The map's size, and for each seat the number from which it draws further positions. */
  datatype Terrain = Terrain(width: real, height: real, seeds: SeatId -> bv64)

  predicate OnMap(p: GeoPos, t: Terrain) { 0.0 <= p.x <= t.width && 0.0 <= p.y <= t.height }

  /** At least the minimum spacing apart, measured on the ground. */
  predicate FarApart(a: GeoPos, b: GeoPos) {
    (a.x - b.x) * (a.x - b.x) + (a.y - b.y) * (a.y - b.y) >= MINIMUM_SPACING * MINIMUM_SPACING
  }

  predicate ClearOf(p: GeoPos, placements: map<SeatId, GeoPos>) {
    forall id :: id in placements ==> FarApart(p, placements[id])
  }

  predicate ValidAiPosition(p: GeoPos, t: Terrain, placements: map<SeatId, GeoPos>) {
    OnMap(p, t) && ClearOf(p, placements)
  }

  /** The position that a word of the generator stands for: two parts of it, as millionths of the map's size. */
  function SpotOf(word: bv64, t: Terrain, alt: real): GeoPos {
    GeoPos(Xorshift.Millionths(word) * t.width, Xorshift.Millionths(word >> 20) * t.height, alt)
  }

  function Drawn(id: SeatId, attempt: nat, t: Terrain, alt: real): GeoPos {
    SpotOf(Xorshift.Following(t.seeds(id), attempt + 1), t, alt)
  }

  /** The first drawn position that is valid. */
  function Retried(id: SeatId, attempt: nat, t: Terrain, alt: real, placements: map<SeatId, GeoPos>): Option<GeoPos>
    decreases PLACEMENT_ATTEMPTS - attempt
  {
    if attempt >= PLACEMENT_ATTEMPTS then None
    else if ValidAiPosition(Drawn(id, attempt, t, alt), t, placements) then Some(Drawn(id, attempt, t, alt))
    else Retried(id, attempt + 1, t, alt, placements)
  }

  function Placed(id: SeatId, start: GeoPos, t: Terrain, placements: map<SeatId, GeoPos>): Option<GeoPos> {
    if ValidAiPosition(start, t, placements) then Some(start) else Retried(id, 0, t, start.alt, placements)
  }

  /** Where the seats stand that are deployed and not the opponent's. */
  function Occupied(seats: Seats): map<SeatId, GeoPos> {
    map id | id in seats && !seats[id].controller.Ai? && seats[id].deployed :: seats[id].position
  }

  function AiSeats(seats: Seats): set<SeatId> { set id | id in seats && seats[id].controller.Ai? }

  function DeployEach(r: Room, ids: seq<SeatId>, t: Terrain, placements: map<SeatId, GeoPos>): (Room, bool)
    decreases |ids|
  {
    if ids == [] then (r, true)
    else if ids[0] !in r.seats then DeployEach(r, ids[1..], t, placements)
    else
      var seat := r.seats[ids[0]];
      var spot := Placed(ids[0], TemplatePosition(r, seat.template), t, placements);
      if spot.None? then (r, false)
      else DeployEach(Stationed(r, ids[0], spot.value), ids[1..], t, placements[ids[0] := spot.value])
  }

  function Stationed(r: Room, id: SeatId, spot: GeoPos): Room
    requires id in r.seats
  {
    Put(r, id, Touched(r.seats[id].(position := spot, deployed := true, ready := true), r))
  }

  /** Places every seat of the opponent; terrain is None when the map's size is not a finite number. */
  ghost function DeployAiSeats(r: Room, terrain: Option<Terrain>, o: Orders): Step {
    if r.mode != Pve || r.phase != Preparing then Refuse(r, SeatLocked)
    else if terrain.None? || terrain.value.width <= 0.0 || terrain.value.height <= 0.0 then
      Refuse(r, AiDeploymentFailed)
    else OpponentPlaced(r, terrain.value, o)
  }

  ghost function OpponentPlaced(r: Room, t: Terrain, o: Orders): Step {
    AfterPlacing(r, DeployEach(r, o.seats(AiSeats(r.seats)), t, Occupied(r.seats)), o)
  }

  /** All are placed, or the room is put back as it was saved before. */
  ghost function AfterPlacing(r: Room, each: (Room, bool), o: Orders): Step {
    if each.1 then Succeed(each.0)
    else
      var t := RolledBack(each.0, Save(r, o));
      (t, Failure(t, AiDeploymentFailed))
  }

  /* ------------------------------------------------------------------ taking a seat */

  predicate IsBlank(c: char) { c in {' ', '\t', '\n', '\r'} }

  predicate Blank(text: string) { forall i :: 0 <= i < |text| ==> IsBlank(text[i]) }

  /** The text without the blanks around it. */
  function Trim(text: string): string {
    if text == [] then []
    else if IsBlank(text[0]) then Trim(text[1..])
    else if IsBlank(text[|text| - 1]) then Trim(text[..|text| - 1])
    else text
  }

  /** Why a claim is refused before it is known whether the person sits anywhere, if it is. */
  function ClaimObjection(r: Room, user: int, username: string, id: SeatId, template: Template): Option<Code> {
    if (r.phase != Preparing && !HeldBy(r.seats, id, Placeholder)) || user <= 0 || Blank(username) then
      Some(InvalidState)
    else if !ValidSeat(r.templates, r.limits, r.vmf, id, template) then Some(InvalidTemplate)
    else if r.vmf && id.side != Red then Some(SideReservedForFixedTarget)
    else if r.mode == Pve && id.side == Blue then Some(SideReservedForAi)
    else if r.mode == Pve && !ValidSeat(r.templates, r.limits, r.vmf, Mirror(id), template) then Some(AiRosterMismatch)
    else if id in r.seats && !r.seats[id].controller.Placeholder? && UserOf(r.seats[id]) != user then Some(SeatOccupied)
    else if id == BLUE_COMMANDER && RED_COMMANDER !in r.seats then Some(CommanderPriority)
    else if id.kind != Commander && (RED_COMMANDER !in r.seats || (!r.vmf && BLUE_COMMANDER !in r.seats)) then
      Some(CommanderPriority)
    else None
  }

  /** The unit of the scenario a claimed seat is bound to. */
  function ClaimedSourceId(r: Room, id: SeatId): Option<string> {
    SourceId(r.bound, id, if id in r.seats then r.seats[id].source else None)
  }

  /** The seat a person takes; a placeholder's unit, place and name go with it, and a bound unit comes with it. */
  function ClaimedSeat(r: Room, user: int, username: string, id: SeatId, template: Template): Seat {
    var source := UnitOf(r.bound, ClaimedSourceId(r, id));
    var taken := id in r.seats;
    Seat(id, Human(user), ByHuman, username, if source.Some? then For(source.value.kind) else template,
         ClaimedSourceId(r, id),
         if taken then r.seats[id].unitId
         else if source.Some? then FromScenario(source.value.id) else Allocated(id.side, template, r.nextUnit),
         if taken then r.seats[id].unitName else "",
         if source.Some? && r.vmf then source.value.position else if taken then r.seats[id].position else ORIGIN,
         r.vmf || (taken && r.seats[id].deployed), false, r.revision + 1, false, false)
  }

  /** A number is used up for a seat that has neither a unit already nor one in the scenario. */
  function NumberAfterClaim(r: Room, id: SeatId): nat {
    if id in r.seats || UnitOf(r.bound, ClaimedSourceId(r, id)).Some? then r.nextUnit else r.nextUnit + 1
  }

  function Seated(r: Room, user: int, username: string, id: SeatId, template: Template): Room {
    var t := Put(r, id, ClaimedSeat(r, user, username, id, template)).(nextUnit := NumberAfterClaim(r, id));
    var u := if id.kind != Commander then CommanderUnready(t, CommanderOf(id.side)) else t;
    u.(departed := r.departed - {user})
  }

  ghost function ClaimSeat(r: Room, user: int, username: string, id: SeatId, template: Template, o: Orders): Step {
    var objection := ClaimObjection(r, user, username, id, template);
    if objection.Some? then Refuse(r, objection.value) else ClaimUnopposed(r, user, username, id, template, o)
  }

  ghost function ClaimUnopposed(r: Room, user: int, username: string, id: SeatId, template: Template, o: Orders): Step {
    var current := SeatOf(r.seats, user);
    if current.None? then TakeSeat(r, Seated(r, user, username, id, template), id, o)
    else if current.value != id then Refuse(r, TransferRequired)
    else Same(r)
  }

  /** The seat is taken, and the opponent's roster follows; when it cannot, the seat is given back. */
  ghost function TakeSeat(r: Room, seated: Room, id: SeatId, o: Orders): Step {
    if r.mode != Pve || id.side != Red then Succeed(seated)
    else OrBack(r, SyncAiRoster(Succeed(seated).0, o), o)
  }

  /* ------------------------------------------------------------------ changing seats */

  ghost function RequestTransfer(r: Room, user: int, target: SeatId, template: Template): Step {
    var current := SeatOf(r.seats, user);
    if r.phase != Preparing then Refuse(r, SeatLocked)
    else if current.None? then Refuse(r, SeatRequired)
    else if current.value.kind == Commander then Refuse(r, SuccessorRequired)
    else if user in r.transfers then Refuse(r, TransferAlreadyPending)
    else if !ValidSeat(r.templates, r.limits, r.vmf, target, template) || target.side != current.value.side
         || target.kind == Commander || target in r.seats then Refuse(r, InvalidTransfer)
    else if r.mode == Pve && target.side == Red && !ValidSeat(r.templates, r.limits, r.vmf, Mirror(target), template)
    then Refuse(r, AiRosterMismatch)
    else TransferNoted(r, current.value, user, target, template)
  }

  function TransferNoted(r: Room, id: SeatId, user: int, target: SeatId, template: Template): Step
    requires id in r.seats
  {
    var transfer := Transfer(user, target, template, r.revision + 1);
    var t := Put(r, id, r.seats[id].(pendingTransfer := true))
             .(transfers := r.transfers[user := transfer], revision := r.revision + 1);
    (t, Failure(t, TransferPending))
  }

  ghost function InvalidateTransfer(r: Room, user: int, code: Code): Step {
    if user !in r.transfers then Refuse(r, code) else Succeed(TransferDropped(r, user, SeatOf(r.seats, user)))
  }

  function TransferDropped(r: Room, user: int, source: Option<SeatId>): Room
    requires source.Some? ==> source.value in r.seats
  {
    var t := if source.None? then r else Put(r, source.value, r.seats[source.value].(pendingTransfer := false));
    t.(transfers := WithoutTransfer(r.transfers, user))
  }

  /** A transfer that is out of date is dropped, and the request refused. */
  ghost function StaleTransferOf(r: Room, user: int): Step {
    var t := if user in r.transfers then InvalidateTransfer(r, user, StaleTransfer).0 else r;
    (t, Failure(t, StaleTransfer))
  }

  ghost function CancelTransfer(r: Room, user: int, revision: int): Step {
    if user !in r.transfers || r.transfers[user].revision != revision then StaleTransferOf(r, user)
    else InvalidateTransfer(r, user, TransferNotFound)
  }

  /** The first person commands the side the second one sits on. */
  ghost predicate Commands(r: Room, commander: int, user: int) {
    var a, b := SeatOf(r.seats, commander), SeatOf(r.seats, user);
    a.Some? && b.Some? && a.value.kind == Commander && a.value.side == b.value.side
  }

  ghost function RejectTransfer(r: Room, commander: int, user: int, revision: int): Step {
    if !Commands(r, commander, user) then Refuse(r, PermissionDenied)
    else if user !in r.transfers || r.transfers[user].revision != revision || revision != r.revision
    then StaleTransferOf(r, user)
    else InvalidateTransfer(r, user, TransferNotFound)
  }

  /** A person's seat, moved to another place with a new unit that is not deployed yet. */
  function MovedSeat(r: Room, seat: Seat, target: SeatId, template: Template): Seat {
    seat.(seatId := target, template := template, unitId := Allocated(target.side, template, r.nextUnit),
          position := ORIGIN, deployed := false, ready := false, pendingTransfer := false, revision := r.revision + 1)
  }

  function MovedTo(r: Room, source: SeatId, target: SeatId, template: Template, user: int): Room
    requires source in r.seats
  {
    r.(seats := Without(r.seats, source)[target := MovedSeat(r, r.seats[source], target, template)],
       transfers := WithoutTransfer(r.transfers, user), nextUnit := r.nextUnit + 1)
  }

  ghost function ApproveTransfer(r: Room, commander: int, user: int, revision: int, o: Orders): Step {
    if r.phase != Preparing then Refuse(r, SeatLocked)
    else if !Commands(r, commander, user) then Refuse(r, PermissionDenied)
    else if user !in r.transfers || revision != r.revision || r.transfers[user].revision != revision
         || r.transfers[user].target in r.seats then StaleTransferOf(r, user)
    else Granted(r, SeatOf(r.seats, user).value, user, r.transfers[user], o)
  }

  /** The transfer is carried out, unless the place asked for has ceased to be a valid one. */
  ghost function Granted(r: Room, source: SeatId, user: int, transfer: Transfer, o: Orders): Step
    requires source in r.seats
  {
    if !ValidSeat(r.templates, r.limits, r.vmf, transfer.target, transfer.template) then
      var t := InvalidateTransfer(r, user, InvalidTransfer).0;
      (t, Failure(t, InvalidTransfer))
    else Followed(MovedTo(r, source, transfer.target, transfer.template, user), o)
  }

  /* ------------------------------------------------------------------ leaving */

  /** The successor's seat at the commander's place: new while preparing, the commander's own unit afterwards. */
  function PromotedSeat(r: Room, commander: Seat, successor: Seat, place: SeatId): Seat {
    if r.phase == Preparing then
      successor.(seatId := place, template := For(Commander),
                 unitId := Allocated(place.side, For(Commander), r.nextUnit), unitName := "", position := ORIGIN,
                 deployed := false, ready := false, pendingTransfer := false,
                 revision := r.revision + 1)
    else
      successor.(seatId := place, template := commander.template, unitId := commander.unitId,
                 unitName := commander.unitName, position := commander.position, deployed := commander.deployed,
                 ready := commander.ready, pendingTransfer := false, revision := r.revision + 1)
  }

  function Promoted(r: Room, place: SeatId, source: SeatId, commander: int, successor: int): Room
    requires place in r.seats && source in r.seats
  {
    var seat := PromotedSeat(r, r.seats[place], r.seats[source], place);
    r.(seats := Without(r.seats, source)[place := seat], transfers := WithoutTransfer(r.transfers, successor),
       departed := r.departed + {commander}, nextUnit := if r.phase == Preparing then r.nextUnit + 1 else r.nextUnit)
  }

  ghost function Promote(r: Room, commander: int, successor: int, o: Orders): Step {
    var place, source := SeatOf(r.seats, commander), SeatOf(r.seats, successor);
    if place.None? || source.None? then Refuse(r, SuccessorNotFound)
    else if place.value.kind != Commander || source.value.kind == Commander || place.value.side != source.value.side
    then Refuse(r, InvalidSuccessor)
    else
      var done := Succeed(Promoted(r, place.value, source.value, commander, successor));
      Joined(done.0, done.1.(successor := successor), o)
  }

  /** The roster of the room's mode follows a promotion while preparing. */
  function Joined(t: Room, result: Outcome, o: Orders): Step {
    if t.phase == Preparing && (t.vmf || t.mode == Pve) then
      var roster := Restaffed(t, o);
      if roster.1.ok then (roster.0, result.(revision := roster.1.revision)) else roster
    else (t, result)
  }

  /** The room without a person's seat. */
  function Gone(r: Room, id: SeatId, user: int): Room {
    r.(seats := Without(r.seats, id), departed := r.departed + {user})
  }

  /** The room once a person's seat is given up, and the roster that follows while preparing. */
  function Vacated(r: Room, id: SeatId, user: int, o: Orders): Step {
    var gone := Gone(r, id, user).(transfers := WithoutTransfer(r.transfers, user));
    if r.phase == Preparing then Refilled(gone, o) else Succeed(gone)
  }

  /** In the single-side mode a seat given up after the preparation is automated. */
  predicate Automates(r: Room) { r.vmf && r.phase != Preparing }

  ghost function Leave(r: Room, user: int, successor: int, o: Orders): Step {
    var current := SeatOf(r.seats, user);
    if current.None? then Same(r)
    else if Automates(r) then ConvertToVmf(r, current.value)
    else if current.value.kind == Commander then
      if successor <= 0 then Refuse(r, SuccessorRequired) else Promote(r, user, successor, o)
    else Vacated(r, current.value, user, o)
  }

  predicate Candidate(seats: Seats, side: Side, id: SeatId) {
    && id in seats && id.side == side && id.kind != Commander && seats[id].controller.Human?
    && seats[id].controller.user > 0
  }

  function Candidates(seats: Seats, side: Side): set<int> {
    set id | id in seats && Candidate(seats, side, id) :: seats[id].controller.user
  }

  ghost function ChooseSuccessor(r: Room, side: Side): (Room, int) {
    var candidates := Candidates(r.seats, side);
    if candidates == {} then (r, 0)
    else
      var t := r.(rng := Xorshift.Next(r.rng));
      (t, Ascending(candidates)[Xorshift.Value(t.rng) % |candidates|])
  }

  ghost function LeaveRoom(r: Room, user: int, o: Orders): Step {
    var current := SeatOf(r.seats, user);
    if current.None? then Same(r)
    else if Automates(r) then ConvertToVmf(r, current.value)
    else if current.value.kind != Commander then Leave(r, user, 0, o)
    else CommanderLeaves(r, current.value, user, ChooseSuccessor(r, current.value.side), o)
  }

  /** A commander leaves to the successor that was chosen, if there is one. */
  ghost function CommanderLeaves(r: Room, id: SeatId, user: int, chosen: (Room, int), o: Orders): Step {
    if chosen.1 > 0 then Promote(chosen.0, user, chosen.1, o)
    else if r.phase != Preparing then Refuse(r, SuccessorRequired)
    else CommanderVacated(r, id, user, o)
  }

  /** A commander's seat given up without a successor: a commander has no transfer to drop. */
  function CommanderVacated(r: Room, id: SeatId, user: int, o: Orders): Step {
    Refilled(Gone(r, id, user), o)
  }

  function Opponent(side: Side): Winner { if side == Red then BlueWins else RedWins }

  ghost function Disconnect(r: Room, user: int, o: Orders): Step {
    var current := SeatOf(r.seats, user);
    if current.None? then (r, Done(r).(duplicate := user in r.departed))
    else if Automates(r) then ConvertToVmf(r, current.value)
    else if current.value.kind != Commander then Leave(r, user, 0, o)
    else CommanderLost(r, current.value, user, ChooseSuccessor(r, current.value.side), o)
  }

  /** A commander's connection is lost: a successor takes over, or the side forfeits a match under way. */
  ghost function CommanderLost(r: Room, id: SeatId, user: int, chosen: (Room, int), o: Orders): Step {
    if chosen.1 > 0 then Promote(chosen.0, user, chosen.1, o)
    else if r.phase == Preparing then CommanderVacated(r, id, user, o)
    else if r.phase == Finished then Same(r)
    else Forfeited(r, id, user, Opponent(id.side))
  }

  function Forfeited(r: Room, id: SeatId, user: int, winner: Winner): Step {
    var lost := Succeed(Gone(r, id, user).(phase := Finished, winner := Some(winner)));
    (lost.0, lost.1.(forfeit := true, winner := Some(winner)))
  }

  function Expelled(r: Room, id: SeatId, user: int): Room {
    r.(seats := Without(r.seats, id), transfers := WithoutTransfer(r.transfers, user), revision := r.revision + 1)
  }

  ghost function RemoveUser(r: Room, user: int, o: Orders): (Room, bool) {
    var current := SeatOf(r.seats, user);
    if current.None? then (r, false)
    else
      var expelled := Expelled(r, current.value, user);
      (if r.phase == Preparing then Restaffed(expelled, o).0 else expelled, true)
  }

  /* ------------------------------------------------------------------ deploying and getting ready */

  /** A seat put in a place on the map; position is None when a coordinate is not a finite number. */
  function DeployedAt(r: Room, id: SeatId, position: GeoPos): Step
    requires id in r.seats
  {
    var seat := r.seats[id].(position := position, deployed := true, ready := false);
    Succeed(Put(r, id, Touched(seat, r)))
  }

  predicate OnGround(position: Option<GeoPos>) { position.Some? && position.value.x >= 0.0 && position.value.y >= 0.0 }

  ghost predicate CommandsSeat(r: Room, commander: int, id: SeatId) {
    var place := SeatOf(r.seats, commander);
    place.Some? && place.value.kind == Commander && id in r.seats && place.value.side == id.side
  }

  ghost function Deploy(r: Room, commander: int, id: SeatId, position: Option<GeoPos>): Step {
    if !CommandsSeat(r, commander, id) || !OnGround(position) then Refuse(r, InvalidDeployment)
    else DeployedAt(r, id, position.value)
  }

  function DeployInitial(r: Room, id: SeatId, position: Option<GeoPos>): Step {
    if r.phase != Preparing || id !in r.seats || !OnGround(position) then Refuse(r, InvalidDeployment)
    else DeployedAt(r, id, position.value)
  }

  /** A seat a commander waits for before getting ready. */
  predicate HoldsUp(seats: Seats, side: Side, id: SeatId) {
    id in seats && id.side == side && id.kind != Commander && !seats[id].controller.Placeholder?
    && (!seats[id].deployed || !seats[id].ready)
  }

  ghost function SetReady(r: Room, user: int, ready: bool): Step {
    var current := SeatOf(r.seats, user);
    if current.None? || (ready && !r.seats[current.value].deployed) then Refuse(r, NotDeployed)
    else MarkedReady(r, current.value, ready)
  }

  ghost function MarkedReady(r: Room, id: SeatId, ready: bool): Step
    requires id in r.seats
  {
    if ready && id.kind == Commander && exists other :: HoldsUp(r.seats, id.side, other) then
      Refuse(r, FriendlySeatsNotReady)
    else if r.seats[id].ready == ready then Same(r)
    else Succeed(Put(r, id, Touched(r.seats[id].(ready := ready), r)))
  }

  /** Names the unit of a person's seat, leaving out blanks around the text. */
  ghost function SetUnitName(r: Room, user: int, text: string): Step {
    var current, name := SeatOf(r.seats, user), Trim(text);
    if r.phase != Preparing || current.None? || name == "" || |name| > MAX_NAME_LENGTH then Refuse(r, InvalidUnitName)
    else if r.seats[current.value].unitName == name then Same(r)
    else Succeed(Put(r, current.value, Touched(r.seats[current.value].(unitName := name), r)))
  }

  /** Nobody is ready any more, except what the single-side mode automates. */
  function ClearReadiness(r: Room): Room {
    r.(seats := Stamped(r.seats, r.vmf, r.revision + 1), revision := r.revision + 1)
  }

  datatype Readiness = Readiness(commandersPresent: bool, humanRedCommanderReady: bool, ready: bool)

  predicate HumanRedCommander(seats: Seats) {
    RED_COMMANDER in seats && seats[RED_COMMANDER].controller.Human? && seats[RED_COMMANDER].controller.user > 0
  }

  predicate CommandersPresent(r: Room) {
    BLUE_COMMANDER in r.seats && if r.vmf then HumanRedCommander(r.seats) else RED_COMMANDER in r.seats
  }

  predicate EverySeatReady(seats: Seats) { forall id :: id in seats ==> seats[id].deployed && seats[id].ready }

  function ReadinessOf(r: Room): Readiness {
    Readiness(CommandersPresent(r),
              HumanRedCommander(r.seats) && r.seats[RED_COMMANDER].deployed && r.seats[RED_COMMANDER].ready,
              CommandersPresent(r) && EverySeatReady(r.seats))
  }

  ghost function RequestRedeploy(r: Room, user: int): Step {
    var current := SeatOf(r.seats, user);
    if r.phase != Preparing || current.None? || !r.seats[current.value].deployed then Refuse(r, NotDeployed)
    else if r.seats[current.value].redeployRequested then Same(r)
    else Succeed(Put(r, current.value, Touched(r.seats[current.value].(redeployRequested := true), r)))
  }

  function ClearedSeat(seat: Seat, r: Room): Seat {
    Touched(seat.(position := ORIGIN, deployed := false, ready := false, pendingTransfer := false,
                  redeployRequested := false), r)
  }

  /** The seats of a side that have asked to be deployed anew. */
  function Requesting(seats: Seats, side: Side): set<SeatId> {
    set id | id in seats && id.side == side && seats[id].redeployRequested
  }

  /** The seat to redeploy: the one named, or else the only one that asks for it. */
  ghost function RedeployTarget(r: Room, side: Side, named: Option<SeatId>): Result<SeatId, Code> {
    if named.Some? then Ok(named.value)
    else
      var asking := Requesting(r.seats, side);
      if asking == {} then Err(InvalidRedeployTarget)
      else
        var one :| one in asking;
        if asking == {one} then Ok(one) else Err(TargetRequired)
  }

  ghost function Redeploy(r: Room, commander: int, named: Option<SeatId>): Step {
    var place := SeatOf(r.seats, commander);
    if r.phase != Preparing || place.None? || place.value.kind != Commander then Refuse(r, PermissionDenied)
    else RedeployedFor(r, place.value, named)
  }

  ghost function RedeployedFor(r: Room, place: SeatId, named: Option<SeatId>): Step {
    var target := RedeployTarget(r, place.side, named);
    if target.Err? then Refuse(r, target.error)
    else if target.value !in r.seats || target.value.side != place.side || !r.seats[target.value].deployed then
      Refuse(r, InvalidRedeployTarget)
    else Redeployed(r, place, target.value)
  }

  /** The seat's deployment taken back, and with it the commander's readiness. */
  function Redeployed(r: Room, place: SeatId, target: SeatId): Step
    requires target in r.seats
  {
    var seat := r.seats[target];
    var t := Put(r, target, ClearedSeat(seat, r)).(transfers := WithoutTransfer(r.transfers, UserOf(seat)));
    Succeed(if target == place then t else CommanderUnready(t, place))
  }

  /* ------------------------------------------------------------------ the match */

  function StartMatch(r: Room): Step {
    if (r.phase != Preparing && r.phase != Paused) || !ReadinessOf(r).ready then Refuse(r, NotReady)
    else Succeed(r.(phase := Running))
  }

  function PauseMatch(r: Room): Step {
    if r.phase != Running then Refuse(r, InvalidState) else Succeed(r.(phase := Paused))
  }

  function FinishMatch(r: Room, winner: Option<Winner>): Step {
    if winner.None? then Refuse(r, InvalidResult)
    else if r.phase == Finished then
      if r.winner != winner then Refuse(r, ResultConflict) else (r, Same(r).1.(winner := r.winner))
    else
      var done := Succeed(r.(phase := Finished, winner := winner));
      (done.0, done.1.(winner := winner))
  }

  /** The unit a seat starts over with: the one it is bound to, or a new one. */
  function FreshUnit(r: Room, seat: Seat): UnitId {
    var source := SourceOf(r.bound, seat);
    if source.Some? then FromScenario(source.value.id) else Allocated(seat.seatId.side, seat.template, r.nextUnit)
  }

  function NumberAfterClearing(r: Room, seat: Seat): nat {
    if SourceOf(r.bound, seat).Some? then r.nextUnit else r.nextUnit + 1
  }

  /** The room once one seat has been given a unit that is not deployed. */
  function ClearedOne(r: Room, id: SeatId): Room
    requires id in r.seats
  {
    var seat := r.seats[id];
    Put(r, id, ClearedSeat(seat.(unitId := FreshUnit(r, seat)), r)).(nextUnit := NumberAfterClearing(r, seat))
  }

  /** Gives every seat a unit that is not deployed, numbering new units in the order given. */
  function ClearedEach(r: Room, ids: seq<SeatId>): Room
    decreases |ids|
  {
    if ids == [] then r
    else ClearedEach(if ids[0] in r.seats then ClearedOne(r, ids[0]) else r, ids[1..])
  }

  function RememberOperation(r: Room, id: string): Room {
    var m := Trimmed(Memory(r.operations[id := r.revision], r.order + [id]));
    r.(operations := m.operations, order := m.order)
  }

  /** The room sent back to its preparation, before its seats are dealt with. */
  function BackToStart(r: Room): Room { r.(phase := Preparing, winner := None, transfers := map[]) }

  function ApplyOperation(r: Room, id: string, action: Option<Action>, revision: int, o: Orders): Step {
    if Blank(id) then Refuse(r, InvalidOperation)
    else if id in r.operations then (r, Done(r).(revision := r.operations[id], duplicate := true))
    else if revision != r.revision then Refuse(r, StaleRevision)
    else if action.None? then Refuse(r, InvalidOperation)
    else Operated(r, id, action.value, o)
  }

  function Operated(r: Room, id: string, action: Action, o: Orders): Step {
    if action == RedeployRoom then Concluded(Same(ClearedEach(BackToStart(r), o.seats(r.seats.Keys))), id)
    else Reset(BackToStart(r).(seats := map[]), id, o)
  }

  /** The emptied room gets the roster of its mode. */
  function Reset(empty: Room, id: string, o: Orders): Step { Concluded(Restaffed(empty, o), id) }

  /** The operation takes effect, and is remembered, unless the roster has failed. */
  function Concluded(roster: Step, id: string): Step {
    if !roster.1.ok then roster
    else
      var done := Succeed(roster.0);
      (RememberOperation(done.0, id), done.1)
  }
}

/** The two-phase room operations of the account service. */
module RoomOperations {
  // An administrator's request is recorded as a pending operation, and only the game server's acknowledgement of that
  // operation commits the room's new status.  Every handler is one transaction; a handler that raises an error
  // commits nothing.
  import opened Options

  datatype RoomStatus = Stopped | Preparing | Running | Paused | Finished

  datatype Verb =
    | Open | Start | Resume | Finish | Stop | Pause | Reset | Redeploy | ForceStop | Unsupported(name: string)

  datatype OperationState = Pending | Acknowledged | Failed

  datatype Room = Room(status: RoomStatus, winner: string, reason: string, resolvedModel: string, configVersion: nat)

  datatype Operation = Operation(
    room: string, verb: Verb, expected: RoomStatus, state: OperationState, requestedRevision: nat,
    configVersion: nat, appliedRevision: Option<nat>, code: string, requestedAt: int, acknowledgedAt: Option<int>)

  datatype Service = Service(rooms: map<string, Room>, operations: map<string, Operation>)

  /** How the service is set up: the one room it hosts, and after how long a request has timed out. */
  datatype Setup = Setup(hosted: string, timeout: int)

  /** An administrator's request, with what the service then reads: the clock, whether the game server reports the
      room ready, the lifecycle revision it publishes (0 for none), and a random operation id. */
  datatype Request = Request(room: string, verb: Verb, now: int, ready: bool, revision: nat, token: string)

  datatype Heartbeat = Heartbeat(room: string, status: RoomStatus, winner: string, reason: string)

  datatype Ack = Ack(
    room: string, operation: string, accepted: bool, revision: nat, code: string, model: string, now: int)
  {
    function State(): OperationState { if accepted then Acknowledged else Failed }
  }

  datatype Reason =
    | NotHosted | StillPending | StatusForbids | NotReady | NoRevision | NotUnique | AlreadyOtherwise | RevisionNotAfter

  datatype Response = Done | AlreadyProcessed | OperationPending | Unprocessable | NotFound | Conflict(reason: Reason)

  /* ------------------------------------------------------------------ the tables */

  predicate IsPending(s: Service, id: string, room: string) {
    id in s.operations && s.operations[id].room == room && s.operations[id].state == Pending
  }

  /** What the database itself enforces: one pending operation a room, and no operation without its room. */
  ghost predicate Stored(s: Service) {
    && (forall id, other, room :: IsPending(s, id, room) && IsPending(s, other, room) ==> id == other)
    && (forall id :: id in s.operations ==> s.operations[id].room in s.rooms)
  }

  ghost function PendingIn(s: Service, room: string): (found: Option<string>)
    ensures found.Some? ==> IsPending(s, found.value, room)
    ensures found.None? ==> forall id :: !IsPending(s, id, room)
  {
    if exists id :: IsPending(s, id, room) then
      var id :| IsPending(s, id, room);
      Some(id)
    else None
  }

  function Expected(verb: Verb): RoomStatus
    requires !verb.Unsupported?
  {
    match verb
    case Open => Preparing
    case Start => Running
    case Resume => Running
    case Finish => Finished
    case Stop => Stopped
    case Pause => Paused
    case Reset => Preparing
    case Redeploy => Preparing
    case ForceStop => Stopped
  }

  /** The statuses from which a verb may be requested. */
  predicate Permits(status: RoomStatus, verb: Verb) {
    match verb
    case Open => status == Stopped || status == Finished
    case ForceStop => status != Stopped
    case Start => status == Preparing
    case Resume => status == Paused
    case Finish => status == Running || status == Preparing || status == Paused
    case Pause => status == Preparing || status == Running || status == Paused
    case _ => true
  }

  predicate TimedOut(operation: Operation, now: int, timeout: int) { now - operation.requestedAt >= timeout }

  /** A request that may take the place of one that is still pending. */
  predicate Supersedes(verb: Verb, pending: Operation, now: int, timeout: int) {
    verb == ForceStop || (verb == Pause && TimedOut(pending, now, timeout))
  }

  function Abandoned(s: Service, id: string, now: int): Service
    requires id in s.operations
  {
    s.(operations := s.operations[id := s.operations[id].(state := Failed, acknowledgedAt := Some(now))])
  }

  function NewOperation(room: Room, r: Request): Operation
    requires !r.verb.Unsupported?
  {
    Operation(r.room, r.verb, Expected(r.verb), Pending, r.revision, room.configVersion, None, "", r.now, None)
  }

  /** Why a room that has no pending operation, or whose pending one gives way, still refuses a request. */
  function Objection(room: Room, r: Request): Option<Reason> {
    if !Permits(room.status, r.verb) then Some(StatusForbids)
    else if r.verb == Start && !r.ready then Some(NotReady)
    else if (r.verb == Reset || r.verb == Redeploy) && r.revision == 0 then Some(NoRevision)
    else None
  }

  /** Inserting an operation fails when its id is taken, or when its room has a pending operation already. */
  ghost predicate Insertable(s: Service, token: string, room: string) {
    token !in s.operations && PendingIn(s, room).None?
  }

  ghost function Requested(s: Service, setup: Setup, r: Request): (Service, Response) {
    if r.verb.Unsupported? then (s, Unprocessable)
    else if r.room != setup.hosted then (s, Conflict(NotHosted))
    else if r.room !in s.rooms then (s, NotFound)
    else
      var pending := PendingIn(s, r.room);
      if pending.Some? && !Supersedes(r.verb, s.operations[pending.value], r.now, setup.timeout) then
        (s, Conflict(StillPending))
      else
        var cleared := if pending.Some? then Abandoned(s, pending.value, r.now) else s;
        var objection := Objection(s.rooms[r.room], r);
        if objection.Some? then (s, Conflict(objection.value))
        else if !Insertable(cleared, r.token, r.room) then (s, Conflict(NotUnique))
        else (cleared.(operations := cleared.operations[r.token := NewOperation(s.rooms[r.room], r)]), Done)
  }

  ghost function Observed(s: Service, h: Heartbeat): (Service, Response) {
    if h.room !in s.rooms then (s, NotFound)
    else if PendingIn(s, h.room).Some? then (s, OperationPending)
    else
      var winner := if h.status == Finished then h.winner else "";
      var room := s.rooms[h.room].(status := h.status, winner := winner, reason := h.reason);
      (s.(rooms := s.rooms[h.room := room]), Done)
  }

  const CHECK_FAILED := "room configuration check failed"

  /** What an acknowledgement does to the room: a success commits the expected status, and a failed opening leaves
      the room stopped. */
  function Settled(room: Room, operation: Operation, a: Ack): Room {
    if a.accepted then room.(status := operation.expected, winner := "", reason := "", resolvedModel := a.model)
    else if operation.verb == Open then
      var reason := if a.code == "" then CHECK_FAILED else a.code;
      room.(status := Stopped, winner := "", resolvedModel := "", reason := reason)
    else room
  }

  function Closed(operation: Operation, a: Ack): Operation {
    operation.(state := a.State(), appliedRevision := Some(a.revision), code := a.code, acknowledgedAt := Some(a.now))
  }

  predicate SameResult(operation: Operation, a: Ack) {
    operation.state == a.State() && operation.appliedRevision.GetOr(0) == a.revision && operation.code == a.code
  }

  function Answered(s: Service, a: Ack): (Service, Response)
    requires forall id :: id in s.operations ==> s.operations[id].room in s.rooms
  {
    if a.operation !in s.operations || s.operations[a.operation].room != a.room then (s, NotFound)
    else
      var operation := s.operations[a.operation];
      if operation.state != Pending then
        (s, if SameResult(operation, a) then AlreadyProcessed else Conflict(AlreadyOtherwise))
      else if a.accepted && a.revision <= operation.requestedRevision then (s, Conflict(RevisionNotAfter))
      else (Service(s.rooms[a.room := Settled(s.rooms[a.room], operation, a)],
                    s.operations[a.operation := Closed(operation, a)]), Done)
  }

  /** A change of a room's configuration: it may name another model and version, but leaves the lifecycle alone. */
  function Configured(s: Service, room: string, model: string, version: nat): Service {
    if room !in s.rooms then s
    else s.(rooms := s.rooms[room := s.rooms[room].(resolvedModel := model, configVersion := version)])
  }

  /* ------------------------------------------------------------------ what every handler keeps */

  /** A pending operation was legal when it was requested, and still is. */
  predicate Legal(s: Service, id: string)
    requires id in s.operations && s.operations[id].room in s.rooms
  {
    var o := s.operations[id];
    && !o.verb.Unsupported? && o.expected == Expected(o.verb)
    && (o.state == Pending ==> Permits(s.rooms[o.room].status, o.verb))
    && (o.state == Acknowledged && o.appliedRevision.Some? ==> o.appliedRevision.value > o.requestedRevision)
  }

  ghost predicate Safe(s: Service) {
    Stored(s) && forall id :: id in s.operations ==> Legal(s, id)
  }

  datatype Event =
    | Ask(request: Request)
    | Beat(heartbeat: Heartbeat)
    | Reply(ack: Ack)
    | Configure(room: string, model: string, version: nat)

  ghost function Next(s: Service, setup: Setup, e: Event): (Service, Response)
    requires Stored(s)
  {
    match e
    case Ask(r) => Requested(s, setup, r)
    case Beat(h) => Observed(s, h)
    case Reply(a) => Answered(s, a)
    case Configure(room, model, version) => (Configured(s, room, model, version), Done)
  }

  lemma AskIsSafe(s: Service, setup: Setup, r: Request)
    requires Safe(s)
    ensures Safe(Requested(s, setup, r).0)
  {
    var t := Requested(s, setup, r).0;
    if t != s {
      forall id | id in t.operations && id != r.token
        ensures id in s.operations && t.operations[id].room == s.operations[id].room && Legal(t, id)
      {
        assert Legal(s, id);
      }
      forall id, other, room | IsPending(t, id, room) && IsPending(t, other, room) ensures id == other {
        if id != r.token { assert IsPending(s, id, room); }
        if other != r.token { assert IsPending(s, other, room); }
      }
    }
  }

  /** The uniqueness check at the insertion can fail only because the random id is taken, never because the room has
      a pending operation. */
  lemma OnlyATakenIdClashes(s: Service, setup: Setup, r: Request)
    requires Stored(s) && Requested(s, setup, r).1 == Conflict(NotUnique)
    ensures r.token in s.operations
  {
    var pending := PendingIn(s, r.room);
    if pending.Some? {
      var cleared := Abandoned(s, pending.value, r.now);
      forall id ensures !IsPending(cleared, id, r.room) {
        if IsPending(cleared, id, r.room) { assert IsPending(s, id, r.room); }
      }
    }
  }

  lemma BeatIsSafe(s: Service, h: Heartbeat)
    requires Safe(s)
    ensures Safe(Observed(s, h).0)
  {
    var t := Observed(s, h).0;
    forall id, other, room | IsPending(t, id, room) && IsPending(t, other, room) ensures id == other {
      assert IsPending(s, id, room) && IsPending(s, other, room);
    }
    forall id | id in t.operations ensures Legal(t, id) {
      assert Legal(s, id);
      if t != s { assert !IsPending(s, id, h.room); }
    }
  }

  lemma ReplyIsSafe(s: Service, a: Ack)
    requires Safe(s)
    ensures Safe(Answered(s, a).0)
  {
    var t := Answered(s, a).0;
    forall id, other, room | IsPending(t, id, room) && IsPending(t, other, room) ensures id == other {
      assert IsPending(s, id, room) && IsPending(s, other, room);
    }
    forall id | id in t.operations ensures t.operations[id].room in t.rooms && Legal(t, id) {
      assert Legal(s, id);
      if t != s && IsPending(s, id, a.room) { assert IsPending(s, a.operation, a.room); }
    }
  }

  lemma ConfigureIsSafe(s: Service, room: string, model: string, version: nat)
    requires Safe(s)
    ensures Safe(Configured(s, room, model, version))
  {
    var t := Configured(s, room, model, version);
    forall id, other, r | IsPending(t, id, r) && IsPending(t, other, r) ensures id == other {
      assert IsPending(s, id, r) && IsPending(s, other, r);
    }
    forall id | id in t.operations ensures Legal(t, id) { assert Legal(s, id); }
  }

  lemma EveryHandlerIsSafe(s: Service, setup: Setup, e: Event)
    requires Safe(s)
    ensures Safe(Next(s, setup, e).0)
  {
    match e
    case Ask(r) => AskIsSafe(s, setup, r);
    case Beat(h) => BeatIsSafe(s, h);
    case Reply(a) => ReplyIsSafe(s, a);
    case Configure(room, model, version) => ConfigureIsSafe(s, room, model, version);
  }

  /* ------------------------------------------------------------------ runs */

  ghost predicate StepAt(states: seq<Service>, setup: Setup, events: seq<Event>, k: nat)
    requires k < |events| && |states| == |events| + 1
  {
    Safe(states[k]) && states[k + 1] == Next(states[k], setup, events[k]).0
  }

  /** Requests, heartbeats, acknowledgements and changes of configuration in any order, with any repetition or delay. */
  ghost predicate Run(states: seq<Service>, setup: Setup, events: seq<Event>) {
    && |states| == |events| + 1 && Safe(states[0])
    && forall k :: 0 <= k < |events| ==> Follows(states, setup, events, k)
  }

  ghost predicate Follows(states: seq<Service>, setup: Setup, events: seq<Event>, k: nat)
    requires k < |events| && |states| == |events| + 1
  {
    Safe(states[k]) ==> states[k + 1] == Next(states[k], setup, events[k]).0
  }

  /** At every point of every run each room has at most one pending operation, and that operation is still legal. */
  lemma {:induction false} RunIsSafe(states: seq<Service>, setup: Setup, events: seq<Event>, n: nat)
    requires Run(states, setup, events) && n < |states|
    ensures Safe(states[n])
    ensures n < |events| ==> StepAt(states, setup, events, n)
  {
    if n > 0 {
      RunIsSafe(states, setup, events, n - 1);
      EveryHandlerIsSafe(states[n - 1], setup, events[n - 1]);
    }
    if n < |events| { assert Follows(states, setup, events, n); }
  }

  predicate IsFinished(s: Service, id: string) { id in s.operations && s.operations[id].state != Pending }

  lemma FinishedStaysOneStep(s: Service, setup: Setup, e: Event, id: string)
    requires Safe(s) && IsFinished(s, id)
    ensures id in Next(s, setup, e).0.operations && Next(s, setup, e).0.operations[id] == s.operations[id]
  {
  }

  /** Once acknowledged, failed or superseded, an operation never changes again. */
  lemma {:induction false} FinishedOperationsStayPut(states: seq<Service>, setup: Setup, events: seq<Event>,
                                                     i: nat, j: nat, id: string)
    requires Run(states, setup, events) && i <= j < |states| && IsFinished(states[i], id)
    ensures IsFinished(states[j], id) && states[j].operations[id] == states[i].operations[id]
    decreases j - i
  {
    if i < j {
      FinishedOperationsStayPut(states, setup, events, i, j - 1, id);
      RunIsSafe(states, setup, events, j - 1);
      FinishedStaysOneStep(states[j - 1], setup, events[j - 1], id);
    }
  }

  /** The acknowledgement settles its operation and, with it, its room. */
  predicate Settles(s: Service, a: Ack)
    requires forall id :: id in s.operations ==> s.operations[id].room in s.rooms
  {
    Answered(s, a).1 == Done
  }

  predicate SameAnswer(a: Ack, b: Ack) { a.accepted == b.accepted && a.revision == b.revision && a.code == b.code }

  /** After an operation has been settled, no acknowledgement of it changes anything any more: one with the same result
      is recognised as processed already, and every other is refused. */
  lemma LaterAcknowledgementsChangeNothing(states: seq<Service>, setup: Setup, events: seq<Event>, i: nat, j: nat)
    requires Run(states, setup, events) && i < j < |events| && events[i].Reply? && events[j].Reply?
    requires Safe(states[i]) && Settles(states[i], events[i].ack)
    requires events[j].ack.operation == events[i].ack.operation && events[j].ack.room == events[i].ack.room
    ensures Safe(states[j])
    ensures Answered(states[j], events[j].ack).0 == states[j]
    ensures Answered(states[j], events[j].ack).1
         == if SameAnswer(events[i].ack, events[j].ack) then AlreadyProcessed else Conflict(AlreadyOtherwise)
  {
    var a := events[i].ack;
    RunIsSafe(states, setup, events, i);
    RunIsSafe(states, setup, events, j);
    assert IsFinished(states[i + 1], a.operation);
    FinishedOperationsStayPut(states, setup, events, i + 1, j, a.operation);
  }

  /** So an operation is settled at most once in a run, and never after it has been superseded. */
  lemma OperationsSettleAtMostOnce(states: seq<Service>, setup: Setup, events: seq<Event>, i: nat, j: nat, id: string)
    requires Run(states, setup, events) && i <= j < |events| && IsFinished(states[i], id)
    requires events[j].Reply? && events[j].ack.operation == id
    ensures Safe(states[j]) && !Settles(states[j], events[j].ack)
  {
    RunIsSafe(states, setup, events, j);
    FinishedOperationsStayPut(states, setup, events, i, j, id);
  }

  /* ------------------------------------------------------------------ the room's status */

  /** What players see of the lifecycle. */
  datatype Lifecycle = Lifecycle(status: RoomStatus, winner: string, reason: string)

  function LifecycleOf(s: Service, room: string): Lifecycle
    requires room in s.rooms
  {
    Lifecycle(s.rooms[room].status, s.rooms[room].winner, s.rooms[room].reason)
  }

  /** The event settles the room's own pending operation, and leaves the room as that demands. */
  predicate Commits(s: Service, t: Service, e: Event, room: string)
    requires room in t.rooms && forall id :: id in s.operations ==> s.operations[id].room in s.rooms
  {
    && e.Reply? && e.ack.room == room && IsPending(s, e.ack.operation, room) && Settles(s, e.ack)
    && IsFinished(t, e.ack.operation)
    && var o := s.operations[e.ack.operation];
       if e.ack.accepted then LifecycleOf(t, room) == Lifecycle(o.expected, "", "")
       else o.verb == Open && t.rooms[room].status == Stopped
  }

  /** The event is a heartbeat that finds nothing pending in the room. */
  ghost predicate Reports(s: Service, t: Service, e: Event, room: string)
    requires room in t.rooms
  {
    e.Beat? && e.heartbeat.room == room && PendingIn(s, room).None? && t.rooms[room].status == e.heartbeat.status
  }

  /** A room's lifecycle changes only through the acknowledgement that settles its own pending operation, or through a
      heartbeat while nothing is pending there. */
  lemma OnlyTheOwnAcknowledgementCommits(s: Service, setup: Setup, e: Event, room: string)
    requires Safe(s) && room in s.rooms
    ensures room in Next(s, setup, e).0.rooms
    ensures var t := Next(s, setup, e).0;
            LifecycleOf(t, room) == LifecycleOf(s, room) || Commits(s, t, e, room) || Reports(s, t, e, room)
  {
  }

  lemma PendingFreezesOneStep(s: Service, setup: Setup, e: Event, id: string, room: string)
    requires Safe(s) && room in s.rooms && IsPending(s, id, room) && IsPending(Next(s, setup, e).0, id, room)
    ensures room in Next(s, setup, e).0.rooms && LifecycleOf(Next(s, setup, e).0, room) == LifecycleOf(s, room)
  {
    OnlyTheOwnAcknowledgementCommits(s, setup, e, room);
    if e.Reply? && IsPending(s, e.ack.operation, room) { assert e.ack.operation == id; }
  }

  /** From the moment an operation is recorded until it is settled or superseded, its room's lifecycle stands still. */
  lemma {:induction false} PendingOperationFreezesTheRoom(states: seq<Service>, setup: Setup, events: seq<Event>,
                                                          i: nat, j: nat, id: string, room: string)
    requires Run(states, setup, events) && i <= j < |states|
    requires IsPending(states[i], id, room) && IsPending(states[j], id, room)
    ensures room in states[i].rooms && room in states[j].rooms
    ensures LifecycleOf(states[j], room) == LifecycleOf(states[i], room)
    ensures states[j].operations[id] == states[i].operations[id]
    decreases j - i
  {
    RunIsSafe(states, setup, events, i);
    RunIsSafe(states, setup, events, j);
    if i < j {
      StillThere(states, setup, events, i, j - 1, id);
      RunIsSafe(states, setup, events, j - 1);
      if IsFinished(states[j - 1], id) { FinishedStaysOneStep(states[j - 1], setup, events[j - 1], id); }
      PendingStaysItself(states[j - 1], setup, events[j - 1], id, room);
      PendingOperationFreezesTheRoom(states, setup, events, i, j - 1, id, room);
      PendingFreezesOneStep(states[j - 1], setup, events[j - 1], id, room);
    }
  }

  lemma PendingStaysItself(s: Service, setup: Setup, e: Event, id: string, room: string)
    requires Safe(s) && id in s.operations && IsPending(Next(s, setup, e).0, id, room)
    ensures Next(s, setup, e).0.operations[id] == s.operations[id]
  {
  }

  /** No operation is ever removed. */
  lemma {:induction false} StillThere(states: seq<Service>, setup: Setup, events: seq<Event>,
                                      i: nat, j: nat, id: string)
    requires Run(states, setup, events) && i <= j < |states| && id in states[i].operations
    ensures id in states[j].operations
    decreases j - i
  {
    if i < j {
      StillThere(states, setup, events, i, j - 1, id);
      RunIsSafe(states, setup, events, j - 1);
    }
  }

  /** Whatever is committed was permitted: the status from which an operation's acknowledgement takes a room allows the
      operation's verb, and the status it commits is that verb's, at a revision after the one it was requested at. */
  lemma CommitsAreLegalTransitions(states: seq<Service>, setup: Setup, events: seq<Event>, k: nat)
    requires Run(states, setup, events) && k < |events| && events[k].Reply? && events[k].ack.accepted
    requires Safe(states[k]) && Settles(states[k], events[k].ack)
    ensures var a := events[k].ack; var o := states[k].operations[a.operation];
            && !o.verb.Unsupported? && Permits(states[k].rooms[a.room].status, o.verb)
            && a.room in states[k + 1].rooms && states[k + 1].rooms[a.room].status == Expected(o.verb)
            && a.revision > o.requestedRevision
  {
    RunIsSafe(states, setup, events, k);
    assert Legal(states[k], events[k].ack.operation);
  }

  /* ------------------------------------------------------------------ the service */

  class AccountService {
    const setup: Setup
    var rooms: map<string, Room>
    var operations: map<string, Operation>

    ghost function State(): Service
      reads this
    {
      Service(rooms, operations)
    }

    constructor (setup: Setup, rooms: map<string, Room>)
      ensures this.setup == setup && State() == Service(rooms, map[]) && Safe(State())
    {
      this.setup, this.rooms, this.operations := setup, rooms, map[];
    }

    method FindPending(room: string) returns (found: Option<string>)
      requires Stored(State())
      ensures found == PendingIn(State(), room)
    {
      var rest := operations.Keys;
      found := None;
      while rest != {} && found.None?
        invariant rest <= operations.Keys
        invariant found.Some? ==> IsPending(State(), found.value, room)
        invariant found.None? ==> forall id :: id in operations && id !in rest ==> !IsPending(State(), id, room)
        decreases |rest|, if found.None? then 1 else 0
      {
        var id :| id in rest;
        if operations[id].room == room && operations[id].state == Pending { found := Some(id); }
        rest := rest - {id};
      }
    }

    method RoomAction(r: Request) returns (response: Response)
      requires Stored(State())
      modifies this
      ensures (State(), response) == Requested(old(State()), setup, r)
    {
      if r.verb.Unsupported? { return Unprocessable; }
      if r.room != setup.hosted { return Conflict(NotHosted); }
      if r.room !in rooms { return NotFound; }
      var room := rooms[r.room];
      var table := operations;
      var pending := FindPending(r.room);
      if pending.Some? {
        var id := pending.value;
        if r.verb == ForceStop || (r.verb == Pause && r.now - table[id].requestedAt >= setup.timeout) {
          table := table[id := table[id].(state := Failed, acknowledgedAt := Some(r.now))];
        } else {
          return Conflict(StillPending);
        }
      }
      if r.verb == Open && room.status != Stopped && room.status != Finished { return Conflict(StatusForbids); }
      if r.verb == ForceStop && room.status == Stopped { return Conflict(StatusForbids); }
      if r.verb == Start && room.status != Preparing { return Conflict(StatusForbids); }
      if r.verb == Start && !r.ready { return Conflict(NotReady); }
      if r.verb == Resume && room.status != Paused { return Conflict(StatusForbids); }
      if r.verb == Finish && room.status !in {Running, Preparing, Paused} { return Conflict(StatusForbids); }
      if r.verb == Pause && room.status !in {Preparing, Running, Paused} { return Conflict(StatusForbids); }
      if (r.verb == Reset || r.verb == Redeploy) && r.revision == 0 { return Conflict(NoRevision); }
      response := Insert(table, r);
    }

    /** Adds the new operation to the table being written, and commits that table, unless an index forbids it. */
    method Insert(table: map<string, Operation>, r: Request) returns (response: Response)
      requires !r.verb.Unsupported? && r.room in rooms
      modifies `operations
      ensures var s := Service(old(rooms), table);
              if Insertable(s, r.token, r.room)
              then response == Done && operations == table[r.token := NewOperation(rooms[r.room], r)]
              else response == Conflict(NotUnique) && operations == old(operations)
    {
      if r.token in table { return Conflict(NotUnique); }
      ghost var s := Service(rooms, table);
      if exists id :: id in table && table[id].room == r.room && table[id].state == Pending {
        ghost var id :| id in table && table[id].room == r.room && table[id].state == Pending;
        assert IsPending(s, id, r.room);
        return Conflict(NotUnique);
      }
      assert PendingIn(s, r.room).None?;
      operations := table[r.token := NewOperation(rooms[r.room], r)];
      response := Done;
    }

    method RoomStatusReport(h: Heartbeat) returns (response: Response)
      requires Stored(State())
      modifies this
      ensures (State(), response) == Observed(old(State()), h)
    {
      if h.room !in rooms { return NotFound; }
      var winner := if h.status == Finished then h.winner else "";
      var pending := FindPending(h.room);
      if pending.Some? { return OperationPending; }
      rooms := rooms[h.room := rooms[h.room].(status := h.status, winner := winner, reason := h.reason)];
      response := Done;
    }

    method RoomOperationAck(a: Ack) returns (response: Response)
      requires Stored(State())
      modifies this
      ensures (State(), response) == Answered(old(State()), a)
    {
      if a.operation !in operations || operations[a.operation].room != a.room { return NotFound; }
      var operation := operations[a.operation];
      var state := if a.accepted then Acknowledged else Failed;
      if operation.state != Pending {
        if operation.state == state && operation.appliedRevision.GetOr(0) == a.revision && operation.code == a.code {
          return AlreadyProcessed;
        }
        return Conflict(AlreadyOtherwise);
      }
      if a.accepted && a.revision <= operation.requestedRevision { return Conflict(RevisionNotAfter); }
      assert operations[a.operation].room in rooms;
      var room := rooms[a.room];
      if a.accepted {
        room := room.(status := operation.expected, winner := "", reason := "", resolvedModel := a.model);
      } else if operation.verb == Open {
        var reason := if a.code == "" then CHECK_FAILED else a.code;
        room := room.(status := Stopped, winner := "", resolvedModel := "", reason := reason);
      }
      operations := operations[a.operation := operation.(state := state, appliedRevision := Some(a.revision),
                                                         code := a.code, acknowledgedAt := Some(a.now))];
      rooms := rooms[a.room := room];
      response := Done;
    }
  }
}

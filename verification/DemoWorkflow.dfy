/** The scripted demonstration workflow. */
module DemoWorkflow {
  // Seventeen actions in a fixed order with one edge back, commands guarded by a revision and a bounded memory of
  // action ids, a target script that is applied step by step as the phases go by, and a saved form that is checked
  // when it is read back.
  import opened Listings
  import opened Options

  const TRACE_LIMIT: nat := 200
  const ACTION_HISTORY_LIMIT: nat := 4096
  const REPORT_LIMIT: nat := 128
  const ARCHIVE_LIMIT: nat := 20
  const SCRIPT_BYTES: nat := 256 * 1024
  const SCHEMA_VERSION: int := 2
  const PROFILE_ID: string := "vmf-demo-v2"
  const ACTION_COUNT: nat := 17
  const PHASE_COUNT: nat := 6

  /** Where a strike that did not destroy its target sends the workflow: the identity report. */
  const BACK: nat := 5

  /** The number of actions up to and including the simulated attack. */
  const STRUCK: nat := 12

  /** A floating-point number, of which only finiteness and, then, the value matter. */
  datatype Number = Finite(value: real) | NotFinite

  datatype Seat = Recon | Commander | Attack | Ground | Automation | OtherSeat(name: string)

  datatype Action =
    | ReportTarget | PlanRoute | AcceptRoute | IssueGuidance | AcknowledgeGuidance | IdentityHello
    | IdentityConfirm | SendGuidancePackage | AcceptGuidance | ReportAttackReady | AuthorizeAttack
    | SimulateAttack | ReportBattleDamage | ConfirmDamageAssessment | ConfirmTargetDestroyed
    | Withdraw | ConfirmReturned | OtherAction(name: string)

  datatype ActionSpec = ActionSpec(action: Action, seat: Seat, phase: nat)

  datatype Status = Active | Paused | Completed | Cancelled

  /** The place of a named phase in the list of phases, or -1 for a name that is not there. */
  type PhaseIndex = i: int | -1 <= i < PHASE_COUNT

  datatype Position = Position(lat: Number, lon: Number, heading: Option<Number>)
  datatype Visibility = Visible | Hidden | OtherVisibility
  datatype TargetStatus = TargetActive | TargetDamaged | TargetDestroyed | OtherTargetStatus

  /** The state of a scripted target, or the part of it that a cue changes. */
  datatype Patch = Patch(
    position: Option<Position>, visibility: Option<Visibility>, health: Option<Number>,
    status: Option<TargetStatus>, unknown: set<string>)

  datatype ScriptedTarget = ScriptedTarget(id: string, initial: Patch)
  datatype Cue = Cue(phase: PhaseIndex, targetId: string, patch: Patch)

  /** A target script; bytes is the length of its compact text. */
  datatype Script = Script(version: int, targets: seq<ScriptedTarget>, timeline: seq<Cue>, bytes: nat)

  type TargetState = map<string, Patch>

  datatype Outcome = Destroyed | NotDestroyed
  datatype OutcomeText = NoOutcome | Given(outcome: Outcome) | OtherOutcome
  datatype DamageState = NoDamageState | StateDestroyed | StateDamaged | StateIntact | StateUnknown | OtherDamageState

  datatype Target = Target(isPosition: bool, body: string)
  datatype Route = Route(points: seq<(real, real)>, returning: bool, body: string)

  /** The id of a guidance package: given, or made from the generation's number. */
  datatype PackageId = Named(text: string) | Numbered(generation: nat)

  datatype Guidance = Guidance(packageId: Option<PackageId>, sent: bool)

  datatype Remarks = Remarks(confidence: Option<string>, evidence: Option<string>, notes: Option<string>)

  datatype Payload = Payload(
    outcome: OutcomeText, damageState: Option<DamageState>, target: Option<Target>, route: Route,
    packageId: Option<string>, remarks: Remarks, body: string)

  datatype EffectOutcome = NoEffect | EffectApplied | Confirmed(outcome: Outcome)

  datatype Effect = Effect(
    outcome: EffectOutcome, destroyed: bool, createdAt: Option<Number>, reported: bool, assessed: bool,
    confirmed: bool, damageState: Option<DamageState>, remarks: Remarks)

  datatype Task = Task(
    number: nat, generation: nat, target: Option<Target>, route: Route, guidance: Guidance,
    strikeAttempt: nat, lastOutcome: Option<Outcome>, effect: Effect)

  datatype Trace = Trace(messageId: Option<string>, traceId: Option<string>, requiresAck: bool, body: string)

  datatype StoredTrace = StoredTrace(
    trace: Trace, actionId: string, action: Action, phase: PhaseIndex, seat: Seat, createdAt: Number, automatic: bool)

  datatype Report = Report(
    generation: nat, revision: nat, task: nat, action: Action, phase: PhaseIndex, seat: Seat,
    strikeAttempt: nat, createdAt: Number, details: Payload, messageId: Option<string>, traceId: Option<string>)

  datatype ArchivedRun = ArchivedRun(generation: nat, task: nat, reports: seq<Report>, status: Status)

  datatype Entry = Entry(actionId: string, action: Action, seat: Seat, generation: nat, time: Number)

  datatype Workflow = Workflow(
    generation: nat, revision: nat, actionIndex: nat, status: Status,
    script: Script, cursor: nat, targetState: TargetState,
    task: Task, reports: seq<Report>, archive: seq<ArchivedRun>,
    cancelUntil: int, cancelledGeneration: nat,
    traces: seq<StoredTrace>, history: seq<Entry>, seen: set<string>)

  datatype Command = Command(actionId: string, expectedRevision: int, action: Action, payload: Payload)

  datatype Control =
    | Cancel(until: int) | Start | Reset | Pause | Resume | Jump(phase: PhaseIndex)
    | SetTargetScript(script: Option<Script>) | OtherControl(name: string)

  datatype Answer = Done | Duplicate | NowCancelled | Started | NowPaused

  datatype Code =
    | InvalidActionId | ActionIdConflict | RevisionMismatch | DemoPaused | DemoCancelled | DemoCompleted
    | SequenceInvalid | RoleForbidden | TraceRequired | InvalidOutcome | InvalidDamageState
    | NotCompleted | InvalidPhase | InvalidTargetScript | UnknownControl

  datatype Reply = Accepted(answer: Answer, revision: nat) | Rejected(code: Code, revision: nat)

  /* ------------------------------------------------------------------ the action table */

  function SpecAt(i: nat): ActionSpec
    requires i < ACTION_COUNT
  {
    match i
    case 0 => ActionSpec(ReportTarget, Recon, 0)
    case 1 => ActionSpec(PlanRoute, Commander, 1)
    case 2 => ActionSpec(AcceptRoute, Attack, 1)
    case 3 => ActionSpec(IssueGuidance, Commander, 2)
    case 4 => ActionSpec(AcknowledgeGuidance, Ground, 2)
    case 5 => ActionSpec(IdentityHello, Attack, 3)
    case 6 => ActionSpec(IdentityConfirm, Ground, 3)
    case 7 => ActionSpec(SendGuidancePackage, Ground, 3)
    case 8 => ActionSpec(AcceptGuidance, Attack, 3)
    case 9 => ActionSpec(ReportAttackReady, Attack, 3)
    case 10 => ActionSpec(AuthorizeAttack, Ground, 3)
    case 11 => ActionSpec(SimulateAttack, Attack, 3)
    case 12 => ActionSpec(ReportBattleDamage, Attack, 3)
    case 13 => ActionSpec(ConfirmDamageAssessment, Ground, 3)
    case 14 => ActionSpec(ConfirmTargetDestroyed, Recon, 4)
    case 15 => ActionSpec(Withdraw, Commander, 5)
    case 16 => ActionSpec(ConfirmReturned, Attack, 5)
  }

  /** The phase of the action at an index; past the last action, one more than every phase. */
  function PhaseAt(i: nat): nat {
    if i < ACTION_COUNT then SpecAt(i).phase else PHASE_COUNT
  }

  /** The first action of a phase. */
  function FirstOf(phase: nat): nat
    requires phase < PHASE_COUNT
  {
    match phase
    case 0 => 0
    case 1 => 1
    case 2 => 3
    case 3 => 5
    case 4 => 14
    case 5 => 15
  }

  /* ------------------------------------------------------------------ validation */

  predicate WordCharacter(c: char) {
    'a' <= c <= 'z' || 'A' <= c <= 'Z' || '0' <= c <= '9' || c == '_' || c == '-' || c == '.'
  }

  predicate ValidIdentifier(id: string) {
    0 < |id| <= 64 && forall i :: 0 <= i < |id| ==> WordCharacter(id[i])
  }

  predicate Within(n: Number, low: real, high: real) { n.Finite? && low <= n.value <= high }

  predicate ValidPosition(p: Position) {
    && Within(p.lat, -90.0, 90.0) && Within(p.lon, -180.0, 180.0)
    && (p.heading.Some? ==> Within(p.heading.value, 0.0, 360.0))
  }

  const EMPTY_PATCH := Patch(None, None, None, None, {})

  predicate ValidPatch(p: Patch) {
    && p != EMPTY_PATCH
    && p.unknown == {}
    && (p.position.Some? ==> ValidPosition(p.position.value))
    && (p.visibility.Some? ==> !p.visibility.value.OtherVisibility?)
    && (p.health.Some? ==> Within(p.health.value, 0.0, 100.0))
    && (p.status.Some? ==> !p.status.value.OtherTargetStatus?)
  }

  function TargetIds(targets: seq<ScriptedTarget>): set<string> { set t | t in targets :: t.id }

  predicate ValidTargets(targets: seq<ScriptedTarget>) {
    && (forall i :: 0 <= i < |targets| ==> ValidIdentifier(targets[i].id) && ValidPatch(targets[i].initial))
    && (forall i, j :: 0 <= i < j < |targets| ==> targets[i].id != targets[j].id)
  }

  predicate ValidCue(c: Cue, ids: set<string>) { c.phase >= 0 && c.targetId in ids && ValidPatch(c.patch) }

  predicate InPhaseOrder(timeline: seq<Cue>) {
    forall i, j :: 0 <= i < j < |timeline| ==> timeline[i].phase <= timeline[j].phase
  }

  predicate ValidTimeline(timeline: seq<Cue>, ids: set<string>) {
    (forall i :: 0 <= i < |timeline| ==> ValidCue(timeline[i], ids)) && InPhaseOrder(timeline)
  }

  predicate ValidScript(s: Script) {
    && s.version == 1 && ValidTargets(s.targets) && ValidTimeline(s.timeline, TargetIds(s.targets))
    && s.bytes <= SCRIPT_BYTES
  }

  const EMPTY_SCRIPT := Script(1, [], [], 40)

  /* ------------------------------------------------------------------ the target script */

  function Or<T>(new_: Option<T>, old_: Option<T>): Option<T> { if new_.Some? then new_ else old_ }

  function Merge(base: Patch, patch: Patch): Patch {
    Patch(Or(patch.position, base.position), Or(patch.visibility, base.visibility),
          Or(patch.health, base.health), Or(patch.status, base.status), base.unknown + patch.unknown)
  }

  function Cued(state: TargetState, cue: Cue): TargetState {
    state[cue.targetId := Merge(if cue.targetId in state then state[cue.targetId] else EMPTY_PATCH, cue.patch)]
  }

  function InitialState(targets: seq<ScriptedTarget>): TargetState {
    if targets == [] then map[]
    else
      var last := targets[|targets| - 1];
      InitialState(targets[..|targets| - 1])[last.id := last.initial]
  }

  /** Applies, from the cursor on, every cue up to the first whose phase is still to come. */
  function Played(timeline: seq<Cue>, cursor: nat, state: TargetState, phase: nat): (nat, TargetState)
    decreases |timeline| - cursor
  {
    if cursor >= |timeline| || timeline[cursor].phase > phase then (cursor, state)
    else Played(timeline, cursor + 1, Cued(state, timeline[cursor]), phase)
  }

  /** The cursor and target state of a workflow that starts over at the given action. */
  function Rebuilt(script: Script, actionIndex: nat): (nat, TargetState) {
    Played(script.timeline, 0, InitialState(script.targets), PhaseAt(actionIndex))
  }

  function Replayed(w: Workflow): Workflow {
    var played := Rebuilt(w.script, w.actionIndex);
    w.(cursor := played.0, targetState := played.1)
  }

  function Continued(w: Workflow): Workflow {
    var played := Played(w.script.timeline, w.cursor, w.targetState, PhaseAt(w.actionIndex));
    w.(cursor := played.0, targetState := played.1)
  }

  /* ------------------------------------------------------------------ starting over */

  const NO_ROUTE := Route([], false, "")
  const NO_REMARKS := Remarks(None, None, None)
  const NO_STRIKE := Effect(NoEffect, false, None, false, false, false, None, NO_REMARKS)

  function NewTask(generation: nat): Task {
    Task(generation, generation, None, NO_ROUTE, Guidance(None, false), 0, None, NO_STRIKE)
  }

  function Cleared(w: Workflow): Workflow { w.(task := NewTask(w.generation), reports := []) }

  function Rewound(w: Workflow): Workflow {
    w.(actionIndex := 0, status := Active, cancelUntil := 0, cancelledGeneration := 0)
  }

  function Forgotten(w: Workflow): Workflow { w.(traces := [], history := [], seen := {}) }

  function ResetOf(w: Workflow): Workflow { Replayed(Cleared(Forgotten(Rewound(w)))) }

  function Bumped(w: Workflow): Workflow {
    w.(generation := w.generation + 1, revision := w.revision + 1)
  }

  function Newest<T>(s: seq<T>, limit: nat): seq<T> { if |s| > limit then s[|s| - limit..] else s }

  function Archived(w: Workflow, status: Status): Workflow {
    w.(archive := Newest(w.archive + [ArchivedRun(w.generation, w.task.number, w.reports, status)], ARCHIVE_LIMIT))
  }

  /** A new workflow. */
  function Initial(): Workflow {
    ResetOf(Workflow(1, 1, 0, Active, EMPTY_SCRIPT, 0, map[], NewTask(1), [], [], 0, 0, [], [], {}))
  }

  /* ------------------------------------------------------------------ actions */

  const DEMO_TARGET := Target(false, "demo-target")
  const DEMO_POINTS: seq<(real, real)> := [(0.0, 0.0), (1.0, 1.0)]

  /** What the confirmation reports as the outcome. */
  function OutcomeOf(p: Payload): Outcome
    requires !p.outcome.OtherOutcome?
  {
    if p.outcome.Given? then p.outcome.outcome else Destroyed
  }

  function DamageOf(p: Payload): DamageState
    requires !p.outcome.OtherOutcome?
  {
    p.damageState.GetOr(if OutcomeOf(p) == Destroyed then StateDestroyed else StateUnknown)
  }

  function Noted(r: Remarks, new_: Remarks): Remarks {
    Remarks(Or(new_.confidence, r.confidence), Or(new_.evidence, r.evidence), Or(new_.notes, r.notes))
  }

  function ConfirmedEffect(e: Effect, p: Payload): Effect
    requires !p.outcome.OtherOutcome?
  {
    e.(confirmed := true, outcome := Confirmed(OutcomeOf(p)), destroyed := OutcomeOf(p) == Destroyed,
       damageState := Some(DamageOf(p)), remarks := Noted(e.remarks, p.remarks))
  }

  function Strike(target: Option<Target>, now: Number): Effect {
    var position := target.Some? && target.value.isPosition;
    Effect(if position then EffectApplied else Confirmed(Destroyed), !position, Some(now),
           false, false, false, None, NO_REMARKS)
  }

  /** What an action that passed every check writes into the task. */
  function Worked(task: Task, action: Action, p: Payload, generation: nat, now: Number): Task
    requires action == ConfirmTargetDestroyed ==> !p.outcome.OtherOutcome?
  {
    match action
    case ReportTarget =>
      task.(target := if p.target.Some? then p.target else Some(DEMO_TARGET), generation := generation)
    case PlanRoute => task.(route := if |p.route.points| < 2 then Route(DEMO_POINTS, false, "") else p.route)
    case SendGuidancePackage =>
      var id := if p.packageId.Some? then Named(p.packageId.value) else Numbered(generation);
      task.(guidance := Guidance(Some(id), true))
    case SimulateAttack => task.(strikeAttempt := task.strikeAttempt + 1, effect := Strike(task.target, now))
    case ReportBattleDamage => task.(effect := task.effect.(reported := true))
    case ConfirmDamageAssessment => task.(effect := task.effect.(assessed := true))
    case ConfirmTargetDestroyed =>
      task.(effect := ConfirmedEffect(task.effect, p), lastOutcome := Some(OutcomeOf(p)))
    case Withdraw => task.(route := task.route.(returning := true))
    case _ => task
  }

  /** Why a command that is not remembered is refused, if it is. */
  function Refusal(w: Workflow, c: Command, seat: Seat, trace: Option<Trace>): Option<Code> {
    if c.expectedRevision != w.revision then Some(RevisionMismatch)
    else if w.status == Paused then Some(DemoPaused)
    else if w.status == Cancelled then Some(DemoCancelled)
    else if w.status == Completed || w.actionIndex >= ACTION_COUNT then Some(DemoCompleted)
    else if c.action != SpecAt(w.actionIndex).action then Some(SequenceInvalid)
    else if seat != SpecAt(w.actionIndex).seat && seat != Automation then Some(RoleForbidden)
    else if trace.None? then Some(TraceRequired)
    else if c.action == ConfirmTargetDestroyed && c.payload.outcome.OtherOutcome? then Some(InvalidOutcome)
    else if c.action == ConfirmTargetDestroyed && DamageOf(c.payload) == OtherDamageState then Some(InvalidDamageState)
    else None
  }

  /** The answer to a command whose id is remembered, from the newest entry under that id. */
  function DuplicateReply(history: seq<Entry>, c: Command, seat: Seat, revision: nat): Reply {
    if history == [] then Rejected(ActionIdConflict, revision)
    else
      var entry := history[|history| - 1];
      if entry.actionId != c.actionId then DuplicateReply(history[..|history| - 1], c, seat, revision)
      else if entry.action != c.action || entry.seat != seat then Rejected(ActionIdConflict, revision)
      else Accepted(Duplicate, revision)
  }

  function ReportOf(w: Workflow, c: Command, seat: Seat, trace: Trace, now: Number): Report
    requires w.actionIndex < ACTION_COUNT
  {
    Report(w.generation, w.revision, w.task.number, c.action, SpecAt(w.actionIndex).phase, seat,
           w.task.strikeAttempt, now, c.payload, trace.messageId, trace.traceId)
  }

  function TraceOf(w: Workflow, c: Command, seat: Seat, trace: Trace, now: Number): StoredTrace
    requires w.actionIndex < ACTION_COUNT
  {
    StoredTrace(trace, c.actionId, c.action, SpecAt(w.actionIndex).phase, seat, now, seat == Automation)
  }

  /** Drops the oldest entries, and forgets their ids, until the history is within its limit. */
  function Forgetting(history: seq<Entry>, seen: set<string>): (seq<Entry>, set<string>)
    decreases |history|
  {
    if |history| > ACTION_HISTORY_LIMIT then Forgetting(history[1..], seen - {history[0].actionId})
    else (history, seen)
  }

  function WorkDone(w: Workflow, c: Command, now: Number): Workflow
    requires c.action == ConfirmTargetDestroyed ==> !c.payload.outcome.OtherOutcome?
  {
    w.(task := Worked(w.task, c.action, c.payload, w.generation, now))
  }

  function Logged(w: Workflow, c: Command, seat: Seat, trace: Trace, now: Number): Workflow
    requires w.actionIndex < ACTION_COUNT
  {
    var memory := Forgetting(w.history + [Entry(c.actionId, c.action, seat, w.generation, now)], w.seen + {c.actionId});
    w.(reports := Newest(w.reports + [ReportOf(w, c, seat, trace, now)], REPORT_LIMIT),
       traces := Newest(w.traces + [TraceOf(w, c, seat, trace, now)], TRACE_LIMIT),
       history := memory.0, seen := memory.1)
  }

  /** Everything an accepted command does and records, before the workflow moves on. */
  function Recorded(w: Workflow, c: Command, seat: Seat, trace: Trace, now: Number): Workflow
    requires w.actionIndex < ACTION_COUNT
    requires c.action == ConfirmTargetDestroyed ==> !c.payload.outcome.OtherOutcome?
  {
    Logged(WorkDone(w, c, now), c, seat, trace, now)
  }

  /** The command sends the workflow back to the identity report. */
  predicate GoesBack(c: Command) {
    c.action == ConfirmTargetDestroyed && c.payload.outcome == Given(NotDestroyed)
  }

  function Moved(w: Workflow, back: bool): Workflow {
    var next := if back then Replayed(w.(actionIndex := BACK)) else w.(actionIndex := w.actionIndex + 1);
    Continued(next.(revision := w.revision + 1,
                    status := if next.actionIndex < ACTION_COUNT then Active else Completed))
  }

  function ActionResult(w: Workflow, c: Command, seat: Seat, trace: Option<Trace>, now: Number): (Workflow, Reply) {
    if !ValidIdentifier(c.actionId) then (w, Rejected(InvalidActionId, w.revision))
    else if c.actionId in w.seen then (w, DuplicateReply(w.history, c, seat, w.revision))
    else
      var refusal := Refusal(w, c, seat, trace);
      if refusal.Some? then (w, Rejected(refusal.value, w.revision))
      else
        var done := Moved(Recorded(w, c, seat, trace.value, now), GoesBack(c));
        (done, Accepted(Done, done.revision))
  }

  /* ------------------------------------------------------------------ controls */

  function CancelledUntil(w: Workflow, until: int, clock: int): Workflow {
    w.(status := Cancelled, cancelledGeneration := w.generation,
       cancelUntil := if until <= 0 then clock + 3000 else until, revision := w.revision + 1)
  }

  function Jumped(w: Workflow, phase: nat): Workflow
    requires phase < PHASE_COUNT
  {
    Replayed(Bumped(w.(actionIndex := FirstOf(phase), status := Active)))
  }

  function Answered(w: Workflow, answer: Answer): (Workflow, Reply) { (w, Accepted(answer, w.revision)) }

  function Refused(w: Workflow, code: Code): (Workflow, Reply) { (w, Rejected(code, w.revision)) }

  function ControlResult(w: Workflow, control: Control, clock: int): (Workflow, Reply) {
    match control
    case Cancel(until) =>
      if w.status == Completed then Refused(w, DemoCompleted)
      else Answered(CancelledUntil(w, until, clock), NowCancelled)
    case Start =>
      if w.status != Completed then Refused(w, NotCompleted)
      else Answered(ResetOf(Bumped(Archived(w, Completed))), Started)
    case Reset => Answered(ResetOf(Bumped(w)), Done)
    case Pause =>
      Answered(w.(status := if w.status == Completed then Completed else Paused, revision := w.revision + 1), NowPaused)
    case Resume =>
      Answered(w.(status := if w.status == Paused then Active else w.status, revision := w.revision + 1), Done)
    case Jump(phase) =>
      if phase < 0 then Refused(w, InvalidPhase) else Answered(Jumped(w, phase), Done)
    case SetTargetScript(script) =>
      if script.Some? && !ValidScript(script.value) then Refused(w, InvalidTargetScript)
      else Answered(ResetOf(Bumped(w.(script := script.GetOr(EMPTY_SCRIPT)))), Done)
    case OtherControl(_) => Refused(w, UnknownControl)
  }

  predicate CancellationOver(w: Workflow, clock: int) {
    w.status == Cancelled && 0 < w.cancelUntil <= clock
  }

  function CancellationResult(w: Workflow, clock: int): Workflow {
    if CancellationOver(w, clock) then ResetOf(Bumped(Archived(w, Cancelled))) else w
  }

  /* ------------------------------------------------------------------ saving and restoring */

  datatype Saved = Saved(
    schemaVersion: int, profile: string, generation: int, revision: int, actionIndex: int,
    status: Option<Status>, script: Script, cursor: int, targetState: Option<TargetState>,
    task: Option<Task>, reports: seq<Report>, archive: seq<ArchivedRun>, cancelUntil: int,
    cancelledGeneration: nat, traces: seq<StoredTrace>, history: seq<Entry>, seen: seq<string>)

  datatype Flaw =
    | BadHeader | BadScript | BadContent | BadArchive | BadSeen | BadHistory | SeenMismatch | StateMismatch | BadTraces

  /** The saved form; ids is the order in which the remembered ids are written. */
  function Save(w: Workflow, ids: seq<string>): Saved {
    Saved(SCHEMA_VERSION, PROFILE_ID, w.generation, w.revision, w.actionIndex, Some(w.status), w.script, w.cursor,
          Some(w.targetState), Some(w.task), w.reports, w.archive, w.cancelUntil, w.cancelledGeneration,
          w.traces, w.history, ids)
  }

  predicate HeaderOk(s: Saved) {
    && s.schemaVersion == SCHEMA_VERSION && s.profile == PROFILE_ID
    && s.generation > 0 && s.revision > 0 && 0 <= s.actionIndex <= ACTION_COUNT
    && s.status.Some? && (s.status == Some(Completed) ==> s.actionIndex == ACTION_COUNT)
  }

  predicate ContentOk(s: Saved) {
    && |s.traces| <= TRACE_LIMIT && |s.history| <= ACTION_HISTORY_LIMIT && |s.seen| <= ACTION_HISTORY_LIMIT
    && 0 <= s.cursor <= |s.script.timeline| && s.targetState.Some?
  }

  predicate ArchiveOk(archive: seq<ArchivedRun>) {
    forall i :: 0 <= i < |archive| ==> |archive[i].reports| <= REPORT_LIMIT
  }

  ghost predicate SeenOk(seen: seq<string>) {
    NoRepeats(seen) && forall i :: 0 <= i < |seen| ==> ValidIdentifier(seen[i])
  }

  predicate KnownAction(a: Action) { !a.OtherAction? }

  predicate KnownSeat(s: Seat) { !s.OtherSeat? }

  predicate KnownEntry(e: Entry) { ValidIdentifier(e.actionId) && KnownAction(e.action) && KnownSeat(e.seat) }

  function Id(e: Entry): string { e.actionId }

  function Ids(history: seq<Entry>): set<string> { set e | e in history :: Id(e) }

  ghost predicate OnceEach(history: seq<Entry>) {
    forall i, j :: 0 <= i < j < |history| ==> Id(history[i]) != Id(history[j])
  }

  predicate AllKnown(history: seq<Entry>) { forall i :: 0 <= i < |history| ==> KnownEntry(history[i]) }

  predicate FiniteHistory(history: seq<Entry>) { forall i :: 0 <= i < |history| ==> history[i].time.Finite? }

  ghost predicate HistoryOk(history: seq<Entry>) {
    OnceEach(history) && AllKnown(history) && FiniteHistory(history)
  }

  predicate KnownTrace(t: StoredTrace) {
    ValidIdentifier(t.actionId) && t.action != OtherAction("") && t.phase >= 0
  }

  predicate TracesOk(traces: seq<StoredTrace>) {
    && (forall i :: 0 <= i < |traces| ==> KnownTrace(traces[i]))
    && (forall i :: 0 <= i < |traces| ==> traces[i].createdAt.Finite?)
  }

  predicate StateOk(s: Saved)
    requires 0 <= s.actionIndex && 0 <= s.cursor && s.targetState.Some?
  {
    (s.cursor as nat, s.targetState.value) == Rebuilt(s.script, s.actionIndex)
  }

  function Loaded(s: Saved): Workflow
    requires HeaderOk(s) && ContentOk(s)
  {
    Workflow(s.generation, s.revision, s.actionIndex, s.status.value, s.script, s.cursor, s.targetState.value,
             s.task.GetOr(NewTask(s.generation)), s.reports, s.archive, s.cancelUntil, s.cancelledGeneration,
             s.traces, s.history, Elements(s.seen))
  }

  ghost function Restored(s: Saved): Result<Workflow, Flaw> {
    if !HeaderOk(s) then Err(BadHeader)
    else if !ValidScript(s.script) then Err(BadScript)
    else if !ContentOk(s) then Err(BadContent)
    else if !ArchiveOk(s.archive) then Err(BadArchive)
    else if !SeenOk(s.seen) then Err(BadSeen)
    else if !HistoryOk(s.history) then Err(BadHistory)
    else if Ids(s.history) != Elements(s.seen) then Err(SeenMismatch)
    else if !StateOk(s) then Err(StateMismatch)
    else if !TracesOk(s.traces) then Err(BadTraces)
    else Ok(Loaded(s))
  }

  /* ------------------------------------------------------------------ the script against a recomputation */

  /** How many cues a recomputation applies: the longest prefix whose phases have all come. */
  function CuesDue(timeline: seq<Cue>, phase: nat, from: nat): (n: nat)
    requires from <= |timeline|
    ensures from <= n <= |timeline|
    ensures forall i :: from <= i < n ==> timeline[i].phase <= phase
    ensures n < |timeline| ==> timeline[n].phase > phase
    decreases |timeline| - from
  {
    if from == |timeline| || timeline[from].phase > phase then from else CuesDue(timeline, phase, from + 1)
  }

  /** The target state once the first n cues have been applied to the initial state. */
  function StateAfter(script: Script, n: nat): TargetState
    requires n <= |script.timeline|
  {
    if n == 0 then InitialState(script.targets) else Cued(StateAfter(script, n - 1), script.timeline[n - 1])
  }

  lemma {:induction false} PlayedFrom(script: Script, cursor: nat, phase: nat)
    requires cursor <= |script.timeline|
    ensures var n := CuesDue(script.timeline, phase, cursor);
            Played(script.timeline, cursor, StateAfter(script, cursor), phase) == (n, StateAfter(script, n))
    decreases |script.timeline| - cursor
  {
    if cursor < |script.timeline| && script.timeline[cursor].phase <= phase {
      PlayedFrom(script, cursor + 1, phase);
    }
  }

  lemma {:induction false} CuesDueLater(timeline: seq<Cue>, early: nat, late: nat, from: nat)
    requires early <= late && from <= |timeline|
    ensures CuesDue(timeline, late, CuesDue(timeline, early, from)) == CuesDue(timeline, late, from)
    decreases |timeline| - from
  {
    if from < |timeline| && timeline[from].phase <= early { CuesDueLater(timeline, early, late, from + 1); }
  }

  lemma PhasesAscend(i: nat, j: nat)
    requires i <= j
    ensures PhaseAt(i) <= PhaseAt(j)
  {
  }

  /** The cursor and target state are what a recomputation from the initial targets gives. */
  predicate InStep(w: Workflow) { (w.cursor, w.targetState) == Rebuilt(w.script, w.actionIndex) }

  lemma ReplayedIsInStep(w: Workflow)
    ensures InStep(Replayed(w))
  {
  }

  /** Going on from where the script stood gives what starting it over would have given. */
  lemma ContinuingIsReplaying(w: Workflow, next: Workflow)
    requires InStep(w) && w.actionIndex <= next.actionIndex
    requires next.script == w.script && next.cursor == w.cursor && next.targetState == w.targetState
    ensures Continued(next) == Replayed(next) && InStep(Continued(next))
  {
    var t, early, late := w.script.timeline, PhaseAt(w.actionIndex), PhaseAt(next.actionIndex);
    PlayedFrom(w.script, 0, early);
    PlayedFrom(w.script, 0, late);
    PlayedFrom(w.script, CuesDue(t, early, 0), late);
    PhasesAscend(w.actionIndex, next.actionIndex);
    CuesDueLater(t, early, late, 0);
  }

  /** With a valid script, the applied cues are exactly those whose phase has come. */
  lemma ExactlyTheDueCuesAreApplied(w: Workflow, k: nat)
    requires InStep(w) && ValidScript(w.script) && k < |w.script.timeline|
    ensures w.cursor <= |w.script.timeline| && w.targetState == StateAfter(w.script, w.cursor)
    ensures k < w.cursor <==> w.script.timeline[k].phase <= PhaseAt(w.actionIndex)
  {
    PlayedFrom(w.script, 0, PhaseAt(w.actionIndex));
  }

  /* ------------------------------------------------------------------ what every call keeps */

  datatype Event =
    | Act(command: Command, seat: Seat, trace: Option<Trace>, now: Number)
    | Direct(control: Control, clock: int)
    | Tick(clock: int)

  function After(w: Workflow, e: Event): Workflow {
    match e
    case Act(command, seat, trace, now) => ActionResult(w, command, seat, trace, now).0
    case Direct(control, clock) => ControlResult(w, control, clock).0
    case Tick(clock) => CancellationResult(w, clock)
  }

  /** The command passes every check and is carried out. */
  predicate Applies(w: Workflow, c: Command, seat: Seat, trace: Option<Trace>) {
    ValidIdentifier(c.actionId) && c.actionId !in w.seen && Refusal(w, c, seat, trace).None?
  }

  /** The call is accepted, and not merely recognised as a repetition. */
  predicate TakesEffect(w: Workflow, e: Event) {
    match e
    case Act(command, seat, trace, now) => Applies(w, command, seat, trace)
    case Direct(control, clock) => ControlResult(w, control, clock).1.Accepted?
    case Tick(clock) => CancellationOver(w, clock)
  }

  predicate Headed(w: Workflow) {
    && w.generation > 0 && w.revision > 0 && w.actionIndex <= ACTION_COUNT
    && (w.status == Completed <==> w.actionIndex == ACTION_COUNT)
  }

  ghost predicate Memory(history: seq<Entry>, seen: set<string>) {
    |history| <= ACTION_HISTORY_LIMIT && OnceEach(history) && seen == Ids(history) && AllKnown(history)
  }

  ghost predicate Remembers(w: Workflow) { Memory(w.history, w.seen) }

  predicate Bounded(w: Workflow) {
    && |w.traces| <= TRACE_LIMIT && |w.reports| <= REPORT_LIMIT && |w.archive| <= ARCHIVE_LIMIT
    && ArchiveOk(w.archive)
    && (forall i :: 0 <= i < |w.traces| ==> KnownTrace(w.traces[i]))
  }

  /** What holds of every workflow the calls can bring about. */
  ghost predicate Sound(w: Workflow) {
    Headed(w) && ValidScript(w.script) && InStep(w) && Remembers(w) && Bounded(w)
  }

  predicate FiniteTimes(w: Workflow) {
    FiniteHistory(w.history) && forall i :: 0 <= i < |w.traces| ==> w.traces[i].createdAt.Finite?
  }

  predicate AtFiniteTime(e: Event) { e.Act? ==> e.now.Finite? }

  lemma InitialIsSound()
    ensures Sound(Initial()) && FiniteTimes(Initial())
  {
    assert Ids(Initial().history) == {};
  }

  lemma ResetIsSound(w: Workflow)
    requires w.generation > 0 && w.revision > 0 && ValidScript(w.script)
    requires |w.archive| <= ARCHIVE_LIMIT && ArchiveOk(w.archive)
    ensures Sound(ResetOf(w)) && FiniteTimes(ResetOf(w))
  {
    assert Ids(ResetOf(w).history) == {};
  }

  lemma ArchivingIsBounded(w: Workflow, status: Status)
    requires Bounded(w)
    ensures |Archived(w, status).archive| <= ARCHIVE_LIMIT && ArchiveOk(Archived(w, status).archive)
  {
  }

  lemma ControlIsSound(w: Workflow, control: Control, clock: int)
    requires Sound(w)
    ensures Sound(ControlResult(w, control, clock).0)
    ensures FiniteTimes(w) ==> FiniteTimes(ControlResult(w, control, clock).0)
  {
    match control
    case Start =>
      ArchivingIsBounded(w, Completed);
      ResetIsSound(Bumped(Archived(w, Completed)));
    case Reset => ResetIsSound(Bumped(w));
    case SetTargetScript(script) =>
      if script.None? || ValidScript(script.value) { ResetIsSound(Bumped(w.(script := script.GetOr(EMPTY_SCRIPT)))); }
    case Jump(phase) => if phase >= 0 { ReplayedIsInStep(Bumped(w.(actionIndex := FirstOf(phase), status := Active))); }
    case _ =>
  }

  lemma FirstIsForgotten(history: seq<Entry>)
    requires history != [] && OnceEach(history)
    ensures OnceEach(history[1..]) && Ids(history[1..]) == Ids(history) - {Id(history[0])}
  {
    var rest := history[1..];
    assert history == [history[0]] + rest;
    assert forall e :: e in rest ==> Id(e) != Id(history[0]);
  }

  lemma {:induction false} ForgettingKeeps(history: seq<Entry>, seen: set<string>)
    requires OnceEach(history) && seen == Ids(history)
    ensures var memory := Forgetting(history, seen);
            && |memory.0| <= ACTION_HISTORY_LIMIT && OnceEach(memory.0) && memory.1 == Ids(memory.0)
            && |memory.0| <= |history| && memory.0 == history[|history| - |memory.0|..]
    decreases |history|
  {
    if |history| > ACTION_HISTORY_LIMIT {
      FirstIsForgotten(history);
      ForgettingKeeps(history[1..], Ids(history[1..]));
    }
  }

  lemma AppendedOnce(history: seq<Entry>, e: Entry)
    requires OnceEach(history) && Id(e) !in Ids(history)
    ensures OnceEach(history + [e]) && Ids(history + [e]) == Ids(history) + {Id(e)}
  {
    forall i | 0 <= i < |history| ensures Id(history[i]) != Id(e) { assert history[i] in history; }
    assert forall x :: x in history + [e] <==> x in history || x == e;
  }

  lemma EntriesAreKept(history: seq<Entry>, e: Entry, kept: seq<Entry>)
    requires |kept| <= |history| + 1 && kept == (history + [e])[|history| + 1 - |kept|..]
    ensures AllKnown(history) && KnownEntry(e) ==> AllKnown(kept)
    ensures FiniteHistory(history) && e.time.Finite? ==> FiniteHistory(kept)
  {
  }

  lemma MemoryIsKept(history: seq<Entry>, seen: set<string>, e: Entry, memory: (seq<Entry>, set<string>))
    requires Memory(history, seen) && KnownEntry(e) && Id(e) !in seen
    requires memory == Forgetting(history + [e], seen + {Id(e)})
    ensures Memory(memory.0, memory.1)
    ensures FiniteHistory(history) && e.time.Finite? ==> FiniteHistory(memory.0)
  {
    AppendedOnce(history, e);
    ForgettingKeeps(history + [e], seen + {Id(e)});
    EntriesAreKept(history, e, memory.0);
  }

  lemma RecordingRemembers(w: Workflow, c: Command, seat: Seat, trace: Trace, now: Number)
    requires Remembers(w) && Refusal(w, c, seat, Some(trace)).None?
    requires ValidIdentifier(c.actionId) && c.actionId !in w.seen
    ensures Remembers(Recorded(w, c, seat, trace, now))
    ensures FiniteTimes(w) && now.Finite? ==> FiniteTimes(Recorded(w, c, seat, trace, now))
  {
    var e := Entry(c.actionId, c.action, seat, w.generation, now);
    assert KnownEntry(e);
    MemoryIsKept(w.history, w.seen, e, Forgetting(w.history + [e], w.seen + {Id(e)}));
  }

  lemma RecordingIsBounded(w: Workflow, c: Command, seat: Seat, trace: Trace, now: Number)
    requires Bounded(w) && Refusal(w, c, seat, Some(trace)).None? && ValidIdentifier(c.actionId)
    ensures Bounded(Recorded(w, c, seat, trace, now))
  {
    assert KnownTrace(TraceOf(WorkDone(w, c, now), c, seat, trace, now));
  }

  lemma RecordingIsSound(w: Workflow, c: Command, seat: Seat, trace: Trace, now: Number, r: Workflow)
    requires Sound(w) && Refusal(w, c, seat, Some(trace)).None?
    requires ValidIdentifier(c.actionId) && c.actionId !in w.seen
    requires r == Recorded(w, c, seat, trace, now)
    ensures Sound(r) && r.status == Active && r.actionIndex < ACTION_COUNT
    ensures FiniteTimes(w) && now.Finite? ==> FiniteTimes(r)
  {
    RecordingRemembers(w, c, seat, trace, now);
    RecordingIsBounded(w, c, seat, trace, now);
  }

  lemma MovingIsSound(w: Workflow, back: bool)
    requires Sound(w) && w.actionIndex < ACTION_COUNT
    ensures Sound(Moved(w, back))
    ensures FiniteTimes(w) ==> FiniteTimes(Moved(w, back))
  {
    var next := if back then Replayed(w.(actionIndex := BACK)) else w.(actionIndex := w.actionIndex + 1);
    var from := if back then next else w;
    ContinuingIsReplaying(from, next.(revision := w.revision + 1,
                                      status := if next.actionIndex < ACTION_COUNT then Active else Completed));
  }

  predicate AcceptedAnew(reply: Reply) { reply.Accepted? && reply.answer != Duplicate }

  /** An action either is carried out, and accepted as more than a repetition, or leaves everything as it was. */
  lemma AppliesOrChangesNothing(w: Workflow, c: Command, seat: Seat, trace: Option<Trace>, now: Number)
    ensures Applies(w, c, seat, trace) <==> AcceptedAnew(ActionResult(w, c, seat, trace, now).1)
    ensures Applies(w, c, seat, trace) ==>
              && trace.Some? && c.expectedRevision == w.revision
              && ActionResult(w, c, seat, trace, now).0 == Moved(Recorded(w, c, seat, trace.value, now), GoesBack(c))
    ensures !Applies(w, c, seat, trace) ==> ActionResult(w, c, seat, trace, now).0 == w
  {
    AnswerIsDuplicateOrRejected(w.history, c, seat, w.revision);
  }

  lemma ActionIsSound(w: Workflow, c: Command, seat: Seat, trace: Option<Trace>, now: Number, t: Workflow)
    requires Sound(w) && t == ActionResult(w, c, seat, trace, now).0
    ensures Sound(t)
    ensures FiniteTimes(w) && now.Finite? ==> FiniteTimes(t)
  {
    AppliesOrChangesNothing(w, c, seat, trace, now);
    if Applies(w, c, seat, trace) {
      var r := Recorded(w, c, seat, trace.value, now);
      RecordingIsSound(w, c, seat, trace.value, now, r);
      MovingIsSound(r, GoesBack(c));
    }
  }

  lemma EveryCallIsSound(w: Workflow, e: Event)
    requires Sound(w)
    ensures Sound(After(w, e))
    ensures FiniteTimes(w) && AtFiniteTime(e) ==> FiniteTimes(After(w, e))
  {
    match e
    case Act(command, seat, trace, now) => ActionIsSound(w, command, seat, trace, now, After(w, e));
    case Direct(control, clock) => ControlIsSound(w, control, clock);
    case Tick(clock) =>
      if CancellationOver(w, clock) {
        ArchivingIsBounded(w, Cancelled);
        ResetIsSound(Bumped(Archived(w, Cancelled)));
      }
  }

  /* ------------------------------------------------------------------ runs */

  ghost predicate StepAt(states: seq<Workflow>, events: seq<Event>, k: nat)
    requires k < |events| && |states| == |events| + 1
  {
    states[k + 1] == After(states[k], events[k])
  }

  ghost predicate Run(states: seq<Workflow>, events: seq<Event>) {
    && |states| == |events| + 1 && states[0] == Initial()
    && forall k :: 0 <= k < |events| ==> StepAt(states, events, k)
  }

  lemma {:induction false} RunIsSound(states: seq<Workflow>, events: seq<Event>, n: nat)
    requires Run(states, events) && n < |states|
    ensures Sound(states[n])
    ensures (forall k :: 0 <= k < n ==> AtFiniteTime(events[k])) ==> FiniteTimes(states[n])
  {
    if n == 0 {
      InitialIsSound();
    } else {
      RunIsSound(states, events, n - 1);
      assert StepAt(states, events, n - 1);
      EveryCallIsSound(states[n - 1], events[n - 1]);
    }
  }

  /** However it got there, a workflow's script stands where a recomputation would put it. */
  lemma IncrementalScriptEqualsRecompute(states: seq<Workflow>, events: seq<Event>, n: nat, k: nat)
    requires Run(states, events) && n < |states|
    ensures (states[n].cursor, states[n].targetState) == Rebuilt(states[n].script, states[n].actionIndex)
    ensures states[n].cursor <= |states[n].script.timeline|
    ensures k < |states[n].script.timeline| ==>
              (k < states[n].cursor <==> states[n].script.timeline[k].phase <= PhaseAt(states[n].actionIndex))
    ensures states[n].actionIndex == ACTION_COUNT <==> states[n].status == Completed
  {
    RunIsSound(states, events, n);
    PlayedFrom(states[n].script, 0, PhaseAt(states[n].actionIndex));
    if k < |states[n].script.timeline| { ExactlyTheDueCuesAreApplied(states[n], k); }
  }

  /* ------------------------------------------------------------------ commands apply at most once */

  /** A call that takes effect raises the revision, and any other call changes nothing at all. */
  lemma RevisionTellsEffect(w: Workflow, e: Event)
    ensures if TakesEffect(w, e) then After(w, e).revision == w.revision + 1 else After(w, e) == w
  {
    if e.Act? { AppliesOrChangesNothing(w, e.command, e.seat, e.trace, e.now); }
  }

  lemma {:induction false} AnswerIsDuplicateOrRejected(history: seq<Entry>, c: Command, seat: Seat, revision: nat)
    ensures var reply := DuplicateReply(history, c, seat, revision); reply.Rejected? || reply.answer == Duplicate
    decreases |history|
  {
    if history != [] { AnswerIsDuplicateOrRejected(history[..|history| - 1], c, seat, revision); }
  }

  lemma RevisionAt(states: seq<Workflow>, events: seq<Event>, k: nat)
    requires Run(states, events) && k < |events|
    ensures states[k + 1].revision == states[k].revision + if TakesEffect(states[k], events[k]) then 1 else 0
  {
    assert StepAt(states, events, k);
    RevisionTellsEffect(states[k], events[k]);
  }

  lemma {:induction false} RevisionsNeverFall(states: seq<Workflow>, events: seq<Event>, i: nat, j: nat)
    requires Run(states, events) && i <= j < |states|
    ensures states[i].revision <= states[j].revision
    decreases j - i
  {
    if i < j {
      RevisionsNeverFall(states, events, i, j - 1);
      RevisionAt(states, events, j - 1);
    }
  }

  lemma AppliesAtItsRevision(states: seq<Workflow>, events: seq<Event>, k: nat)
    requires Run(states, events) && k < |events| && events[k].Act? && TakesEffect(states[k], events[k])
    ensures events[k].command.expectedRevision == states[k].revision == states[k + 1].revision - 1
  {
    var e := events[k];
    RevisionAt(states, events, k);
    AppliesOrChangesNothing(states[k], e.command, e.seat, e.trace, e.now);
  }

  /** No two commands that take effect in one run were written for the same revision: whatever has been
      forgotten, evicted or reset in between, sending a command again has no second effect. */
  lemma CommandsApplyAtMostOnce(states: seq<Workflow>, events: seq<Event>, i: nat, j: nat)
    requires Run(states, events) && i < j < |events|
    requires events[i].Act? && TakesEffect(states[i], events[i])
    requires events[j].Act? && TakesEffect(states[j], events[j])
    ensures events[i].command.expectedRevision < events[j].command.expectedRevision
    ensures events[i].command != events[j].command
  {
    AppliesAtItsRevision(states, events, i);
    RevisionsNeverFall(states, events, i + 1, j);
    AppliesAtItsRevision(states, events, j);
  }

  /** A command sent again while its id is remembered is recognised, and answered as a repetition exactly when
      action and seat agree with the entry under its id. */
  lemma RepetitionIsRecognised(w: Workflow, c: Command, seat: Seat, trace: Option<Trace>, now: Number, k: nat)
    requires Remembers(w) && k < |w.history| && w.history[k].actionId == c.actionId
    ensures ActionResult(w, c, seat, trace, now) ==
              (w, if w.history[k].action == c.action && w.history[k].seat == seat then Accepted(Duplicate, w.revision)
                  else Rejected(ActionIdConflict, w.revision))
  {
    assert Id(w.history[k]) in Ids(w.history);
    assert KnownEntry(w.history[k]);
    EntryIsFound(w.history, c, seat, w.revision, k);
  }

  lemma {:induction false} EntryIsFound(history: seq<Entry>, c: Command, seat: Seat, revision: nat, k: nat)
    requires OnceEach(history) && k < |history| && history[k].actionId == c.actionId
    ensures DuplicateReply(history, c, seat, revision) ==
              if history[k].action == c.action && history[k].seat == seat then Accepted(Duplicate, revision)
              else Rejected(ActionIdConflict, revision)
    decreases |history|
  {
    if k < |history| - 1 {
      assert Id(history[k]) != Id(history[|history| - 1]);
      EntryIsFound(history[..|history| - 1], c, seat, revision, k);
    }
  }

  /* ------------------------------------------------------------------ strikes */

  /** What has happened since the workflow last started over. */
  datatype Tally = Tally(jumped: bool, negatives: nat)

  predicate StartsOver(w: Workflow, e: Event) {
    && TakesEffect(w, e)
    && (e.Tick? || (e.Direct? && (e.control.Start? || e.control.Reset? || e.control.SetTargetScript?)))
  }

  function Counted(t: Tally, w: Workflow, e: Event): Tally {
    if !TakesEffect(w, e) then t
    else if StartsOver(w, e) then Tally(false, 0)
    else if e.Direct? && e.control.Jump? then t.(jumped := true)
    else if e.Act? && GoesBack(e.command) then t.(negatives := t.negatives + 1)
    else t
  }

  function TallyAt(states: seq<Workflow>, events: seq<Event>, n: nat): Tally
    requires n < |states| && n <= |events|
  {
    if n == 0 then Tally(false, 0) else Counted(TallyAt(states, events, n - 1), states[n - 1], events[n - 1])
  }

  predicate StrikesAddUp(w: Workflow, t: Tally) {
    !t.jumped ==> w.task.strikeAttempt == t.negatives + if w.actionIndex >= STRUCK then 1 else 0
  }

  lemma ActionAddsUp(w: Workflow, t: Tally, e: Event)
    requires e.Act? && Applies(w, e.command, e.seat, e.trace) && StrikesAddUp(w, t)
    ensures StrikesAddUp(Moved(Recorded(w, e.command, e.seat, e.trace.value, e.now), GoesBack(e.command)),
                         if GoesBack(e.command) then t.(negatives := t.negatives + 1) else t)
  {
  }

  lemma CountingAddsUp(w: Workflow, t: Tally, e: Event)
    requires StrikesAddUp(w, t)
    ensures StrikesAddUp(After(w, e), Counted(t, w, e))
  {
    if e.Act? {
      AppliesOrChangesNothing(w, e.command, e.seat, e.trace, e.now);
      if TakesEffect(w, e) { ActionAddsUp(w, t, e); }
    }
  }

  lemma {:induction false} StrikesOfARun(states: seq<Workflow>, events: seq<Event>, n: nat)
    requires Run(states, events) && n < |states|
    ensures StrikesAddUp(states[n], TallyAt(states, events, n))
  {
    if n > 0 {
      StrikesOfARun(states, events, n - 1);
      assert StepAt(states, events, n - 1);
      CountingAddsUp(states[n - 1], TallyAt(states, events, n - 1), events[n - 1]);
    }
  }

  /** A run that completes without jumps has made one strike more than it was told had failed. */
  lemma CompletedRunStruckOncePerFailurePlusOne(states: seq<Workflow>, events: seq<Event>, n: nat)
    requires Run(states, events) && n < |states|
    requires states[n].status == Completed && !TallyAt(states, events, n).jumped
    ensures states[n].task.strikeAttempt == TallyAt(states, events, n).negatives + 1
  {
    StrikesOfARun(states, events, n);
    RunIsSound(states, events, n);
  }

  /* ------------------------------------------------------------------ restoring what was saved */

  lemma {:induction false} ListingIsAsLong(ids: seq<string>, history: seq<Entry>)
    requires NoRepeats(ids) && Elements(ids) == Ids(history)
    ensures |ids| <= |history|
  {
    var names := seq(|history|, i requires 0 <= i < |history| => Id(history[i]));
    forall id | id in ids ensures id in names {
      assert id in Elements(ids);
      var e :| e in history && Id(e) == id;
      var i :| 0 <= i < |history| && history[i] == e;
      assert names[i] == id;
    }
    FitsInto(ids, names);
  }

  /** A sequence without repeats is no longer than any sequence that holds all its elements. */
  lemma {:induction false} FitsInto(a: seq<string>, b: seq<string>)
    requires NoRepeats(a) && forall x :: x in a ==> x in b
    ensures |a| <= |b|
    decreases |a|
  {
    if a != [] {
      var x, rest := a[0], a[1..];
      assert x in b;
      var i :| 0 <= i < |b| && b[i] == x;
      var others := b[..i] + b[i + 1..];
      forall y | y in rest ensures y in others {
        assert y in a && y != x;
        var j :| 0 <= j < |b| && b[j] == y;
        assert y in b[..i] || y in b[i + 1..];
      }
      FitsInto(rest, others);
    }
  }

  lemma EveryIdIsValid(w: Workflow, ids: seq<string>)
    requires Remembers(w) && Lists(ids, w.seen)
    ensures Elements(ids) == w.seen && |ids| <= |w.history| && SeenOk(ids)
  {
    assert Elements(ids) == w.seen;
    ListingIsAsLong(ids, w.history);
    forall i | 0 <= i < |ids| ensures ValidIdentifier(ids[i]) {
      assert ids[i] in Ids(w.history);
      var e :| e in w.history && Id(e) == ids[i];
      assert KnownEntry(e);
    }
  }

  /** The saved form of a workflow is read back as that workflow exactly when every recorded time is finite,
      and is refused otherwise; the order in which the remembered ids are written does not matter. */
  lemma SavedStateIsRestoredExactly(w: Workflow, ids: seq<string>)
    requires Sound(w) && Lists(ids, w.seen)
    ensures Restored(Save(w, ids)) == Ok(w) <==> FiniteTimes(w)
    ensures Restored(Save(w, ids)).Ok? ==> FiniteTimes(w)
  {
    var s := Save(w, ids);
    EveryIdIsValid(w, ids);
    PlayedFrom(w.script, 0, PhaseAt(w.actionIndex));
    assert HeaderOk(s) && ContentOk(s) && SeenOk(s.seen);
    assert Loaded(s) == w;
  }

  /** Every workflow that calls at finite times can bring about is accepted when read back, and unchanged. */
  lemma PersistedRunIsRestored(states: seq<Workflow>, events: seq<Event>, n: nat, ids: seq<string>)
    requires Run(states, events) && n < |states| && Lists(ids, states[n].seen)
    requires forall k :: 0 <= k < n ==> AtFiniteTime(events[k])
    ensures Restored(Save(states[n], ids)) == Ok(states[n])
    ensures states[n].seen == Ids(states[n].history) && OnceEach(states[n].history)
  {
    RunIsSound(states, events, n);
    SavedStateIsRestoredExactly(states[n], ids);
  }

  /** What is read back successfully is in step with its script, remembers each action once and has finite times. It is
      all that a run keeps if and only if it is completed whenever its last action is done, and has no more reports and
      archived runs than are kept; nothing of this is looked at when it is read. */
  lemma AcceptedIsSoundIff(s: Saved, w: Workflow)
    requires Restored(s) == Ok(w)
    ensures InStep(w) && ValidScript(w.script) && Remembers(w) && FiniteTimes(w)
    ensures w.status == Completed ==> w.actionIndex == ACTION_COUNT
    ensures Sound(w)
            <==> (s.actionIndex == ACTION_COUNT ==> s.status == Some(Completed))
                 && |s.reports| <= REPORT_LIMIT && |s.archive| <= ARCHIVE_LIMIT
  {
  }

  /** What was accepted once is accepted again and unchanged, whether a run keeps it or not. */
  lemma AcceptedAgain(s: Saved, w: Workflow, ids: seq<string>)
    requires Restored(s) == Ok(w) && Lists(ids, w.seen)
    ensures Restored(Save(w, ids)) == Ok(w)
  {
    EveryIdIsValid(w, ids);
    assert Loaded(Save(w, ids)) == w;
  }

  lemma InitialVariantIsAccepted(w: Workflow)
    requires w == Replayed(Initial().(actionIndex := w.actionIndex, reports := w.reports, archive := w.archive))
    requires w.actionIndex <= ACTION_COUNT && ArchiveOk(w.archive)
    ensures Restored(Save(w, [])) == Ok(w)
  {
    assert Ids(w.history) == {};
    assert Loaded(Save(w, [])) == w;
  }

  /** A saved form with the last action done and the status still active is accepted, and the workflow read from it
      refuses every action and refuses to start anew. */
  lemma UnfinishedPastTheEndIsAccepted(c: Command, seat: Seat, trace: Option<Trace>, now: Number, clock: int)
    ensures var w := Replayed(Initial().(actionIndex := ACTION_COUNT));
            && Restored(Save(w, [])) == Ok(w) && !Sound(w)
            && ActionResult(w, c, seat, trace, now).1.Rejected?
            && ControlResult(w, Start, clock) == (w, Rejected(NotCompleted, w.revision))
  {
    var w := Replayed(Initial().(actionIndex := ACTION_COUNT));
    InitialVariantIsAccepted(w);
    AcceptedIsSoundIff(Save(w, []), w);
  }

  /** A saved form with any number of reports and archived runs is accepted; the next action that takes effect brings
      the reports back within their bound, and leaves the archive as it is. */
  lemma TooMuchIsAccepted(reports: seq<Report>, archive: seq<ArchivedRun>, c: Command, seat: Seat,
                          trace: Option<Trace>, now: Number)
    requires ArchiveOk(archive)
    ensures var w := Replayed(Initial().(reports := reports, archive := archive));
            && Restored(Save(w, [])) == Ok(w)
            && (Sound(w) <==> |reports| <= REPORT_LIMIT && |archive| <= ARCHIVE_LIMIT)
            && (TakesEffect(w, Act(c, seat, trace, now)) ==>
                  var t := ActionResult(w, c, seat, trace, now).0;
                  |t.reports| <= REPORT_LIMIT && t.archive == archive)
  {
    var w := Replayed(Initial().(reports := reports, archive := archive));
    InitialVariantIsAccepted(w);
    AcceptedIsSoundIff(Save(w, []), w);
    AppliesOrChangesNothing(w, c, seat, trace, now);
  }

  /** The names a history may hold are exactly those in the action table. */
  lemma KnownNamesAreTheTables(a: Action, s: Seat)
    ensures KnownAction(a) <==> exists i: nat :: i < ACTION_COUNT && SpecAt(i).action == a
    ensures KnownSeat(s) <==> s == Automation || exists i: nat :: i < ACTION_COUNT && SpecAt(i).seat == s
  {
    var places := map[ReportTarget := 0, PlanRoute := 1, AcceptRoute := 2, IssueGuidance := 3, AcknowledgeGuidance := 4,
                      IdentityHello := 5, IdentityConfirm := 6, SendGuidancePackage := 7, AcceptGuidance := 8,
                      ReportAttackReady := 9, AuthorizeAttack := 10, SimulateAttack := 11, ReportBattleDamage := 12,
                      ConfirmDamageAssessment := 13, ConfirmTargetDestroyed := 14, Withdraw := 15,
                      ConfirmReturned := 16];
    if KnownAction(a) { assert SpecAt(places[a]).action == a; }
    assert SpecAt(0).seat == Recon && SpecAt(1).seat == Commander;
    assert SpecAt(2).seat == Attack && SpecAt(4).seat == Ground;
  }

  /* ------------------------------------------------------------------ the class */

  lemma NewestDropsTheOldest<T>(s: seq<T>, limit: nat)
    requires |s| > limit
    ensures Newest(s[1..], limit) == Newest(s, limit)
  {
    assert s[1..][|s| - 1 - limit..] == s[|s| - limit..];
  }

  class VmfDemoWorkflow {
    var generation: nat
    var revision: nat
    var actionIndex: nat
    var status: Status
    var targetScript: Script
    var scriptCursor: nat
    var targetState: TargetState
    var task: Task
    var reports: seq<Report>
    var archivedGenerations: seq<ArchivedRun>
    var cancelUntilMs: int
    var cancelledGeneration: nat
    var traces: seq<StoredTrace>
    var actionHistory: seq<Entry>
    var seenActionIds: set<string>

    ghost function State(): Workflow
      reads this
    {
      Workflow(generation, revision, actionIndex, status, targetScript, scriptCursor, targetState, task, reports,
               archivedGenerations, cancelUntilMs, cancelledGeneration, traces, actionHistory, seenActionIds)
    }

    constructor ()
      ensures State() == Initial()
    {
      generation, revision, actionIndex, status := 1, 1, 0, Active;
      targetScript, scriptCursor, targetState := EMPTY_SCRIPT, 0, map[];
      task, reports, archivedGenerations := NewTask(1), [], [];
      cancelUntilMs, cancelledGeneration, traces, actionHistory, seenActionIds := 0, 0, [], [], {};
      new;
      ResetWorkflow();
    }

    static method ValidateTargets(targets: seq<ScriptedTarget>) returns (ok: bool, ids: set<string>)
      ensures ok == ValidTargets(targets)
      ensures ok ==> ids == TargetIds(targets)
    {
      ids := {};
      for i := 0 to |targets|
        invariant ValidTargets(targets[..i]) && ids == TargetIds(targets[..i])
      {
        var target := targets[i];
        assert targets[..i + 1] == targets[..i] + [target];
        if !ValidIdentifier(target.id) || !ValidPatch(target.initial) { return false, ids; }
        if target.id in ids {
          var other :| other in targets[..i] && other.id == target.id;
          return false, ids;
        }
        forall j | 0 <= j < i ensures targets[j].id != target.id { assert targets[..i][j] in targets[..i]; }
        ids := ids + {target.id};
      }
      assert targets[..|targets|] == targets;
      ok := true;
    }

    static method ValidateTimeline(timeline: seq<Cue>, ids: set<string>) returns (ok: bool)
      ensures ok == ValidTimeline(timeline, ids)
    {
      var previousPhase := -1;
      for i := 0 to |timeline|
        invariant forall k :: 0 <= k < i ==> ValidCue(timeline[k], ids) && timeline[k].phase <= previousPhase
        invariant InPhaseOrder(timeline[..i])
        invariant i > 0 ==> previousPhase == timeline[i - 1].phase
        invariant i == 0 ==> previousPhase == -1
      {
        if !ValidCue(timeline[i], ids) { return false; }
        if timeline[i].phase < previousPhase {
          assert timeline[i - 1].phase > timeline[i].phase;
          return false;
        }
        previousPhase := timeline[i].phase;
      }
      assert timeline[..|timeline|] == timeline;
      ok := true;
    }

    static method ValidateTargetScript(script: Script) returns (ok: bool)
      ensures ok == ValidScript(script)
    {
      if script.version != 1 { return false; }
      var targetsOk, ids := ValidateTargets(script.targets);
      if !targetsOk { return false; }
      var timelineOk := ValidateTimeline(script.timeline, ids);
      ok := timelineOk && script.bytes <= SCRIPT_BYTES;
    }

    method ApplyScriptForCurrentPhase()
      modifies `scriptCursor, `targetState
      ensures State() == Continued(old(State()))
    {
      var phase := if actionIndex < ACTION_COUNT then SpecAt(actionIndex).phase else PHASE_COUNT;
      var timeline := targetScript.timeline;
      while scriptCursor < |timeline|
        invariant Played(timeline, scriptCursor, targetState, phase)
               == Played(timeline, old(scriptCursor), old(targetState), phase)
        decreases |timeline| - scriptCursor
      {
        if timeline[scriptCursor].phase > phase { break; }
        targetState := Cued(targetState, timeline[scriptCursor]);
        scriptCursor := scriptCursor + 1;
      }
    }

    method RebuildTargetStateForCurrentPhase()
      modifies `scriptCursor, `targetState
      ensures State() == Replayed(old(State()))
    {
      scriptCursor, targetState := 0, map[];
      for i := 0 to |targetScript.targets|
        invariant scriptCursor == 0 && targetState == InitialState(targetScript.targets[..i])
      {
        assert targetScript.targets[..i + 1][..i] == targetScript.targets[..i];
        targetState := targetState[targetScript.targets[i].id := targetScript.targets[i].initial];
      }
      assert targetScript.targets[..|targetScript.targets|] == targetScript.targets;
      ApplyScriptForCurrentPhase();
    }

    method ClearTaskState()
      modifies `task, `reports
      ensures State() == Cleared(old(State()))
    {
      task, reports := NewTask(generation), [];
    }

    method Rewind()
      modifies `actionIndex, `status, `cancelUntilMs, `cancelledGeneration
      ensures State() == Rewound(old(State()))
    {
      actionIndex, status := 0, Active;
      cancelUntilMs, cancelledGeneration := 0, 0;
    }

    method ForgetActions()
      modifies `traces, `actionHistory, `seenActionIds
      ensures State() == Forgotten(old(State()))
    {
      traces, actionHistory, seenActionIds := [], [], {};
    }

    method ResetWorkflow()
      modifies this
      ensures State() == ResetOf(old(State()))
    {
      Rewind();
      ForgetActions();
      ClearTaskState();
      RebuildTargetStateForCurrentPhase();
    }

    method AppendReport(report: Report)
      modifies `reports
      ensures reports == Newest(old(reports) + [report], REPORT_LIMIT)
    {
      reports := reports + [report];
      while |reports| > REPORT_LIMIT
        invariant Newest(reports, REPORT_LIMIT) == Newest(old(reports) + [report], REPORT_LIMIT)
        decreases |reports|
      {
        NewestDropsTheOldest(reports, REPORT_LIMIT);
        reports := reports[1..];
      }
    }

    method AppendTrace(trace: StoredTrace)
      modifies `traces
      ensures traces == Newest(old(traces) + [trace], TRACE_LIMIT)
    {
      traces := traces + [trace];
      while |traces| > TRACE_LIMIT
        invariant Newest(traces, TRACE_LIMIT) == Newest(old(traces) + [trace], TRACE_LIMIT)
        decreases |traces|
      {
        NewestDropsTheOldest(traces, TRACE_LIMIT);
        traces := traces[1..];
      }
    }

    method ArchiveGeneration(outcome: Status)
      modifies `archivedGenerations
      ensures State() == Archived(old(State()), outcome)
    {
      var run := ArchivedRun(generation, task.number, reports, outcome);
      archivedGenerations := archivedGenerations + [run];
      while |archivedGenerations| > ARCHIVE_LIMIT
        invariant Newest(archivedGenerations, ARCHIVE_LIMIT) == Newest(old(archivedGenerations) + [run], ARCHIVE_LIMIT)
        decreases |archivedGenerations|
      {
        NewestDropsTheOldest(archivedGenerations, ARCHIVE_LIMIT);
        archivedGenerations := archivedGenerations[1..];
      }
    }

    method RememberAction(entry: Entry)
      modifies `actionHistory, `seenActionIds
      ensures (actionHistory, seenActionIds)
           == Forgetting(old(actionHistory) + [entry], old(seenActionIds) + {entry.actionId})
    {
      seenActionIds := seenActionIds + {entry.actionId};
      actionHistory := actionHistory + [entry];
      while |actionHistory| > ACTION_HISTORY_LIMIT
        invariant Forgetting(actionHistory, seenActionIds)
               == Forgetting(old(actionHistory) + [entry], old(seenActionIds) + {entry.actionId})
        decreases |actionHistory|
      {
        var expired := actionHistory[0].actionId;
        actionHistory := actionHistory[1..];
        seenActionIds := seenActionIds - {expired};
      }
    }

    method DuplicateActionResult(c: Command, seat: Seat) returns (reply: Option<Reply>)
      ensures reply == if c.actionId !in seenActionIds then None
                       else Some(DuplicateReply(actionHistory, c, seat, revision))
    {
      if c.actionId !in seenActionIds { return None; }
      var index := |actionHistory|;
      assert actionHistory[..index] == actionHistory;
      while index > 0
        invariant 0 <= index <= |actionHistory|
        invariant DuplicateReply(actionHistory[..index], c, seat, revision)
               == DuplicateReply(actionHistory, c, seat, revision)
      {
        var entry := actionHistory[index - 1];
        assert actionHistory[..index][..index - 1] == actionHistory[..index - 1];
        index := index - 1;
        if entry.actionId == c.actionId {
          if entry.action != c.action || entry.seat != seat { return Some(Rejected(ActionIdConflict, revision)); }
          return Some(Accepted(Duplicate, revision));
        }
      }
      reply := Some(Rejected(ActionIdConflict, revision));
    }

    /** What an action writes into the task. */
    method Work(c: Command, now: Number)
      requires c.action == ConfirmTargetDestroyed ==> !c.payload.outcome.OtherOutcome?
      modifies `task
      ensures State() == WorkDone(old(State()), c, now)
    {
      var p := c.payload;
      match c.action
      case ReportTarget =>
        var target := if p.target.Some? then p.target else Some(DEMO_TARGET);
        task := task.(target := target, generation := generation);
      case PlanRoute =>
        var route := p.route;
        if |route.points| < 2 { route := Route(DEMO_POINTS, false, ""); }
        task := task.(route := route);
      case SendGuidancePackage =>
        var id := if p.packageId.Some? then Named(p.packageId.value) else Numbered(generation);
        task := task.(guidance := Guidance(Some(id), true));
      case SimulateAttack =>
        task := task.(strikeAttempt := task.strikeAttempt + 1, effect := Strike(task.target, now));
      case ReportBattleDamage => task := task.(effect := task.effect.(reported := true));
      case ConfirmDamageAssessment => task := task.(effect := task.effect.(assessed := true));
      case ConfirmTargetDestroyed =>
        task := task.(effect := ConfirmedEffect(task.effect, p), lastOutcome := Some(OutcomeOf(p)));
      case Withdraw => task := task.(route := task.route.(returning := true));
      case _ =>
    }

    method Log(c: Command, seat: Seat, trace: Trace, now: Number)
      requires actionIndex < ACTION_COUNT
      modifies `reports, `traces, `actionHistory, `seenActionIds
      ensures State() == Logged(old(State()), c, seat, trace, now)
    {
      var phase: PhaseIndex := SpecAt(actionIndex).phase;
      AppendReport(Report(generation, revision, task.number, c.action, phase, seat, task.strikeAttempt, now,
                          c.payload, trace.messageId, trace.traceId));
      AppendTrace(StoredTrace(trace, c.actionId, c.action, phase, seat, now, seat == Automation));
      RememberAction(Entry(c.actionId, c.action, seat, generation, now));
    }

    method MoveOn(back: bool)
      modifies this
      ensures State() == Moved(old(State()), back)
    {
      if back {
        actionIndex := BACK;
        RebuildTargetStateForCurrentPhase();
      } else {
        actionIndex := actionIndex + 1;
      }
      revision := revision + 1;
      status := if actionIndex < ACTION_COUNT then Active else Completed;
      ApplyScriptForCurrentPhase();
    }

    /** The checks a command that is not remembered must pass. */
    method Check(c: Command, seat: Seat, trace: Option<Trace>) returns (code: Option<Code>)
      ensures code == Refusal(State(), c, seat, trace)
    {
      if c.expectedRevision != revision { return Some(RevisionMismatch); }
      if status == Paused { return Some(DemoPaused); }
      if status == Cancelled { return Some(DemoCancelled); }
      if status == Completed || actionIndex >= ACTION_COUNT { return Some(DemoCompleted); }
      var spec := SpecAt(actionIndex);
      if c.action != spec.action { return Some(SequenceInvalid); }
      if seat != spec.seat && seat != Automation { return Some(RoleForbidden); }
      if trace.None? { return Some(TraceRequired); }
      if c.action == ConfirmTargetDestroyed {
        if c.payload.outcome.OtherOutcome? { return Some(InvalidOutcome); }
        if DamageOf(c.payload) == OtherDamageState { return Some(InvalidDamageState); }
      }
      code := None;
    }

    method ApplyAction(c: Command, seat: Seat, trace: Option<Trace>, now: Number) returns (reply: Reply)
      modifies this
      ensures (State(), reply) == ActionResult(old(State()), c, seat, trace, now)
    {
      if !ValidIdentifier(c.actionId) { return Rejected(InvalidActionId, revision); }
      var duplicate := DuplicateActionResult(c, seat);
      if duplicate.Some? { return duplicate.value; }
      var refusal := Check(c, seat, trace);
      if refusal.Some? { return Rejected(refusal.value, revision); }
      Work(c, now);
      Log(c, seat, trace.value, now);
      MoveOn(GoesBack(c));
      reply := Accepted(Done, revision);
    }

    /** The first action of a phase, found by searching the table. */
    method FindFirst(phase: nat) returns (index: nat)
      requires phase < PHASE_COUNT
      ensures index == FirstOf(phase)
    {
      index := 0;
      while SpecAt(index).phase != phase
        invariant index <= FirstOf(phase)
        decreases FirstOf(phase) - index
      {
        index := index + 1;
      }
    }

    method Bump()
      modifies `generation, `revision
      ensures State() == Bumped(old(State()))
    {
      generation, revision := generation + 1, revision + 1;
    }

    method ApplyControl(control: Control, clock: int) returns (reply: Reply)
      modifies this
      ensures (State(), reply) == ControlResult(old(State()), control, clock)
    {
      match control
      case Cancel(until) => reply := CancelRun(until, clock);
      case Start => reply := StartAnew();
      case Reset => reply := ResetRun();
      case Pause =>
        if status != Completed { status := Paused; }
        revision := revision + 1;
        reply := Accepted(NowPaused, revision);
      case Resume =>
        if status == Paused { status := Active; }
        revision := revision + 1;
        reply := Accepted(Done, revision);
      case Jump(phase) => reply := JumpTo(phase);
      case SetTargetScript(script) => reply := ReplaceScript(script);
      case OtherControl(_) => reply := Rejected(UnknownControl, revision);
    }

    method CancelRun(until: int, clock: int) returns (reply: Reply)
      modifies this
      ensures (State(), reply) == ControlResult(old(State()), Cancel(until), clock)
    {
      if status == Completed { return Rejected(DemoCompleted, revision); }
      status, cancelledGeneration, cancelUntilMs := Cancelled, generation, until;
      if cancelUntilMs <= 0 { cancelUntilMs := clock + 3000; }
      revision := revision + 1;
      reply := Accepted(NowCancelled, revision);
    }

    method StartAnew() returns (reply: Reply)
      modifies this
      ensures (State(), reply) == ControlResult(old(State()), Start, 0)
    {
      if status != Completed { return Rejected(NotCompleted, revision); }
      ArchiveGeneration(Completed);
      Bump();
      ResetWorkflow();
      reply := Accepted(Started, revision);
    }

    method ResetRun() returns (reply: Reply)
      modifies this
      ensures (State(), reply) == ControlResult(old(State()), Reset, 0)
    {
      Bump();
      ResetWorkflow();
      reply := Accepted(Done, revision);
    }

    method JumpTo(phase: PhaseIndex) returns (reply: Reply)
      modifies this
      ensures (State(), reply) == ControlResult(old(State()), Jump(phase), 0)
    {
      if phase < 0 { return Rejected(InvalidPhase, revision); }
      actionIndex := FindFirst(phase);
      status := Active;
      Bump();
      RebuildTargetStateForCurrentPhase();
      reply := Accepted(Done, revision);
    }

    method ReplaceScript(script: Option<Script>) returns (reply: Reply)
      modifies this
      ensures (State(), reply) == ControlResult(old(State()), SetTargetScript(script), 0)
    {
      if script.Some? {
        var ok := ValidateTargetScript(script.value);
        if !ok { return Rejected(InvalidTargetScript, revision); }
      }
      targetScript := script.GetOr(EMPTY_SCRIPT);
      Bump();
      ResetWorkflow();
      reply := Accepted(Done, revision);
    }

    method AdvanceCancellation(clock: int) returns (advanced: bool)
      modifies this
      ensures State() == CancellationResult(old(State()), clock)
      ensures advanced == CancellationOver(old(State()), clock)
    {
      if status != Cancelled || cancelUntilMs <= 0 { return false; }
      if clock < cancelUntilMs { return false; }
      ArchiveGeneration(Cancelled);
      Bump();
      ResetWorkflow();
      advanced := true;
    }

    method ToJson() returns (saved: Saved)
      ensures Lists(saved.seen, seenActionIds) && saved == Save(State(), saved.seen)
    {
      var ids, rest := [], seenActionIds;
      while rest != {}
        invariant rest <= seenActionIds && NoRepeats(ids)
        invariant forall id :: id in ids <==> id in seenActionIds && id !in rest
        decreases |rest|
      {
        var id :| id in rest;
        ids, rest := ids + [id], rest - {id};
      }
      saved := Saved(SCHEMA_VERSION, PROFILE_ID, generation, revision, actionIndex, Some(status), targetScript,
                     scriptCursor, Some(targetState), Some(task), reports, archivedGenerations, cancelUntilMs,
                     cancelledGeneration, traces, actionHistory, ids);
    }

    static method CheckSeen(seen: seq<string>) returns (ok: bool, ids: set<string>)
      ensures ok == SeenOk(seen)
      ensures ok ==> ids == Elements(seen)
    {
      ids := {};
      for i := 0 to |seen|
        invariant SeenOk(seen[..i]) && ids == Elements(seen[..i])
      {
        assert seen[..i + 1] == seen[..i] + [seen[i]];
        if !ValidIdentifier(seen[i]) { return false, ids; }
        if seen[i] in ids {
          ghost var j :| 0 <= j < i && seen[j] == seen[i];
          return false, ids;
        }
        ids := ids + {seen[i]};
      }
      assert seen[..|seen|] == seen;
      ok := true;
    }

    static method CheckHistory(history: seq<Entry>) returns (ok: bool, ids: set<string>)
      ensures ok == HistoryOk(history)
      ensures ok ==> ids == Ids(history)
    {
      ids := {};
      for i := 0 to |history|
        invariant HistoryOk(history[..i]) && ids == Ids(history[..i])
      {
        var entry := history[i];
        assert history[..i + 1] == history[..i] + [entry];
        if !KnownEntry(entry) || !entry.time.Finite? { return false, ids; }
        if Id(entry) in ids {
          ghost var other :| other in history[..i] && Id(other) == Id(entry);
          ghost var j :| 0 <= j < i && history[j] == other;
          return false, ids;
        }
        AppendedOnce(history[..i], entry);
        ids := ids + {Id(entry)};
      }
      assert history[..|history|] == history;
      ok := true;
    }

    static method CheckTraces(traces: seq<StoredTrace>) returns (ok: bool)
      ensures ok == TracesOk(traces)
    {
      for i := 0 to |traces|
        invariant forall k :: 0 <= k < i ==> KnownTrace(traces[k]) && traces[k].createdAt.Finite?
      {
        if !KnownTrace(traces[i]) || !traces[i].createdAt.Finite? { return false; }
      }
      ok := true;
    }

    /** Whether a saved form is accepted, decided before anything is changed. */
    static method Examine(s: Saved) returns (flaw: Option<Flaw>)
      ensures flaw == if Restored(s).Err? then Some(Restored(s).error) else None
    {
      if !HeaderOk(s) { return Some(BadHeader); }
      var scriptOk := ValidateTargetScript(s.script);
      if !scriptOk { return Some(BadScript); }
      if !ContentOk(s) { return Some(BadContent); }
      if !ArchiveOk(s.archive) { return Some(BadArchive); }
      var seenOk, ids := CheckSeen(s.seen);
      if !seenOk { return Some(BadSeen); }
      var historyOk, historyIds := CheckHistory(s.history);
      if !historyOk { return Some(BadHistory); }
      if historyIds != ids { return Some(SeenMismatch); }
      var stateOk := CheckState(s);
      if !stateOk { return Some(StateMismatch); }
      var tracesOk := CheckTraces(s.traces);
      flaw := if tracesOk then None else Some(BadTraces);
    }

    /** Replays the saved script in a workflow of its own and compares. */
    static method CheckState(s: Saved) returns (ok: bool)
      requires HeaderOk(s) && ContentOk(s)
      ensures ok == StateOk(s)
    {
      var expected := new VmfDemoWorkflow();
      expected.targetScript := s.script;
      expected.actionIndex := s.actionIndex;
      expected.RebuildTargetStateForCurrentPhase();
      ok := s.cursor == expected.scriptCursor && s.targetState.value == expected.targetState;
    }

    method Restore(s: Saved) returns (flaw: Option<Flaw>)
      modifies this
      ensures match Restored(s)
              case Ok(w) => flaw.None? && State() == w
              case Err(error) => flaw == Some(error) && State() == old(State())
    {
      flaw := Examine(s);
      if flaw.Some? { return; }
      Load(s);
    }

    method Load(s: Saved)
      requires HeaderOk(s) && ContentOk(s)
      modifies this
      ensures State() == Loaded(s)
    {
      LoadScript(s);
      generation, revision, actionIndex, status := s.generation, s.revision, s.actionIndex, s.status.value;
      task := s.task.GetOr(NewTask(generation));
      reports, archivedGenerations := s.reports, s.archive;
      LoadMemory(s);
    }

    method LoadScript(s: Saved)
      requires HeaderOk(s) && ContentOk(s)
      modifies `targetScript, `scriptCursor, `targetState
      ensures targetScript == s.script && scriptCursor == s.cursor && targetState == s.targetState.value
    {
      targetScript, scriptCursor, targetState := s.script, s.cursor, s.targetState.value;
    }

    method LoadMemory(s: Saved)
      modifies `cancelUntilMs, `cancelledGeneration, `traces, `actionHistory, `seenActionIds
      ensures cancelUntilMs == s.cancelUntil && cancelledGeneration == s.cancelledGeneration
      ensures traces == s.traces && actionHistory == s.history && seenActionIds == Elements(s.seen)
    {
      cancelUntilMs, cancelledGeneration := s.cancelUntil, s.cancelledGeneration;
      traces, actionHistory, seenActionIds := s.traces, s.history, Elements(s.seen);
    }
  }
}

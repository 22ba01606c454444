/** The message bus: delivery, acknowledgements, retries and deduplication. */
module MessageBus {
  // Unicast and broadcast over the reachability graph, acknowledgements with retries and a terminal timeout, and a
  // bounded memory of automatically acknowledged messages that keeps a duplicate from being delivered again.
  // Handlers only log: what the bus hands to them, which attempts it makes and which signals it emits are history
  // variables beside its fields.
  import opened Listings
  import opened Options
  import opened Reachability

  const MAX_AUTOMATIC_IDS: nat := 4096

  const SLACK: real := 0.000000001

  const EVERYONE: string := "*"

  datatype Message = Message(
    id: string, isAck: bool, sender: string, receiver: string, requiresAck: bool, acked: bool,
    automaticAck: bool, retryCount: nat, inReplyTo: string, body: string)

  datatype Pending = Pending(message: Message, sentAt: real, retries: nat)

  datatype Delivery = Delivery(id: string, recipient: string, automatic: bool)

  datatype Signal = Acknowledged(id: string, retries: nat) | Retried(id: string, retries: nat)
                  | TimedOut(id: string, retries: nat)

  datatype Bus = Bus(
    units: Graph, handlers: set<string>, pending: map<string, Pending>,
    seen: set<string>, seenOrder: seq<string>,
    time: real, timeout: real, maxRetries: nat, automatic: bool, counter: nat,
    log: seq<Delivery>, attempts: seq<string>, signals: seq<Signal>, forgotten: seq<string>)

  /* ------------------------------------------------------------------ iteration order */

  /** The order in which a hash table happens to list its keys. */
  type Order = f: set<string> -> seq<string> | forall s :: Lists(f(s), s) ghost witness AnyOrder<string>

  /* ------------------------------------------------------------------ the operations, as functions of the bus */

  function Digits(n: nat): string {
    if n < 10 then [('0' as int + n) as char] else Digits(n / 10) + Digits(n % 10)
  }

  function Identified(b: Bus, m: Message): (Bus, Message) {
    if m.id != "" then (b, m)
    else (b.(counter := b.counter + 1), m.(id := "m_" + Digits(b.counter + 1)))
  }

  function Flagged(b: Bus, m: Message): Message {
    m.(automaticAck := m.automaticAck || (b.automatic && m.requiresAck), acked := !m.requiresAck)
  }

  /** What the bus notes about a message before dispatching it. */
  function Noted(b: Bus, m: Message): Bus {
    if !m.isAck then
      if m.requiresAck then b.(pending := b.pending[m.id := Pending(m, b.time, m.retryCount)]) else b
    else if m.inReplyTo != "" && m.inReplyTo in b.pending then
      b.(pending := b.pending - {m.inReplyTo},
         signals := b.signals + [Acknowledged(m.inReplyTo, b.pending[m.inReplyTo].retries)])
    else b
  }

  function AckFor(m: Message, recipient: string): Message {
    Message("", true, recipient, m.sender, false, false, false, 0, m.id, "")
  }

  function Trimmed(b: Bus): Bus
    decreases |b.seenOrder|
  {
    if |b.seenOrder| <= MAX_AUTOMATIC_IDS then b
    else Trimmed(b.(seen := b.seen - {b.seenOrder[0]}, seenOrder := b.seenOrder[1..],
                    forgotten := b.forgotten + [b.seenOrder[0]]))
  }

  function Remembered(b: Bus, id: string): Bus {
    if id == "" || id in b.seen then b
    else Trimmed(b.(seen := b.seen + {id}, seenOrder := b.seenOrder + [id]))
  }

  function Delivered(b: Bus, m: Message, recipient: string): Bus {
    b.(log := b.log + [Delivery(m.id, recipient, m.automaticAck)])
  }

  function Attempted(b: Bus, m: Message): Bus {
    if m.isAck then b else b.(attempts := b.attempts + [m.id])
  }

  ghost function Reached(graph: Graph, sender: string, ids: seq<string>): seq<string> {
    if ids == [] then []
    else (if ids[0] != sender && Connected(graph, sender, ids[0]) then [ids[0]] else [])
         + Reached(graph, sender, ids[1..])
  }

  ghost function Recipients(b: Bus, m: Message, order: Order): seq<string> {
    Reached(b.units, m.sender, order(b.handlers))
  }

  /** To whom a message goes that no memory of earlier ones holds back. */
  ghost function Audience(b: Bus, m: Message, order: Order): seq<string> {
    if m.receiver == EVERYONE then Recipients(b, m, order)
    else if m.receiver != "" && Connected(b.units, m.sender, m.receiver) then [m.receiver]
    else []
  }

  function PlainDeliveries(m: Message, recipients: seq<string>): (log: seq<Delivery>)
    ensures |log| == |recipients|
    ensures forall k :: 0 <= k < |log| ==> log[k] == Delivery(m.id, recipients[k], m.automaticAck)
  {
    seq(|recipients|, k requires 0 <= k < |recipients| => Delivery(m.id, recipients[k], m.automaticAck))
  }

  /** The automatic acknowledgement of a message by a recipient, sent and delivered. */
  ghost function Acked(b: Bus, m: Message, recipient: string, order: Order): Bus {
    var (b1, ack) := Identified(b, AckFor(m, recipient));
    var b2 := Noted(b1, ack.(acked := true));
    b2.(log := b2.log + PlainDeliveries(ack, Audience(b2, ack, order)))
  }

  predicate WantsAck(m: Message) { m.requiresAck && m.automaticAck && !m.isAck }

  ghost function MaybeAcked(b: Bus, m: Message, recipient: string, order: Order): Bus {
    if WantsAck(m) then Acked(b, m, recipient, order) else b
  }

  ghost function AckAll(b: Bus, m: Message, recipients: seq<string>, order: Order): Bus
    decreases |recipients|
  {
    if recipients == [] then b
    else AckAll(MaybeAcked(b, m, recipients[0], order), m, recipients[1..], order)
  }

  ghost function DeliverAll(b: Bus, m: Message, recipients: seq<string>, order: Order): Bus
    decreases |recipients|
  {
    if recipients == [] then b
    else DeliverAll(MaybeAcked(Delivered(b, m, recipients[0]), m, recipients[0], order),
                    m, recipients[1..], order)
  }

  ghost function Dispatch(b0: Bus, m: Message, order: Order): Bus {
    var b := Attempted(b0, m);
    var audience := Audience(b, m, order);
    if m.automaticAck && m.id in b.seen then AckAll(b, m, audience, order)
    else
      DeliverAll(if m.automaticAck && audience != [] then Remembered(b, m.id) else b, m, audience, order)
  }

  /** The message as it leaves: with an id, and marked for automatic acknowledgement. */
  function Sent(b: Bus, m: Message): Message { Flagged(b, Identified(b, m).1) }

  function Prepared(b: Bus, m: Message): Bus { Noted(Identified(b, m).0, Sent(b, m)) }

  ghost function Send(b: Bus, m: Message, order: Order): Bus {
    Dispatch(Prepared(b, m), Sent(b, m), order)
  }

  predicate Due(p: Pending, time: real, timeout: real) { time - p.sentAt + SLACK >= timeout }

  function Retry(p: Pending): Message {
    p.message.(retryCount := p.retries + 1, acked := false)
  }

  /** The bus once a retry has restarted the timer of a pending message. */
  function Restarted(b: Bus, id: string): Bus
    requires id in b.pending
  {
    var p := b.pending[id];
    b.(pending := b.pending[id := p.(retries := p.retries + 1, sentAt := b.time)])
  }

  ghost function RetryOne(b: Bus, id: string, order: Order): Bus {
    if id !in b.pending || !Due(b.pending[id], b.time, b.timeout) then b
    else if b.pending[id].retries < b.maxRetries then RetriedNow(b, id, order)
    else GivenUp(b, id)
  }

  ghost function RetriedNow(b: Bus, id: string, order: Order): Bus
    requires id in b.pending
  {
    var b2 := Dispatch(Restarted(b, id), Retry(b.pending[id]), order);
    b2.(signals := b2.signals + [Retried(id, b.pending[id].retries + 1)])
  }

  function GivenUp(b: Bus, id: string): Bus
    requires id in b.pending
  {
    b.(pending := b.pending - {id}, signals := b.signals + [TimedOut(id, b.pending[id].retries)])
  }

  ghost function RetryAll(b: Bus, ids: seq<string>, order: Order): Bus
    decreases |ids|
  {
    if ids == [] then b else RetryAll(RetryOne(b, ids[0], order), ids[1..], order)
  }

  ghost function Advance(b: Bus, seconds: real, order: Order): Bus {
    if seconds <= 0.0 then b
    else RetryAll(b.(time := b.time + seconds), order(b.pending.Keys), order)
  }

  /* ------------------------------------------------------------------ what every operation keeps */

  /** How often a message was handed to a recipient under automatic acknowledgement. */
  function Handed(log: seq<Delivery>, id: string, recipient: string): nat {
    if log == [] then 0
    else Handed(log[..|log| - 1], id, recipient)
         + if log[|log| - 1] == Delivery(id, recipient, true) then 1 else 0
  }

  function Occurrences(ids: seq<string>, id: string): nat {
    if ids == [] then 0
    else Occurrences(ids[..|ids| - 1], id) + if ids[|ids| - 1] == id then 1 else 0
  }

  ghost predicate MemoryOk(b: Bus) {
    Lists(b.seenOrder, b.seen) && |b.seenOrder| <= MAX_AUTOMATIC_IDS
  }

  ghost predicate PendingOk(id: string, p: Pending) {
    id != "" && p.message.id == id && p.message.requiresAck && !p.message.isAck
  }

  ghost predicate AllPendingOk(pending: map<string, Pending>) {
    forall id :: id in pending ==> PendingOk(id, pending[id])
  }

  /** Handed once while remembered, and once more for each time the memory dropped the id. */
  ghost predicate OnceFor(b: Bus, id: string, recipient: string) {
    Handed(b.log, id, recipient) <= Occurrences(b.forgotten, id) + if id in b.seen then 1 else 0
  }

  ghost predicate Sound(b: Bus) {
    && MemoryOk(b)
    && AllPendingOk(b.pending)
    && (forall id, recipient :: OnceFor(b, id, recipient))
  }

  lemma AddHanded(log: seq<Delivery>, d: Delivery, id: string, recipient: string)
    ensures Handed(log + [d], id, recipient)
         == Handed(log, id, recipient) + if d == Delivery(id, recipient, true) then 1 else 0
  {
    assert (log + [d])[..|log|] == log;
  }

  lemma {:induction false} AddPlain(log: seq<Delivery>, more: seq<Delivery>, id: string, recipient: string)
    requires forall k :: 0 <= k < |more| ==> !more[k].automatic
    ensures Handed(log + more, id, recipient) == Handed(log, id, recipient)
  {
    if more == [] {
      assert log + more == log;
    } else {
      assert log + more == log + more[..|more| - 1] + [more[|more| - 1]];
      AddHanded(log + more[..|more| - 1], more[|more| - 1], id, recipient);
      AddPlain(log, more[..|more| - 1], id, recipient);
    }
  }

  /** Nothing but counters, pending entries, signals and deliveries differs. */
  ghost predicate Frame(b: Bus, b': Bus) {
    b' == b.(counter := b'.counter, pending := b'.pending, signals := b'.signals, log := b'.log)
  }

  ghost predicate SameHanded(b: Bus, b': Bus) {
    forall id, r :: Handed(b'.log, id, r) == Handed(b.log, id, r)
  }

  function Settled(b: Bus, m: Message, reached: bool): map<string, Pending> {
    if WantsAck(m) && reached then b.pending - {m.id} else b.pending
  }

  /** An acknowledgement leaves the memory and the automatic deliveries alone; it settles its message. */
  lemma AckEffect(b: Bus, m: Message, recipient: string, order: Order)
    requires m.id != ""
    ensures var b' := MaybeAcked(b, m, recipient, order);
      Frame(b, b') && SameHanded(b, b') && b'.pending == Settled(b, m, true)
  {
    if WantsAck(m) {
      var (b1, ack) := Identified(b, AckFor(m, recipient));
      var b2 := Noted(b1, ack.(acked := true));
      assert b2.log == b.log && b2.pending == b.pending - {m.id};
      forall id, r ensures Handed(MaybeAcked(b, m, recipient, order).log, id, r) == Handed(b.log, id, r) {
        AddPlain(b2.log, PlainDeliveries(ack, Audience(b2, ack, order)), id, r);
      }
    }
  }

  lemma {:induction false} AckAllEffect(b: Bus, m: Message, recipients: seq<string>, order: Order)
    requires m.id != ""
    ensures var b' := AckAll(b, m, recipients, order);
      Frame(b, b') && SameHanded(b, b') && b'.pending == Settled(b, m, recipients != [])
    decreases |recipients|
  {
    if recipients != [] {
      AckEffect(b, m, recipients[0], order);
      AckAllEffect(MaybeAcked(b, m, recipients[0], order), m, recipients[1..], order);
    }
  }

  /** The k-th delivery of a round, and its acknowledgement. */
  lemma DeliverOne(b: Bus, m: Message, first: string, order: Order)
    requires m.id != ""
    ensures var b' := MaybeAcked(Delivered(b, m, first), m, first, order);
      && Frame(b, b') && b'.pending == Settled(b, m, true)
      && forall id, r :: Handed(b'.log, id, r)
           == Handed(b.log, id, r) + if Delivery(m.id, first, m.automaticAck) == Delivery(id, r, true) then 1 else 0
  {
    var b1 := Delivered(b, m, first);
    AckEffect(b1, m, first, order);
    forall id, r
      ensures Handed(b1.log, id, r)
           == Handed(b.log, id, r) + if Delivery(m.id, first, m.automaticAck) == Delivery(id, r, true) then 1 else 0
    {
      AddHanded(b.log, Delivery(m.id, first, m.automaticAck), id, r);
    }
  }

  lemma {:induction false} DeliverAllFrame(b: Bus, m: Message, recipients: seq<string>, order: Order)
    requires m.id != ""
    ensures var b' := DeliverAll(b, m, recipients, order);
      Frame(b, b') && b'.pending == Settled(b, m, recipients != [])
    decreases |recipients|
  {
    if recipients != [] {
      DeliverOne(b, m, recipients[0], order);
      DeliverAllFrame(MaybeAcked(Delivered(b, m, recipients[0]), m, recipients[0], order),
                      m, recipients[1..], order);
    }
  }

  function HandedBy(m: Message, recipients: seq<string>, id: string, r: string): nat {
    if m.automaticAck && id == m.id && r in recipients then 1 else 0
  }

  /** Each recipient of a round is handed the message exactly once. */
  lemma {:induction false} DeliverAllHands(b: Bus, m: Message, recipients: seq<string>, order: Order,
                                           id: string, r: string)
    requires m.id != "" && NoRepeats(recipients)
    ensures Handed(DeliverAll(b, m, recipients, order).log, id, r)
         == Handed(b.log, id, r) + HandedBy(m, recipients, id, r)
    decreases |recipients|
  {
    if recipients != [] {
      var first, rest := recipients[0], recipients[1..];
      DeliverOne(b, m, first, order);
      DeliverAllHands(MaybeAcked(Delivered(b, m, first), m, first, order), m, rest, order, id, r);
      assert r in recipients <==> r == first || r in rest;
      assert first !in rest;
    }
  }

  lemma DeliverAllEffect(b: Bus, m: Message, recipients: seq<string>, order: Order)
    requires m.id != "" && NoRepeats(recipients)
    ensures var b' := DeliverAll(b, m, recipients, order);
      && Frame(b, b') && b'.pending == Settled(b, m, recipients != [])
      && forall id, r :: Handed(b'.log, id, r) == Handed(b.log, id, r) + HandedBy(m, recipients, id, r)
  {
    DeliverAllFrame(b, m, recipients, order);
    forall id, r
      ensures Handed(DeliverAll(b, m, recipients, order).log, id, r)
           == Handed(b.log, id, r) + HandedBy(m, recipients, id, r)
    {
      DeliverAllHands(b, m, recipients, order, id, r);
    }
  }

  lemma RememberedOk(b: Bus, id: string)
    requires MemoryOk(b) && id != "" && id !in b.seen
    ensures var b' := Remembered(b, id);
      && MemoryOk(b') && id in b'.seen && b'.seen <= b.seen + {id}
      && b' == b.(seen := b'.seen, seenOrder := b'.seenOrder, forgotten := b'.forgotten)
      && forall x :: Occurrences(b'.forgotten, x) + (if x in b'.seen then 1 else 0)
                  == Occurrences(b.forgotten, x) + (if x in b.seen || x == id then 1 else 0)
  {
    var order := b.seenOrder + [id];
    AppendedElement(b.seenOrder, id);
    if |order| > MAX_AUTOMATIC_IDS {
      var oldest := order[0];
      assert order == [oldest] + order[1..];
      AppendedElement(order[1..], oldest);
      assert (b.forgotten + [oldest])[..|b.forgotten|] == b.forgotten;
      assert oldest !in order[1..];
      var grown := b.(seen := b.seen + {id}, seenOrder := order);
      var cut := grown.(seen := grown.seen - {oldest}, seenOrder := order[1..], forgotten := b.forgotten + [oldest]);
      assert Trimmed(grown) == Trimmed(cut) == cut;
    }
  }

  lemma {:induction false} ReachedOk(graph: Graph, sender: string, ids: seq<string>)
    requires NoRepeats(ids)
    ensures NoRepeats(Reached(graph, sender, ids))
    ensures forall r :: r in Reached(graph, sender, ids) <==>
              r in ids && r != sender && Connected(graph, sender, r)
  {
    if ids != [] {
      ReachedOk(graph, sender, ids[1..]);
      assert ids == [ids[0]] + ids[1..] && ids[0] !in ids[1..];
    }
  }

  lemma AudienceOk(b: Bus, m: Message, order: Order)
    ensures NoRepeats(Audience(b, m, order))
  {
    var ids := order(b.handlers);
    assert Lists(ids, b.handlers);
    ReachedOk(b.units, m.sender, ids);
  }

  /** One dispatch keeps the bus sound, and settles the message if anyone is reachable. */
  lemma DispatchEffect(b: Bus, m: Message, order: Order)
    requires Sound(b) && m.id != ""
    ensures Sound(Dispatch(b, m, order))
    ensures var b' := Dispatch(b, m, order);
      && b'.pending == Settled(b, m, Audience(b, m, order) != [])
      && (m.automaticAck && Audience(b, m, order) != [] ==> m.id in b'.seen)
      && (m.automaticAck && m.id !in b.seen ==>
            forall r :: r in Audience(b, m, order) ==> Handed(b'.log, m.id, r) == Handed(b.log, m.id, r) + 1)
      && (m.automaticAck && m.id in b.seen ==> SameHanded(b, b') && b'.seen == b.seen)
      && b' == b.(counter := b'.counter, pending := b'.pending, signals := b'.signals, log := b'.log,
                  seen := b'.seen, seenOrder := b'.seenOrder, forgotten := b'.forgotten,
                  attempts := Attempted(b, m).attempts)
  {
    var b0, audience := Attempted(b, m), Audience(b, m, order);
    assert Audience(b0, m, order) == audience;
    AudienceOk(b, m, order);
    if m.automaticAck && m.id in b.seen {
      AckAllEffect(b0, m, audience, order);
      forall id, r ensures OnceFor(Dispatch(b, m, order), id, r) { assert OnceFor(b, id, r); }
    } else {
      var b1 := if m.automaticAck && audience != [] then Remembered(b0, m.id) else b0;
      if m.automaticAck && audience != [] { RememberedOk(b0, m.id); }
      DeliverAllEffect(b1, m, audience, order);
      forall id, r ensures OnceFor(Dispatch(b, m, order), id, r) { assert OnceFor(b, id, r); }
    }
  }

  lemma StaysSound(b: Bus, b': Bus)
    requires Sound(b) && AllPendingOk(b'.pending)
    requires b'.seen == b.seen && b'.seenOrder == b.seenOrder
    requires b'.forgotten == b.forgotten && b'.log == b.log
    ensures Sound(b')
  {
    forall id, r ensures OnceFor(b', id, r) { assert OnceFor(b, id, r); }
  }

  lemma ClockOk(b: Bus, time: real)
    requires Sound(b)
    ensures Sound(b.(time := time))
  {
    StaysSound(b, b.(time := time));
  }

  lemma PreparedOk(b: Bus, m: Message)
    requires Sound(b)
    ensures Sound(Prepared(b, m)) && Sent(b, m).id != ""
    ensures var b' := Prepared(b, m);
      b' == b.(counter := b'.counter, pending := b'.pending, signals := b'.signals)
  {
    var b1, sent := Identified(b, m).0, Sent(b, m);
    NotedOk(b1, sent);
    StaysSound(b, Noted(b1, sent));
  }

  lemma NotedOk(b: Bus, m: Message)
    requires AllPendingOk(b.pending) && m.id != ""
    ensures var b' := Noted(b, m);
      AllPendingOk(b'.pending) && b' == b.(pending := b'.pending, signals := b'.signals)
  {
  }

  /** Sending keeps the bus sound; the message is settled at once if anyone is reachable. */
  lemma SendEffect(b: Bus, m: Message, order: Order)
    requires Sound(b)
    ensures Sound(Send(b, m, order))
    ensures Send(b, m, order).pending
         == Settled(Prepared(b, m), Sent(b, m), Audience(b, Sent(b, m), order) != [])
    ensures Send(b, m, order).attempts == Attempted(b, Sent(b, m)).attempts
  {
    PreparedOk(b, m);
    assert Audience(Prepared(b, m), Sent(b, m), order) == Audience(b, Sent(b, m), order);
    DispatchEffect(Prepared(b, m), Sent(b, m), order);
  }

  lemma RestartedOk(b: Bus, id: string)
    requires Sound(b) && id in b.pending
    ensures Sound(Restarted(b, id)) && PendingOk(id, b.pending[id])
  {
    StaysSound(b, Restarted(b, id));
  }

  lemma RetryOneEffect(b: Bus, id: string, order: Order)
    requires Sound(b)
    ensures Sound(RetryOne(b, id, order))
    ensures var b' := RetryOne(b, id, order);
      b' == b.(counter := b'.counter, pending := b'.pending, signals := b'.signals, log := b'.log,
               seen := b'.seen, seenOrder := b'.seenOrder, forgotten := b'.forgotten, attempts := b'.attempts)
    ensures forall other :: other != id ==>
      var b' := RetryOne(b, id, order);
      && (other in b'.pending <==> other in b.pending)
      && (other in b.pending ==> b'.pending[other] == b.pending[other])
      && Occurrences(b'.attempts, other) == Occurrences(b.attempts, other)
  {
    if id in b.pending && Due(b.pending[id], b.time, b.timeout) {
      var p := b.pending[id];
      assert PendingOk(id, p);
      if p.retries < b.maxRetries {
        var b1 := Restarted(b, id);
        RestartedOk(b, id);
        DispatchEffect(b1, Retry(p), order);
        assert (b.attempts + [id])[..|b.attempts|] == b.attempts;
        StaysSound(Dispatch(b1, Retry(p), order), RetryOne(b, id, order));
      } else {
        StaysSound(b, RetryOne(b, id, order));
      }
    }
  }

  /* ------------------------------------------------------------------ whole runs */

  datatype Event =
    | DoSend(m: Message, order: Order)
    | DoAdvance(seconds: real, order: Order)
    | DoTopology(units: Graph, handlers: set<string>)
    | DoPolicy(timeout: real, maxRetries: int, automatic: bool)
    | DoClock(time: real)

  function WithPolicy(b: Bus, timeout: real, maxRetries: int, automatic: bool): Bus {
    b.(timeout := if timeout > 0.0 then timeout else b.timeout,
       maxRetries := if maxRetries < 0 then 0 else if maxRetries > 16 then 16 else maxRetries,
       automatic := automatic)
  }

  ghost function Apply(b: Bus, e: Event): Bus {
    match e
    case DoSend(m, order) => Send(b, m, order)
    case DoAdvance(seconds, order) => Advance(b, seconds, order)
    case DoTopology(units, handlers) => b.(units := units, handlers := handlers)
    case DoPolicy(timeout, maxRetries, automatic) => WithPolicy(b, timeout, maxRetries, automatic)
    case DoClock(time) => b.(time := if time < 0.0 then 0.0 else time)
  }

  ghost predicate Fresh(b: Bus) {
    && b.pending == map[] && b.seen == {} && b.seenOrder == [] && b.log == [] && b.forgotten == []
  }

  ghost predicate StepAt(states: seq<Bus>, events: seq<Event>, k: nat)
    requires k < |events| && |states| == |events| + 1
  {
    states[k + 1] == Apply(states[k], events[k])
  }

  ghost predicate Run(states: seq<Bus>, events: seq<Event>) {
    && |states| == |events| + 1 && Fresh(states[0])
    && forall k :: 0 <= k < |events| ==> StepAt(states, events, k)
  }

  ghost predicate SoundUpTo(states: seq<Bus>, n: nat)
    requires n < |states|
  {
    forall k :: 0 <= k <= n ==> Sound(states[k])
  }

  /** As long as the memory has not dropped the id again, nothing is handed over under it again. */
  ghost predicate Steady(b: Bus, b': Bus, id: string) {
    && Occurrences(b'.forgotten, id) >= Occurrences(b.forgotten, id)
    && (Occurrences(b'.forgotten, id) == Occurrences(b.forgotten, id) && id in b.seen ==>
          id in b'.seen && forall r :: Handed(b'.log, id, r) == Handed(b.log, id, r))
  }

  lemma SteadyTwice(a: Bus, b: Bus, c: Bus, id: string)
    requires Steady(a, b, id) && Steady(b, c, id)
    ensures Steady(a, c, id)
  {
  }

  lemma DispatchSteady(b: Bus, m: Message, order: Order, id: string)
    requires Sound(b) && m.id != ""
    ensures Steady(b, Dispatch(b, m, order), id)
  {
    var b0, audience := Attempted(b, m), Audience(b, m, order);
    assert Audience(b0, m, order) == audience;
    AudienceOk(b, m, order);
    if m.automaticAck && m.id in b.seen {
      AckAllEffect(b0, m, audience, order);
    } else {
      var b1 := if m.automaticAck && audience != [] then Remembered(b0, m.id) else b0;
      if m.automaticAck && audience != [] { RememberedOk(b0, m.id); }
      DeliverAllEffect(b1, m, audience, order);
    }
  }

  lemma RetryOneSteady(b: Bus, x: string, order: Order, id: string)
    requires Sound(b)
    ensures Steady(b, RetryOne(b, x, order), id)
  {
    if x in b.pending && Due(b.pending[x], b.time, b.timeout) && b.pending[x].retries < b.maxRetries {
      var p := b.pending[x];
      var b1 := Restarted(b, x);
      RestartedOk(b, x);
      DispatchSteady(b1, Retry(p), order, id);
    }
  }

  lemma {:induction false} RetryAllEffect(b: Bus, ids: seq<string>, order: Order, id: string)
    requires Sound(b)
    ensures Sound(RetryAll(b, ids, order)) && Steady(b, RetryAll(b, ids, order), id)
    decreases |ids|
  {
    if ids != [] {
      var b1 := RetryOne(b, ids[0], order);
      RetryOneEffect(b, ids[0], order);
      RetryOneSteady(b, ids[0], order, id);
      RetryAllEffect(b1, ids[1..], order, id);
      SteadyTwice(b, b1, RetryAll(b, ids, order), id);
    }
  }

  lemma ApplyEffect(b: Bus, e: Event, id: string)
    requires Sound(b)
    ensures Sound(Apply(b, e)) && Steady(b, Apply(b, e), id)
  {
    match e {
      case DoSend(m, order) =>
        SendEffect(b, m, order);
        PreparedOk(b, m);
        DispatchSteady(Prepared(b, m), Sent(b, m), order, id);
      case DoAdvance(seconds, order) =>
        var b1 := b.(time := b.time + seconds);
        ClockOk(b, b.time + seconds);
        RetryAllEffect(b1, order(b.pending.Keys), order, id);
      case _ => StaysSound(b, Apply(b, e));
    }
  }

  lemma {:induction false} RunIsSound(states: seq<Bus>, events: seq<Event>, n: nat)
    requires Run(states, events) && n <= |events|
    ensures SoundUpTo(states, n)
  {
    if n == 0 {
      FreshIsSound(states[0]);
    } else {
      RunIsSound(states, events, n - 1);
      assert StepAt(states, events, n - 1);
      ApplyEffect(states[n - 1], events[n - 1], "");
    }
  }

  lemma FreshIsSound(b: Bus)
    requires Fresh(b)
    ensures Sound(b)
  {
    assert Elements<string>([]) == {};
    forall id, r ensures OnceFor(b, id, r) {}
  }

  /** Over every run, no message is handed to a recipient more often than its id was forgotten, plus one. */
  lemma AtMostOncePerMemory(states: seq<Bus>, events: seq<Event>, n: nat, id: string, recipient: string)
    requires Run(states, events) && n <= |events|
    ensures Handed(states[n].log, id, recipient)
         <= Occurrences(states[n].forgotten, id) + if id in states[n].seen then 1 else 0
  {
    RunIsSound(states, events, n);
    assert OnceFor(states[n], id, recipient);
  }

  /** While a message id stays in the memory, it is not handed to anyone again. */
  lemma {:induction false} RememberedIsNotRedelivered(states: seq<Bus>, events: seq<Event>, i: nat, j: nat, id: string)
    requires Run(states, events) && i <= j <= |events|
    ensures Steady(states[i], states[j], id)
  {
    if i < j {
      RememberedIsNotRedelivered(states, events, i, j - 1, id);
      RunIsSound(states, events, j - 1);
      assert StepAt(states, events, j - 1);
      ApplyEffect(states[j - 1], events[j - 1], id);
      SteadyTwice(states[i], states[j - 1], states[j], id);
    }
  }

  /**
   Dispatching a unicast message that wants an acknowledgement: if its receiver is reachable the
   message is settled within the call, and handed over unless it was before; if not, nothing is.
   */
  lemma UnicastDispatch(b: Bus, m: Message, order: Order)
    requires Sound(b) && WantsAck(m) && m.id != "" && m.receiver != EVERYONE && m.receiver != ""
    ensures var b' := Dispatch(b, m, order);
      if Connected(b.units, m.sender, m.receiver) then
        && b'.pending == b.pending - {m.id} && m.id in b'.seen
        && Handed(b'.log, m.id, m.receiver)
           == Handed(b.log, m.id, m.receiver) + if m.id in b.seen then 0 else 1
      else b' == Attempted(b, m)
  {
    DispatchEffect(b, m, order);
  }

  /** The first sending settles a message whose receiver is reachable; otherwise it stays pending. */
  lemma UnicastSettlesWhenReachable(b: Bus, m: Message, order: Order)
    requires Sound(b) && b.automatic && m.requiresAck && !m.isAck
    requires m.receiver != EVERYONE && m.receiver != ""
    ensures var b', sent := Send(b, m, order), Sent(b, m);
      if Connected(b.units, m.sender, m.receiver) then
        && sent.id !in b'.pending && sent.id in b'.seen
        && Handed(b'.log, sent.id, m.receiver)
           == Handed(b.log, sent.id, m.receiver) + if sent.id in b.seen then 0 else 1
      else
        sent.id in b'.pending && b'.log == b.log
  {
    PreparedOk(b, m);
    UnicastDispatch(Prepared(b, m), Sent(b, m), order);
  }

  /** The same at a retry: the first one that finds the receiver reachable settles the message. */
  lemma RetrySettlesWhenReachable(b: Bus, id: string, order: Order)
    requires Sound(b) && id in b.pending && Due(b.pending[id], b.time, b.timeout)
    requires b.pending[id].retries < b.maxRetries
    requires var m := b.pending[id].message; m.automaticAck && m.receiver != EVERYONE && m.receiver != ""
    ensures var b', m := RetryOne(b, id, order), b.pending[id].message;
      if Connected(b.units, m.sender, m.receiver) then
        && id !in b'.pending && id in b'.seen
        && Handed(b'.log, id, m.receiver) == Handed(b.log, id, m.receiver) + if id in b.seen then 0 else 1
      else
        && id in b'.pending && b'.log == b.log
        && b'.pending[id] == b.pending[id].(retries := b.pending[id].retries + 1, sentAt := b.time)
  {
    var p := b.pending[id];
    assert PendingOk(id, p);
    RestartedOk(b, id);
    UnicastDispatch(Restarted(b, id), Retry(p), order);
  }

  /* ------------------------------------------------------------------ how long a message stays pending */

  /** What one timer step at a given time makes of a pending entry nobody answers. */
  function Tick(p: Pending, time: real, timeout: real, maxRetries: nat): Option<Pending> {
    if !Due(p, time, timeout) then Some(p)
    else if p.retries < maxRetries then Some(p.(retries := p.retries + 1, sentAt := time))
    else None
  }

  function EntryOf(b: Bus, id: string): Option<Pending> {
    if id in b.pending then Some(b.pending[id]) else None
  }

  /** Nobody would acknowledge the message if it were dispatched now. */
  ghost predicate Unanswered(b: Bus, m: Message) {
    || !m.automaticAck
    || (if m.receiver == EVERYONE then
          forall u :: u in b.handlers && u != m.sender ==> !Connected(b.units, m.sender, u)
        else m.receiver == "" || !Connected(b.units, m.sender, m.receiver))
  }

  lemma {:induction false} ReachedNone(graph: Graph, sender: string, ids: seq<string>)
    requires forall u :: u in ids && u != sender ==> !Connected(graph, sender, u)
    ensures Reached(graph, sender, ids) == []
  {
    if ids != [] { ReachedNone(graph, sender, ids[1..]); }
  }

  lemma UnansweredAudience(b: Bus, m: Message, order: Order)
    requires Unanswered(b, m) && m.automaticAck
    ensures Audience(b, m, order) == []
  {
    if m.receiver == EVERYONE {
      assert Lists(order(b.handlers), b.handlers);
      assert forall u :: u in order(b.handlers) ==> u in Elements(order(b.handlers));
      ReachedNone(b.units, m.sender, order(b.handlers));
    }
  }

  /** A sparing event either runs the timer on the entry, or leaves it and the clock alone. */
  ghost predicate EntryStep(b: Bus, b': Bus, id: string, ticked: bool)
    requires id in b.pending
  {
    && b'.timeout == b.timeout && b'.maxRetries == b.maxRetries
    && (if ticked then EntryOf(b', id) == Tick(b.pending[id], b'.time, b.timeout, b.maxRetries)
        else EntryOf(b', id) == EntryOf(b, id) && b'.time == b.time)
    && Occurrences(b'.attempts, id) == Occurrences(b.attempts, id)
         + if EntryOf(b', id).Some? && b'.pending[id].retries > b.pending[id].retries then 1 else 0
  }

  lemma UnansweredDispatch(b: Bus, m: Message, order: Order)
    requires Sound(b) && m.id != "" && Unanswered(b, m)
    ensures Dispatch(b, m, order).pending == b.pending
    ensures Dispatch(b, m, order).attempts == Attempted(b, m).attempts
    ensures Dispatch(b, m, order).time == b.time
  {
    if m.automaticAck { UnansweredAudience(b, m, order); }
    DispatchEffect(b, m, order);
  }

  lemma RetryOneTicks(b: Bus, id: string, order: Order)
    requires Sound(b) && id in b.pending && Unanswered(b, b.pending[id].message)
    ensures EntryStep(b, RetryOne(b, id, order), id, true)
    ensures RetryOne(b, id, order).time == b.time
  {
    RestartedOk(b, id);
    RetryOneEffect(b, id, order);
    var m := Retry(b.pending[id]);
    assert Unanswered(Restarted(b, id), m);
    UnansweredDispatch(Restarted(b, id), m, order);
    assert (b.attempts + [id])[..|b.attempts|] == b.attempts;
  }

  lemma {:induction false} RetryOthers(b: Bus, ids: seq<string>, order: Order, id: string)
    requires Sound(b) && id !in ids
    ensures var b' := RetryAll(b, ids, order);
      && EntryOf(b', id) == EntryOf(b, id) && Occurrences(b'.attempts, id) == Occurrences(b.attempts, id)
      && b'.time == b.time && b'.timeout == b.timeout && b'.maxRetries == b.maxRetries
    decreases |ids|
  {
    if ids != [] {
      RetryOneEffect(b, ids[0], order);
      RetryOthers(RetryOne(b, ids[0], order), ids[1..], order, id);
    }
  }

  lemma {:induction false} RetryAllTicks(b: Bus, ids: seq<string>, order: Order, id: string)
    requires Sound(b) && id in b.pending && Unanswered(b, b.pending[id].message)
    requires NoRepeats(ids) && id in ids
    ensures EntryStep(b, RetryAll(b, ids, order), id, true)
    ensures RetryAll(b, ids, order).time == b.time
    decreases |ids|
  {
    RetryOneEffect(b, ids[0], order);
    var b1 := RetryOne(b, ids[0], order);
    if ids[0] == id {
      RetryOneTicks(b, id, order);
      RetryOthers(b1, ids[1..], order, id);
    } else {
      RetryAllTicks(b1, ids[1..], order, id);
    }
  }

  /** The event leaves the message alone, apart from timer steps of bounded length. */
  ghost predicate Spares(b: Bus, e: Event, id: string, step: real) {
    match e
    case DoSend(m, _) => Sent(b, m).id != id && !(m.isAck && m.inReplyTo == id)
    case DoAdvance(seconds, _) => seconds <= step
    case DoTopology(_, _) => true
    case DoPolicy(_, _, _) => false
    case DoClock(_) => false
  }

  lemma SparedBySend(b: Bus, m: Message, order: Order, id: string)
    requires Sound(b) && id in b.pending && Sent(b, m).id != id && !(m.isAck && m.inReplyTo == id)
    ensures EntryStep(b, Send(b, m, order), id, false)
  {
    PreparedOk(b, m);
    DispatchEffect(Prepared(b, m), Sent(b, m), order);
    assert (b.attempts + [Sent(b, m).id])[..|b.attempts|] == b.attempts;
  }

  lemma SparedByTimer(b: Bus, seconds: real, order: Order, id: string)
    requires Sound(b) && id in b.pending && Unanswered(b, b.pending[id].message) && seconds > 0.0
    ensures EntryStep(b, Advance(b, seconds, order), id, true)
    ensures Advance(b, seconds, order).time == b.time + seconds
  {
    ClockOk(b, b.time + seconds);
    var b1 := b.(time := b.time + seconds);
    TimedEntry(b1, order, id, RetryAll(b1, order(b.pending.Keys), order));
  }

  lemma TimedEntry(b: Bus, order: Order, id: string, b': Bus)
    requires Sound(b) && id in b.pending && Unanswered(b, b.pending[id].message)
    requires b' == RetryAll(b, order(b.pending.Keys), order)
    ensures EntryStep(b, b', id, true) && b'.time == b.time
  {
    var ids := order(b.pending.Keys);
    assert Lists(ids, b.pending.Keys) && id in Elements(ids);
    RetryAllTicks(b, ids, order, id);
  }

  lemma SparedEntry(b: Bus, e: Event, id: string, step: real)
    requires Sound(b) && id in b.pending && Unanswered(b, b.pending[id].message) && Spares(b, e, id, step)
    ensures EntryStep(b, Apply(b, e), id, e.DoAdvance? && e.seconds > 0.0)
    ensures b.time <= Apply(b, e).time <= b.time + Max(step, 0.0)
  {
    match e {
      case DoSend(m, order) => SparedBySend(b, m, order, id);
      case DoAdvance(seconds, order) => if seconds > 0.0 { SparedByTimer(b, seconds, order, id); }
      case _ =>
    }
  }

  function Max(a: real, b: real): real { if a < b then b else a }

  function Times(n: nat, x: real): real { if n == 0 then 0.0 else Times(n - 1, x) + x }

  /** How far a message sent at `start` can have got after its k-th retry. */
  ghost predicate OnSchedule(b: Bus, id: string, start: real, before: nat, step: real)
    requires id in b.pending
  {
    var p := b.pending[id];
    && p.retries <= b.maxRetries
    && Occurrences(b.attempts, id) == before + p.retries
    && Times(p.retries, b.timeout - SLACK) <= p.sentAt - start <= Times(p.retries, b.timeout + step)
    && p.sentAt <= b.time && (b.time == p.sentAt || !Due(p, b.time, b.timeout))
  }

  /** The bounds on the moment an unanswered message is given up. */
  ghost predicate GivenUpOnTime(b: Bus, id: string, time: real, start: real, before: nat, step: real) {
    && Occurrences(b.attempts, id) == before + b.maxRetries
    && Times(b.maxRetries + 1, b.timeout - SLACK) <= time - start <= Times(b.maxRetries + 1, b.timeout + step)
  }

  lemma ScheduleStep(b: Bus, e: Event, id: string, start: real, before: nat, step: real)
    requires Sound(b) && id in b.pending && Unanswered(b, b.pending[id].message) && Spares(b, e, id, step)
    requires b.timeout > 0.0 && step >= 0.0
    requires OnSchedule(b, id, start, before, step)
    ensures var b' := Apply(b, e);
      if id in b'.pending then OnSchedule(b', id, start, before, step)
      else GivenUpOnTime(b', id, b'.time, start, before, step)
  {
    SparedEntry(b, e, id, step);
  }

  lemma {:induction false} RetryAllAddsNothing(b: Bus, ids: seq<string>, order: Order, id: string)
    requires Sound(b) && id !in b.pending
    ensures var b' := RetryAll(b, ids, order);
      id !in b'.pending && Occurrences(b'.attempts, id) == Occurrences(b.attempts, id)
    decreases |ids|
  {
    if ids != [] {
      RetryOneEffect(b, ids[0], order);
      RetryAllAddsNothing(RetryOne(b, ids[0], order), ids[1..], order, id);
    }
  }

  lemma SparedStaysAway(b: Bus, e: Event, id: string, step: real)
    requires Sound(b) && id !in b.pending && Spares(b, e, id, step)
    ensures id !in Apply(b, e).pending && Occurrences(Apply(b, e).attempts, id) == Occurrences(b.attempts, id)
  {
    match e {
      case DoSend(m, order) =>
        SendEffect(b, m, order);
        assert (b.attempts + [Sent(b, m).id])[..|b.attempts|] == b.attempts;
      case DoAdvance(seconds, order) =>
        var b1 := b.(time := b.time + seconds);
        ClockOk(b, b.time + seconds);
        RetryAllAddsNothing(b1, order(b.pending.Keys), order, id);
      case _ =>
    }
  }

  /** The k-th event spares the message, which nobody would answer. */
  ghost predicate SparedAt(states: seq<Bus>, events: seq<Event>, k: nat, id: string, step: real)
    requires k < |events| && |states| == |events| + 1
  {
    && Spares(states[k], events[k], id, step)
    && (id in states[k].pending ==> Unanswered(states[k], states[k].pending[id].message))
  }

  /** The message was given up by the k-th event, at a time within the bounds. */
  ghost predicate GivenUpBy(states: seq<Bus>, k: nat, id: string, start: real, before: nat, step: real)
    requires k + 1 < |states|
  {
    && id in states[k].pending && id !in states[k + 1].pending
    && GivenUpOnTime(states[k + 1], id, states[k + 1].time, start, before, step)
  }

  /** From there on the message is neither pending nor dispatched again. */
  ghost predicate GoneSince(states: seq<Bus>, from: nat, to: nat, id: string)
    requires from <= to < |states|
  {
    forall k :: from <= k <= to ==> GoneAt(states, from, k, id)
  }

  ghost predicate GoneAt(states: seq<Bus>, from: nat, k: nat, id: string)
    requires from <= k < |states|
  {
    id !in states[k].pending && Occurrences(states[k].attempts, id) == Occurrences(states[from].attempts, id)
  }

  /** The message was given up by the k-th event, and has not come back. */
  ghost predicate GivenUpAt(states: seq<Bus>, k: nat, j: nat, id: string, start: real, before: nat, step: real)
    requires k < j < |states|
  {
    GivenUpBy(states, k, id, start, before, step) && GoneSince(states, k + 1, j, id)
  }

  /** What has become of a message sent at states[i] by the time of states[j]. */
  ghost predicate Scheduled(states: seq<Bus>, i: nat, j: nat, id: string, step: real)
    requires i <= j < |states|
  {
    var start, before := states[i].time, Occurrences(states[i].attempts, id);
    if id in states[j].pending then OnSchedule(states[j], id, start, before, step)
    else exists k :: i <= k < j && GivenUpAt(states, k, j, id, start, before, step)
  }

  lemma ScheduledStep(states: seq<Bus>, events: seq<Event>, i: nat, j: nat, id: string, step: real)
    requires i <= j < |events| && |states| == |events| + 1 && StepAt(states, events, j)
    requires Sound(states[j]) && SparedAt(states, events, j, id, step)
    requires step >= 0.0 && states[j].timeout > 0.0
    requires Scheduled(states, i, j, id, step)
    ensures Scheduled(states, i, j + 1, id, step)
  {
    var start, before := states[i].time, Occurrences(states[i].attempts, id);
    var b, b' := states[j], states[j + 1];
    if id in b.pending {
      ScheduleStep(b, events[j], id, start, before, step);
      if id !in b'.pending {
        assert GoneAt(states, j + 1, j + 1, id) && GivenUpAt(states, j, j + 1, id, start, before, step);
      }
    } else {
      var k :| i <= k < j && GivenUpAt(states, k, j, id, start, before, step);
      SparedStaysAway(b, events[j], id, step);
      GoneOneMore(states, k + 1, j, id);
      assert GivenUpAt(states, k, j + 1, id, start, before, step);
    }
  }

  lemma GoneOneMore(states: seq<Bus>, from: nat, j: nat, id: string)
    requires from <= j && j + 1 < |states| && GoneSince(states, from, j, id) && id !in states[j + 1].pending
    requires Occurrences(states[j + 1].attempts, id) == Occurrences(states[j].attempts, id)
    ensures GoneSince(states, from, j + 1, id)
  {
    assert GoneAt(states, from, j, id);
    forall k | from <= k <= j + 1 ensures GoneAt(states, from, k, id) {
      if k <= j { assert GoneAt(states, from, k, id); }
    }
  }

  lemma {:induction false} PolicyKept(states: seq<Bus>, events: seq<Event>, i: nat, j: nat, id: string, step: real)
    requires Run(states, events) && i <= j <= |events|
    requires forall k :: i <= k < j ==> SparedAt(states, events, k, id, step)
    ensures states[j].timeout == states[i].timeout && states[j].maxRetries == states[i].maxRetries
  {
    if i < j {
      PolicyKept(states, events, i, j - 1, id, step);
      RunIsSound(states, events, j - 1);
      assert StepAt(states, events, j - 1) && SparedAt(states, events, j - 1, id, step);
      SparedPolicy(states[j - 1], events[j - 1], id, step);
    }
  }

  /** As long as the message is pending its k-th retry was made between k times the timeout and k times the timeout
      plus the longest timer step; it is given up after the last retry, within the bounds for one more. */
  lemma {:induction false} PendingMessageIsOnSchedule(
      states: seq<Bus>, events: seq<Event>, i: nat, j: nat, id: string, step: real)
    requires Run(states, events) && i <= j <= |events| && step >= 0.0 && states[i].timeout > 0.0
    requires id in states[i].pending && states[i].pending[id].retries == 0
    requires states[i].pending[id].sentAt == states[i].time
    requires forall k :: i <= k < j ==> SparedAt(states, events, k, id, step)
    ensures Scheduled(states, i, j, id, step)
  {
    if i < j {
      PendingMessageIsOnSchedule(states, events, i, j - 1, id, step);
      RunIsSound(states, events, j - 1);
      PolicyKept(states, events, i, j - 1, id, step);
      assert StepAt(states, events, j - 1) && SparedAt(states, events, j - 1, id, step);
      ScheduledStep(states, events, i, j - 1, id, step);
    }
  }

  /** A message that wants an acknowledgement leaves for the first time, and nobody answers. */
  ghost predicate FirstSending(b: Bus, e: Event, id: string) {
    && e.DoSend? && e.m.requiresAck && !e.m.isAck && e.m.retryCount == 0
    && Sent(b, e.m).id == id && Unanswered(b, Sent(b, e.m))
  }

  lemma UnansweredSending(b: Bus, e: Event, id: string)
    requires Sound(b) && FirstSending(b, e, id)
    ensures JustSent(b, Apply(b, e), id)
  {
    var sent, prepared := Sent(b, e.m), Prepared(b, e.m);
    PreparedOk(b, e.m);
    assert Unanswered(prepared, sent);
    UnansweredDispatch(prepared, sent, e.order);
    DispatchEffect(prepared, sent, e.order);
    assert (b.attempts + [id])[..|b.attempts|] == b.attempts;
  }

  lemma {:induction false} TimesGrow(m: nat, n: nat, x: real)
    requires m <= n && x >= 0.0
    ensures 0.0 <= Times(m, x) <= Times(n, x)
    decreases n
  {
    if m < n { TimesGrow(m, n - 1, x); } else if m > 0 { TimesGrow(m - 1, n - 1, x); }
  }

  /** Whatever is still pending is within the time that all its attempts may take. */
  lemma PendingIsWithinTime(b: Bus, id: string, start: real, before: nat, step: real)
    requires id in b.pending && OnSchedule(b, id, start, before, step) && b.timeout > 0.0 && step >= 0.0
    ensures b.time - start <= Times(b.maxRetries + 1, b.timeout + step)
  {
    TimesGrow(b.pending[id].retries + 1, b.maxRetries + 1, b.timeout + step);
  }

  /** The message has been given up, after all its attempts, no sooner and no later than they may take. */
  ghost predicate GivenUpBetween(states: seq<Bus>, i: nat, j: nat, id: string, step: real)
    requires i < j < |states|
  {
    var start, before := states[i].time, Occurrences(states[i].attempts, id) + 1;
    exists k :: i < k < j && GivenUpAt(states, k, j, id, start, before, step)
  }

  /**
   A message that wants an acknowledgement is sent for the first time by the i-th event, and nobody ever acknowledges
   it.  With R retries, a timeout T and timer steps of at most d: until (R + 1)(T + d) has passed it may be pending,
   with one attempt and one more for each retry; after that it is not.  Once it is not, it has been dispatched exactly
   R + 1 times in all, and was given up once and for all between (R + 1)T, up to the slack, and (R + 1)(T + d) after it
   was sent.
   */
  lemma UnansweredMessageIsGivenUpOnTime(
      states: seq<Bus>, events: seq<Event>, i: nat, j: nat, id: string, step: real)
    requires Run(states, events) && i < j <= |events| && step >= 0.0 && states[i].timeout > 0.0
    requires FirstSending(states[i], events[i], id)
    requires forall k :: i < k < j ==> SparedAt(states, events, k, id, step)
    ensures PendingOrGivenUp(states, i, j, id, step)
  {
    FirstSent(states, events, i, id);
    PendingMessageIsOnSchedule(states, events, i + 1, j, id, step);
    if id in states[j].pending {
      PendingInAll(states, events, i, j, id, step);
    } else {
      GivenUpInAll(states, events, i, j, id, step);
    }
  }

  /** The message has just left for the first time. */
  ghost predicate JustSent(b: Bus, b': Bus, id: string) {
    && id in b'.pending && b'.pending[id].retries == 0 && b'.pending[id].sentAt == b'.time == b.time
    && Occurrences(b'.attempts, id) == Occurrences(b.attempts, id) + 1
    && b'.timeout == b.timeout && b'.maxRetries == b.maxRetries
  }

  lemma FirstSent(states: seq<Bus>, events: seq<Event>, i: nat, id: string)
    requires Run(states, events) && i < |events| && FirstSending(states[i], events[i], id)
    ensures JustSent(states[i], states[i + 1], id)
  {
    RunIsSound(states, events, i);
    assert StepAt(states, events, i);
    UnansweredSending(states[i], events[i], id);
  }

  lemma PendingInAll(states: seq<Bus>, events: seq<Event>, i: nat, j: nat, id: string, step: real)
    requires Run(states, events) && i < j <= |events| && id in states[j].pending && step >= 0.0
    requires Scheduled(states, i + 1, j, id, step) && JustSent(states[i], states[i + 1], id)
    requires states[i].timeout > 0.0 && forall k :: i < k < j ==> SparedAt(states, events, k, id, step)
    ensures PendingOrGivenUp(states, i, j, id, step)
  {
    PolicyKept(states, events, i + 1, j, id, step);
    PendingIsWithinTime(states[j], id, states[i].time, Occurrences(states[i].attempts, id) + 1, step);
  }

  /** What a message sent at states[i] has come to by states[j]: how often it was dispatched, and whether it is over. */
  ghost predicate PendingOrGivenUp(states: seq<Bus>, i: nat, j: nat, id: string, step: real)
    requires i < j < |states|
  {
    var b, start := states[i], states[i].time;
    var attempts := Occurrences(states[j].attempts, id) - Occurrences(b.attempts, id);
    if id in states[j].pending then
      && attempts == 1 + states[j].pending[id].retries <= 1 + b.maxRetries
      && states[j].time - start <= Times(b.maxRetries + 1, b.timeout + step)
    else
      attempts == b.maxRetries + 1 && GivenUpBetween(states, i, j, id, step)
  }

  lemma GivenUpInAll(states: seq<Bus>, events: seq<Event>, i: nat, j: nat, id: string, step: real)
    requires Run(states, events) && i < j <= |events| && id !in states[j].pending
    requires Scheduled(states, i + 1, j, id, step) && JustSent(states[i], states[i + 1], id)
    requires forall k :: i < k < j ==> SparedAt(states, events, k, id, step)
    ensures PendingOrGivenUp(states, i, j, id, step)
  {
    var start, before := states[i].time, Occurrences(states[i].attempts, id) + 1;
    var k :| i + 1 <= k < j && GivenUpAt(states, k, j, id, start, before, step);
    assert GoneAt(states, k + 1, j, id);
    PolicyKept(states, events, i + 1, k + 1, id, step);
  }

  lemma SparedPolicy(b: Bus, e: Event, id: string, step: real)
    requires Sound(b) && Spares(b, e, id, step)
    ensures Apply(b, e).timeout == b.timeout && Apply(b, e).maxRetries == b.maxRetries
  {
    match e {
      case DoSend(m, order) =>
        PreparedOk(b, m);
        DispatchEffect(Prepared(b, m), Sent(b, m), order);
      case DoAdvance(seconds, order) =>
        var b1 := b.(time := b.time + seconds);
        ClockOk(b, b.time + seconds);
        RetryAllPolicy(b1, order(b.pending.Keys), order);
      case _ =>
    }
  }

  lemma {:induction false} RetryAllPolicy(b: Bus, ids: seq<string>, order: Order)
    requires Sound(b)
    ensures var b' := RetryAll(b, ids, order); b'.timeout == b.timeout && b'.maxRetries == b.maxRetries
    decreases |ids|
  {
    if ids != [] {
      RetryOneEffect(b, ids[0], order);
      RetryAllPolicy(RetryOne(b, ids[0], order), ids[1..], order);
    }
  }

  /* ------------------------------------------------------------------ the class */

  lemma {:induction false} DeliverAllPlain(b: Bus, m: Message, recipients: seq<string>, order: Order)
    requires !WantsAck(m)
    ensures DeliverAll(b, m, recipients, order) == b.(log := b.log + PlainDeliveries(m, recipients))
    decreases |recipients|
  {
    if recipients == [] {
      assert b.log + PlainDeliveries(m, recipients) == b.log;
    } else {
      var b1 := Delivered(b, m, recipients[0]);
      DeliverAllPlain(b1, m, recipients[1..], order);
      assert b1.log + PlainDeliveries(m, recipients[1..]) == b.log + PlainDeliveries(m, recipients);
    }
  }

  /** Sending an automatic acknowledgement like any other message is what Acked says. */
  lemma SendingAnAck(b: Bus, m: Message, recipient: string, order: Order)
    ensures Send(b, AckFor(m, recipient), order) == Acked(b, m, recipient, order)
  {
    var ack := Sent(b, AckFor(m, recipient));
    var prepared := Prepared(b, AckFor(m, recipient));
    DeliverAllPlain(prepared, ack, Audience(prepared, ack, order), order);
  }

  class MessageBus {
    var units: Graph
    var handlers: set<string>
    var pendingAcks: map<string, Pending>
    var seenAutomaticMessages: set<string>
    var seenAutomaticMessageOrder: seq<string>
    var simulationTime: real
    var ackTimeoutSeconds: real
    var maxAckRetries: nat
    var automaticAck: bool
    var sequence: nat
    ghost var log: seq<Delivery>
    ghost var attempts: seq<string>
    ghost var signals: seq<Signal>
    ghost var forgotten: seq<string>

    ghost function State(): Bus
      reads this
    {
      Bus(units, handlers, pendingAcks, seenAutomaticMessages, seenAutomaticMessageOrder,
          simulationTime, ackTimeoutSeconds, maxAckRetries, automaticAck, sequence,
          log, attempts, signals, forgotten)
    }

    constructor ()
      ensures Fresh(State()) && State().timeout == 3.0 && State().maxRetries == 2
    {
      units, handlers, pendingAcks := map[], {}, map[];
      seenAutomaticMessages, seenAutomaticMessageOrder := {}, [];
      simulationTime, ackTimeoutSeconds, maxAckRetries, automaticAck, sequence := 0.0, 3.0, 2, false, 0;
      log, attempts, signals, forgotten := [], [], [], [];
    }

    method CanCommunicate(a: string, b: string) returns (r: bool)
      ensures r == Connected(units, a, b)
    {
      ghost var graph := units;
      if Connected(graph, a, b) { ConnectedNodesTakePart(graph, a, b); }
      if a !in units || b !in units { return false; }
      if !units[a].active || !units[b].active { return false; }
      if units[a].side == "" || units[b].side == "" || units[a].side != units[b].side { return false; }
      if a == b {
        ConnectedToItself(units, a);
        return true;
      }
      r := Search(units, a, b);
    }

    method RememberAutomaticMessageId(id: string)
      modifies this
      ensures State() == Remembered(old(State()), id)
    {
      if id == "" || id in seenAutomaticMessages { return; }
      seenAutomaticMessages := seenAutomaticMessages + {id};
      seenAutomaticMessageOrder := seenAutomaticMessageOrder + [id];
      while |seenAutomaticMessageOrder| > MAX_AUTOMATIC_IDS
        invariant Trimmed(State()) == Remembered(old(State()), id)
        decreases |seenAutomaticMessageOrder|
      {
        forgotten := forgotten + [seenAutomaticMessageOrder[0]];
        seenAutomaticMessages := seenAutomaticMessages - {seenAutomaticMessageOrder[0]};
        seenAutomaticMessageOrder := seenAutomaticMessageOrder[1..];
      }
    }

    method Deliver(m: Message, recipient: string)
      modifies this
      ensures State() == Delivered(old(State()), m, recipient)
    {
      log := log + [Delivery(m.id, recipient, m.automaticAck)];
    }

    method MaybeAutoAck(m: Message, recipient: string, order: Order)
      modifies this
      ensures State() == MaybeAcked(old(State()), m, recipient, order)
      decreases Rank(m), 0
    {
      if !m.requiresAck || !m.automaticAck || m.isAck { return; }
      SendingAnAck(State(), m, recipient, order);
      var _ := SendMessage(AckFor(m, recipient), order);
    }

    /** Completes a message's id and flags, and notes what it leaves pending or acknowledges. */
    method Prepare(msg: Message) returns (m: Message)
      modifies this
      ensures m == Sent(old(State()), msg) && State() == Prepared(old(State()), msg)
    {
      m := msg;
      if m.id == "" {
        sequence := sequence + 1;
        m := m.(id := "m_" + Digits(sequence));
      }
      if automaticAck && m.requiresAck { m := m.(automaticAck := true); }
      m := m.(acked := !m.requiresAck);
      assert State() == Identified(old(State()), msg).0;
      Note(m);
    }

    /** Notes that an acknowledgement is wanted, or that one has come. */
    method Note(m: Message)
      modifies this
      ensures State() == Noted(old(State()), m)
    {
      if m.requiresAck && !m.isAck {
        pendingAcks := pendingAcks[m.id := Pending(m, simulationTime, m.retryCount)];
      }
      if m.isAck && m.inReplyTo != "" && m.inReplyTo in pendingAcks {
        signals := signals + [Acknowledged(m.inReplyTo, pendingAcks[m.inReplyTo].retries)];
        pendingAcks := pendingAcks - {m.inReplyTo};
      }
    }

    method SendMessage(msg: Message, order: Order) returns (accepted: bool)
      modifies this
      ensures accepted && State() == Send(old(State()), msg, order)
      decreases Rank(msg), 3
    {
      var m := Prepare(msg);
      DispatchMessage(m, order);
      accepted := true;
    }

    method DispatchMessage(m: Message, order: Order)
      modifies this
      ensures State() == Dispatch(old(State()), m, order)
      decreases Rank(m), 2
    {
      if !m.isAck { attempts := attempts + [m.id]; }
      var audience := PickAudience(m, order);
      if m.automaticAck && m.id in seenAutomaticMessages {
        AcknowledgeAll(m, audience, order);
      } else {
        if m.automaticAck && audience != [] { RememberAutomaticMessageId(m.id); }
        DeliverToAll(m, audience, order);
      }
    }

    method PickAudience(m: Message, order: Order) returns (audience: seq<string>)
      ensures audience == Audience(State(), m, order)
    {
      audience := [];
      if m.receiver == EVERYONE {
        audience := ReachableHandlers(m, order);
      } else if m.receiver != "" {
        var reachable := CanCommunicate(m.sender, m.receiver);
        if reachable { audience := [m.receiver]; }
      }
    }

    method AcknowledgeAll(m: Message, audience: seq<string>, order: Order)
      modifies this
      ensures State() == AckAll(old(State()), m, audience, order)
      decreases Rank(m), 1
    {
      var i := 0;
      while i < |audience|
        invariant 0 <= i <= |audience|
        invariant AckAll(State(), m, audience[i..], order) == AckAll(old(State()), m, audience, order)
      {
        assert audience[i..][1..] == audience[i + 1..];
        MaybeAutoAck(m, audience[i], order);
        i := i + 1;
      }
    }

    method DeliverToAll(m: Message, audience: seq<string>, order: Order)
      modifies this
      ensures State() == DeliverAll(old(State()), m, audience, order)
      decreases Rank(m), 1
    {
      var i := 0;
      while i < |audience|
        invariant 0 <= i <= |audience|
        invariant DeliverAll(State(), m, audience[i..], order) == DeliverAll(old(State()), m, audience, order)
      {
        assert audience[i..][1..] == audience[i + 1..];
        Deliver(m, audience[i]);
        MaybeAutoAck(m, audience[i], order);
        i := i + 1;
      }
    }

    /** The handlers other than the sender that the sender can reach now. */
    method ReachableHandlers(m: Message, order: Order) returns (reachable: seq<string>)
      ensures reachable == Recipients(State(), m, order)
    {
      reachable := ReachableAmong(m.sender, order(handlers));
    }

    method ReachableAmong(sender: string, recipients: seq<string>) returns (reachable: seq<string>)
      ensures reachable == Reached(units, sender, recipients)
    {
      reachable := [];
      var i := 0;
      while i < |recipients|
        invariant 0 <= i <= |recipients|
        invariant reachable + Reached(units, sender, recipients[i..]) == Reached(units, sender, recipients)
      {
        assert recipients[i..][1..] == recipients[i + 1..];
        if recipients[i] != sender {
          var ok := CanCommunicate(sender, recipients[i]);
          if ok { reachable := reachable + [recipients[i]]; }
        }
        i := i + 1;
      }
    }

    /** Retries a pending message whose timer has run out, or gives it up after the last retry. */
    method RetryPending(id: string, order: Order)
      modifies this
      ensures State() == RetryOne(old(State()), id, order)
    {
      if id !in pendingAcks { return; }
      if simulationTime - pendingAcks[id].sentAt + SLACK < ackTimeoutSeconds { return; }
      if pendingAcks[id].retries < maxAckRetries { RetryNow(id, order); } else { GiveUp(id); }
    }

    method RetryNow(id: string, order: Order)
      requires id in pendingAcks
      modifies this
      ensures State() == RetriedNow(old(State()), id, order)
    {
      var pending := pendingAcks[id];
      Restart(id);
      DispatchMessage(Retry(pending), order);
      Signal(Retried(id, pending.retries + 1));
    }

    method GiveUp(id: string)
      requires id in pendingAcks
      modifies this
      ensures State() == GivenUp(old(State()), id)
    {
      signals := signals + [TimedOut(id, pendingAcks[id].retries)];
      pendingAcks := pendingAcks - {id};
    }

    method Restart(id: string)
      requires id in pendingAcks
      modifies this
      ensures State() == Restarted(old(State()), id)
    {
      var pending := pendingAcks[id];
      pendingAcks := pendingAcks[id := pending.(retries := pending.retries + 1, sentAt := simulationTime)];
    }

    ghost method Signal(signal: Signal)
      modifies this
      ensures State() == old(State()).(signals := old(State()).signals + [signal])
    {
      signals := signals + [signal];
    }

    method AdvanceSimulationTime(seconds: real, order: Order)
      modifies this
      ensures State() == Advance(old(State()), seconds, order)
    {
      if seconds <= 0.0 { return; }
      simulationTime := simulationTime + seconds;
      var ids := order(pendingAcks.Keys);
      RetryEach(ids, order);
    }

    method RetryEach(ids: seq<string>, order: Order)
      modifies this
      ensures State() == RetryAll(old(State()), ids, order)
    {
      var i := 0;
      while i < |ids|
        invariant 0 <= i <= |ids|
        invariant RetryAll(State(), ids[i..], order) == RetryAll(old(State()), ids, order)
      {
        assert ids[i..][1..] == ids[i + 1..];
        RetryPending(ids[i], order);
        i := i + 1;
      }
    }

    method SetAckPolicy(timeoutSeconds: real, maxRetries: int, automatic: bool)
      modifies this
      ensures State() == WithPolicy(old(State()), timeoutSeconds, maxRetries, automatic)
    {
      if timeoutSeconds > 0.0 { ackTimeoutSeconds := timeoutSeconds; }
      maxAckRetries := if maxRetries < 0 then 0 else if maxRetries > 16 then 16 else maxRetries;
      automaticAck := automatic;
    }
  }

  /** Acknowledgements come before messages that may be acknowledged. */
  function Rank(m: Message): nat { if m.isAck then 0 else 1 }
}

/**
 * The bridge as a step protocol. A step is one durable write or one event outside the process; a crash may fall between
 * any two steps, and the poll and the command handler may interleave in any order.
 */
module Bridge {
  import opened Wrappers
  import opened Tables
  import opened Commands

  // ---------------------------------------------------------------- what Agent Mesh offers

  datatype Feed = Interactions | Intents | Completions

  datatype Content =
    | DeviceControl(semantic: string)
    | Ring(gesture: string)
    | Intent(prompt: string, requested: string, dispatched: string, launch: bool)
    | Completion(session: string, displayText: string)

  datatype Item = Item(id: string, sequence: nat, createdAt: int, content: Content)

  function FeedOf(x: Item): Feed {
    match x.content
    case DeviceControl(_) => Interactions
    case Ring(_) => Interactions
    case Intent(_, _, _, _) => Intents
    case Completion(_, _) => Completions
  }

  function CursorKey(feed: Feed): string {
    match feed
    case Interactions => INTERACTION_CURSOR
    case Intents => INTENT_CURSOR
    case Completions => COMPLETION_CURSOR
  }

  // ---------------------------------------------------------------- the events an item becomes

  /** One event of an item: a random one gets a random message id, the other carries the item's own. */
  datatype Part = Part(sourceKey: string, random: bool, ttlMs: nat, receipt: Receipt)

  function SourceKey(x: Item): string {
    match x.content
    case DeviceControl(_) => "device-control:" + x.id
    case Ring(_) => "ring-interaction:" + x.id
    case Intent(_, _, _, _) => "intent:" + x.id
    case Completion(_, _) => "completion:" + x.id
  }

  function MainReceipt(x: Item, sha: string -> string): Receipt {
    match x.content
    case DeviceControl(semantic) =>
      Receipt(x.id, SourceKey(x), InteractionKind, None, None, false, false, sha(semantic))
    case Ring(gesture) =>
      Receipt(x.id, SourceKey(x), InteractionKind, None, None, false, false, sha("even_r1:" + gesture))
    case Intent(prompt, requested, dispatched, _) =>
      Receipt(x.id, SourceKey(x), IntentKind, Some(requested), Some(dispatched), true, false, sha(prompt))
    case Completion(session, displayText) =>
      Receipt(x.id, SourceKey(x), CompletionKind, Some(session), None, false, true, sha(displayText))
  }

  function MainPart(x: Item, sha: string -> string): Part {
    var ttl := match x.content case Intent(_, _, _, _) => 30000 case Completion(_, _) => 300000 case _ => 5000;
    Part(SourceKey(x), false, ttl, MainReceipt(x, sha))
  }

  function FleetPart(x: Item, sha: string -> string): Option<Part> {
    match x.content
    case Ring(gesture) =>
      var key := "ring-fleet-intent:" + x.id;
      if gesture != "double_tap" then None
      else Some(Part(key, true, 5000, Receipt("", key, InteractionKind, None, None, false, false,
        sha("ring:flight_sequence_start"))))
    case Intent(_, requested, dispatched, launch) =>
      var key := "fleet-intent:" + x.id;
      if !launch then None
      else Some(Part(key, true, 5000, Receipt("", key, IntentKind, Some(requested), Some(dispatched), false, false,
        sha("flight_sequence_start"))))
    case _ => None
  }

  /** A spoken launch phrase is a second event only while the device's node publishes the flight intent. */
  function Plan(x: Item, capable: bool, sha: string -> string): seq<Part> {
    var fleet := FleetPart(x, sha);
    if fleet.None? || (x.content.Intent? && !capable) then [MainPart(x, sha)] else [MainPart(x, sha), fleet.value]
  }

  // ---------------------------------------------------------------- the state

  datatype Drawn = Drawn(nodeId: string, sequence: nat)

  /** The poll holds the rest of a fetched page; its head has `done` events enqueued and perhaps a number drawn. */
  datatype Poll =
    | Idle
    | Working(feed: Feed, batch: seq<Item>, capable: bool, done: nat, drawn: Option<Drawn>, acked: bool)

  datatype Handler =
    | Quiet
    | Deciding(command: Command, mapping: Mapping, now: int)
    | Decided(command: Command, mapping: Mapping, now: int, verdict: Verdict)
    | Reporting(reports: seq<Lifecycle>)

  /** The durable store, the two tasks, the upstream, and what the run has done so far. */
  datatype State = State(
    store: Store,
    poll: Poll,
    handler: Handler,
    known: set<Item>,
    acked: set<string>,
    polled: set<Item>,
    skipped: set<string>,
    capable: set<string>,
    discarded: set<string>,
    receipts: map<string, Receipt>,
    sent: map<FrameId, Drawn>,
    ended: map<string, nat>,
    crashes: nat)

  const START := State(EMPTY_STORE, Idle, Quiet, {}, {}, {}, {}, {}, {}, map[], map[], map[], 0)

  function Cursor(s: State, feed: Feed): nat { Number(s.store, CursorKey(feed)) }

  function Head(s: State): Item
    requires s.poll.Working? && s.poll.batch != []
  {
    s.poll.batch[0]
  }

  /** How often a terminal lifecycle of the command was handed to the outbox. */
  function Ended(s: State, commandId: string): nat { if commandId in s.ended then s.ended[commandId] else 0 }

  // ---------------------------------------------------------------- the steps

  datatype Step =
    | Grow(item: Item)
    | Fetch(feed: Feed, page: seq<Item>, able: bool)
    | FetchEmpty(feed: Feed, next: nat)
    | Draw(nodeId: string)
    | Enqueue(token: string, freshId: string, session: string)
    | AckUpstream
    | SetCursor(able: bool)
    | SkipCompletion(mapping: Mapping, able: bool)
    | AckEvent(frameId: FrameId)
    | AckLifecycle(frameId: FrameId)
    | DropUndeliverable(session: string, at: int)
    | Receive(command: Command, mapping: Mapping, at: int)
    | Decide
    | Update
    | Report
    | Reconnect
    | Crash

  ghost predicate Ascending(batch: seq<Item>) {
    forall i, j :: 0 <= i < j < |batch| ==> batch[i].sequence < batch[j].sequence
  }

  /** Every known item of the feed from the cursor up to `last` is in the page or was acknowledged before. */
  ghost predicate Complete(s: State, feed: Feed, page: seq<Item>, last: nat) {
    forall x :: x in s.known && FeedOf(x) == feed && Cursor(s, feed) < x.sequence <= last ==>
      x in page || x.id in s.acked
  }

  /** An ascending page of known items above the cursor, without gaps. */
  ghost predicate Page(s: State, feed: Feed, page: seq<Item>) {
    && page != [] && Ascending(page) && Complete(s, feed, page, page[|page| - 1].sequence)
    && forall i :: 0 <= i < |page| ==>
      page[i] in s.known && FeedOf(page[i]) == feed && Cursor(s, feed) < page[i].sequence
  }

  predicate HeadDone(s: State, sha: string -> string) {
    s.poll.Working? && s.poll.batch != [] && s.poll.done == |Plan(Head(s), s.poll.capable, sha)|
  }

  /** Upstream ids are unique and its sequences ascend past every cursor; random ids are new. */
  ghost predicate Enabled(s: State, step: Step, sha: string -> string) {
    match step
    case Grow(x) =>
      && x.id !in s.receipts && x.id !in s.acked && x.id !in s.skipped && Cursor(s, FeedOf(x)) < x.sequence
      && forall y :: y in s.known ==> y.id != x.id && (FeedOf(y) == FeedOf(x) ==> y.sequence < x.sequence)
    case Fetch(feed, page, _) => s.poll.Idle? && Page(s, feed, page)
    case FetchEmpty(feed, next) => s.poll.Idle? && Complete(s, feed, [], next)
    case Draw(_) =>
      s.poll.Working? && s.poll.batch != [] && s.poll.drawn.None? && s.poll.done < |Plan(Head(s), s.poll.capable, sha)|
    case Enqueue(token, freshId, _) =>
      && s.poll.Working? && s.poll.batch != [] && s.poll.drawn.Some? &&
        s.poll.done < |Plan(Head(s), s.poll.capable, sha)|
      && Random(token) !in s.sent && freshId !in s.receipts && forall x :: x in s.known ==> x.id != freshId
    case AckUpstream => HeadDone(s, sha) && s.poll.feed != Completions && !s.poll.acked
    case SetCursor(_) => HeadDone(s, sha) && (s.poll.feed == Completions || s.poll.acked)
    case SkipCompletion(m, _) =>
      && s.poll.Working? && s.poll.batch != [] && Head(s).content.Completion? && s.poll.done == 0 && s.poll.drawn.None?
      && (Head(s).content.session in s.store.routes ==>
        s.store.routes[Head(s).content.session].targetNodeId !in m.nodes)
    case AckEvent(_) => true
    case AckLifecycle(_) => true
    case DropUndeliverable(_, _) => true
    case Receive(_, _, _) => s.handler.Quiet?
    case Decide => s.handler.Deciding?
    case Update => s.handler.Decided?
    case Report => s.handler.Reporting? && s.handler.reports != []
    case Reconnect => s.handler.Quiet?
    case Crash => true
  }

  function EventOf(s: State, part: Part, token: string, freshId: string, session: string): EventFrame
    requires s.poll.Working? && s.poll.batch != [] && s.poll.drawn.Some?
  {
    EventFrame(
      Random(token), if part.random then freshId else Head(s).id, session, s.poll.drawn.value.nodeId,
      s.poll.drawn.value.sequence, Head(s).createdAt, part.ttlMs)
  }

  /** The call stores its frame or finds its key; a throw ends the connection and with it the poll. */
  function Enqueued(s: State, part: Part, frame: EventFrame): State
    requires s.poll.Working?
  {
    var stored := Fits(s.store, part.sourceKey, frame);
    s.(store := EnqueueEvent(s.store, part.sourceKey, frame, part.receipt),
       poll := if EnqueueReturns(s.store, part.sourceKey, frame) then s.poll.(done := s.poll.done + 1, drawn := None)
       else Idle, receipts := if stored then
         s.receipts[frame.messageId := part.receipt.(messageId := frame.messageId, sourceKey := part.sourceKey)]
         else s.receipts,
       sent := if stored then s.sent[frame.frameId := Drawn(frame.nodeId, frame.sequence)] else s.sent)
  }

  /** The rest of the page, from its next item. */
  function Advance(poll: Poll, able: bool): Poll
    requires poll.Working? && poll.batch != []
  {
    if |poll.batch| == 1 then Idle else Working(poll.feed, poll.batch[1..], able, 0, None, false)
  }

  function DroppedKeys(s: Store, session: string, at: int): set<string> {
    set f | f in s.events && Undeliverable(s.events[f], session, at) :: s.events[f].sourceKey
  }

  function Received(s: State, c: Command, m: Mapping, at: int): State {
    if c.commandId in s.store.commands then
      var row := s.store.commands[c.commandId];
      if SameOperation(row, c) && !IsTerminal(row.stage) then s.(handler := Deciding(c, m, at)) else s
    else if IdempotencyUsed(s.store, c.idempotencyKey) then s
    else s.(store := RecordCommand(s.store, c.commandId, NewRow(c, at)), handler := Deciding(c, m, at))
  }

  function Updated(s: State): State
    requires s.handler.Decided?
  {
    var c, v := s.handler.command, s.handler.verdict;
    s.(store := UpdateCommand(s.store, c.commandId, v.stage, s.handler.now),
       handler := Reporting(Reports(c, v)))
  }

  function Reported(s: State): State
    requires s.handler.Reporting? && s.handler.reports != []
  {
    var l, rest := s.handler.reports[0], s.handler.reports[1..];
    s.(store := EnqueueLifecycle(s.store, l),
       handler := if rest == [] then Quiet else Reporting(rest),
       ended := if IsTerminal(l.stage) then s.ended[l.commandId := Ended(s, l.commandId) + 1] else s.ended)
  }

  ghost function Taken(s: State, step: Step, sha: string -> string): State
    requires Enabled(s, step, sha)
  {
    match step
    case Grow(x) => s.(known := s.known + {x})
    case Fetch(feed, page, able) =>
      s.(poll := Working(feed, page, able, 0, None, false), polled := s.polled + (set x | x in page))
    case FetchEmpty(feed, next) =>
      if next > Cursor(s, feed) then s.(store := SetNumber(s.store, CursorKey(feed), next)) else s
    case Draw(nodeId) =>
      var next := Number(s.store, NodeKey(nodeId)) + 1;
      s.(store := SetNumber(s.store, NodeKey(nodeId), next), poll := s.poll.(drawn := Some(Drawn(nodeId, next))))
    case Enqueue(token, freshId, session) =>
      var part := Plan(Head(s), s.poll.capable, sha)[s.poll.done];
      Enqueued(s, part, EventOf(s, part, token, freshId, session))
    case AckUpstream =>
      s.(acked := s.acked + {Head(s).id},
         capable := if s.poll.capable then s.capable + {Head(s).id} else s.capable,
         poll := s.poll.(acked := true))
    case SetCursor(able) =>
      s.(store := SetNumber(s.store, CursorKey(s.poll.feed), Head(s).sequence), poll := Advance(s.poll, able))
    case SkipCompletion(_, able) =>
      s.(store := SetNumber(s.store, CursorKey(s.poll.feed), Head(s).sequence), poll := Advance(s.poll, able),
         skipped := s.skipped + {Head(s).id})
    case AckEvent(f) => s.(store := AcknowledgeFrame(s.store, f))
    case AckLifecycle(f) => s.(store := AcknowledgeLifecycle(s.store, f))
    case DropUndeliverable(session, at) =>
      s.(store := Discard(s.store, session, at), discarded := s.discarded + DroppedKeys(s.store, session, at))
    case Receive(c, m, at) => Received(s, c, m, at)
    case Decide =>
      var v := Judge(s.store, s.handler.command, s.handler.mapping, s.handler.now, sha);
      s.(store := Remember(s.store, v.route), handler := Decided(s.handler.command, s.handler.mapping, s.handler.now,
        v))
    case Update => Updated(s)
    case Report => Reported(s)
    case Reconnect => s.(poll := Idle)
    case Crash => s.(poll := Idle, handler := Quiet, crashes := s.crashes + 1)
  }

  /** A step that is not enabled does not happen. */
  ghost function Apply(s: State, step: Step, sha: string -> string): State {
    if Enabled(s, step, sha) then Taken(s, step, sha) else s
  }

  /** A run is the states it passes through, from an empty database, and the steps between them. */
  ghost predicate IsRun(states: seq<State>, steps: seq<Step>, sha: string -> string) {
    && |states| == |steps| + 1 && states[0] == START
    && forall i :: 0 <= i < |steps| ==>
      Enabled(states[i], steps[i], sha) && states[i + 1] == Apply(states[i], steps[i], sha)
  }
}

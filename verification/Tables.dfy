/** The bridge's durable tables and what each outbox operation makes of them; one operation is one transaction. */
module Tables {
  import opened Wrappers
  import opened Text

  datatype Stage =
    | Proposed | Validated | Authorized | Dispatched | Accepted | Running
    | Succeeded | Failed | Cancelled | TimedOut | Rejected

  predicate IsTerminal(stage: Stage) {
    stage.Succeeded? || stage.Failed? || stage.Cancelled? || stage.TimedOut? || stage.Rejected?
  }

  /** Random identifiers are tokens; a lifecycle's identifier is derived from its command and stage. */
  datatype FrameId = Random(token: string) | Derived(commandId: string, stage: Stage)

  datatype Kind = IntentKind | InteractionKind | CompletionKind

  datatype Receipt = Receipt(
    messageId: string,
    sourceKey: string,
    kind: Kind,
    sessionId: Option<string>,
    dispatchedSessionId: Option<string>,
    alreadyDispatched: bool,
    legacyDisplayDelivered: bool,
    semanticSha256: string)

  datatype EventFrame = EventFrame(
    frameId: FrameId, messageId: string, sessionId: string, nodeId: string, sequence: nat, timestamp: int, ttlMs: int)

  /** A row of the event outbox. */
  datatype EventRow = EventRow(sourceKey: string, frame: EventFrame, receipt: Receipt)

  /** A row of the accepted receipts. */
  datatype AcceptedRow = AcceptedRow(sourceKey: string, receipt: Receipt)

  datatype Lifecycle = Lifecycle(commandId: string, stage: Stage, sessionId: string, code: Option<string>)

  datatype CommandRow = CommandRow(
    idempotencyKey: string, targetNodeId: string, stage: Stage, correlationId: string, updatedAt: int)

  datatype Route = Route(targetNodeId: string, correlationId: string, updatedAt: int)

  datatype Store = Store(
    state: map<string, nat>,
    events: map<FrameId, EventRow>,
    accepted: map<string, AcceptedRow>,
    lifecycles: map<FrameId, Lifecycle>,
    commands: map<string, CommandRow>,
    routes: map<string, Route>)

  const EMPTY_STORE := Store(map[], map[], map[], map[], map[], map[])

  // ---------------------------------------------------------------- counters and cursors

  function NodeKey(nodeId: string): string { "node-sequence:" + nodeId }

  const INTERACTION_CURSOR := "agent-mesh-interaction-cursor"
  const INTENT_CURSOR := "agent-mesh-intent-cursor"
  const COMPLETION_CURSOR := "agent-mesh-completion-cursor"

  function Number(s: Store, key: string): nat { if key in s.state then s.state[key] else 0 }

  function SetNumber(s: Store, key: string, value: nat): Store { s.(state := s.state[key := value]) }

  /** Counters of different nodes, and counters and cursors, never share a key. */
  lemma KeysApart(a: string, b: string)
    ensures NodeKey(a) == NodeKey(b) ==> a == b
    ensures NodeKey(a) != INTERACTION_CURSOR && NodeKey(a) != INTENT_CURSOR && NodeKey(a) != COMPLETION_CURSOR
    ensures INTERACTION_CURSOR != INTENT_CURSOR && INTENT_CURSOR != COMPLETION_CURSOR &&
            INTERACTION_CURSOR != COMPLETION_CURSOR
  {
    assert NodeKey(a)[14..] == a && NodeKey(b)[14..] == b;
    assert NodeKey(a)[0] == 'n' && INTERACTION_CURSOR[0] == INTENT_CURSOR[0] == COMPLETION_CURSOR[0] == 'a';
    assert |INTERACTION_CURSOR| != |INTENT_CURSOR| && |INTENT_CURSOR| != |COMPLETION_CURSOR|;
    assert INTERACTION_CURSOR[11] == 'i' && COMPLETION_CURSOR[11] == 'c';
  }

  // ---------------------------------------------------------------- events

  predicate PendingKey(s: Store, sourceKey: string) { exists f :: f in s.events && s.events[f].sourceKey == sourceKey }

  predicate PendingMessage(s: Store, messageId: string) {
    exists f :: f in s.events && s.events[f].frame.messageId == messageId
  }

  predicate AcceptedKey(s: Store, sourceKey: string) {
    exists m :: m in s.accepted && s.accepted[m].sourceKey == sourceKey
  }

  /** None of the frame id, the message id and the source key is pending. */
  predicate Fits(s: Store, sourceKey: string, frame: EventFrame) {
    frame.frameId !in s.events && !PendingMessage(s, frame.messageId) && !PendingKey(s, sourceKey)
  }

  /** Inserts the row, unless one of its unique columns is already taken. */
  function EnqueueEvent(s: Store, sourceKey: string, frame: EventFrame, receipt: Receipt): Store {
    if !Fits(s, sourceKey, frame) then s
    else
      s.(events := s.events[frame.frameId :=
           EventRow(sourceKey, frame, receipt.(messageId := frame.messageId, sourceKey := sourceKey))])
  }

  /** The call returns when its source key is then pending or accepted; otherwise it throws. */
  predicate EnqueueReturns(s: Store, sourceKey: string, frame: EventFrame) {
    PendingKey(s, sourceKey) || AcceptedKey(s, sourceKey) || Fits(s, sourceKey, frame)
  }

  lemma EnqueueReturnsExactly(s: Store, sourceKey: string, frame: EventFrame, receipt: Receipt)
    ensures var after := EnqueueEvent(s, sourceKey, frame, receipt);
            EnqueueReturns(s, sourceKey, frame) <==> PendingKey(after, sourceKey) || AcceptedKey(after, sourceKey)
  {
    var after := EnqueueEvent(s, sourceKey, frame, receipt);
    if after != s { assert after.events[frame.frameId].sourceKey == sourceKey; }
  }

  /** Moves a pending row to the accepted receipts, unless its message id or source key is already accepted. */
  function AcknowledgeFrame(s: Store, frameId: FrameId): Store {
    if frameId !in s.events then s
    else
      var row := s.events[frameId];
      var kept := s.(events := s.events - {frameId});
      if row.frame.messageId in s.accepted || AcceptedKey(s, row.sourceKey) then kept
      else kept.(accepted := s.accepted[row.frame.messageId := AcceptedRow(row.sourceKey, row.receipt)])
  }

  predicate Undeliverable(row: EventRow, sessionId: string, now: int) {
    row.frame.sessionId != sessionId || row.frame.timestamp + row.frame.ttlMs <= now
  }

  function Deliverable(events: map<FrameId, EventRow>, sessionId: string, now: int): map<FrameId, EventRow> {
    map f | f in events && !Undeliverable(events[f], sessionId, now) :: events[f]
  }

  function OfSession(lifecycles: map<FrameId, Lifecycle>, sessionId: string): map<FrameId, Lifecycle> {
    map f | f in lifecycles && lifecycles[f].sessionId == sessionId :: lifecycles[f]
  }

  /** Drops events of another session or past their time to live, and lifecycles of another session. */
  function Discard(s: Store, sessionId: string, now: int): Store {
    s.(events := Deliverable(s.events, sessionId, now), lifecycles := OfSession(s.lifecycles, sessionId))
  }

  /** The pending row of a message, which its uniqueness makes the only one. */
  ghost function PendingReceipt(s: Store, messageId: string): Option<Receipt> {
    if PendingMessage(s, messageId) then
      var f :| f in s.events && s.events[f].frame.messageId == messageId;
      Some(s.events[f].receipt)
    else None
  }

  /** A pending receipt comes before an accepted one. */
  ghost function ReceiptForMessage(s: Store, messageId: string): Option<Receipt> {
    if PendingMessage(s, messageId) then PendingReceipt(s, messageId)
    else if messageId in s.accepted then Some(s.accepted[messageId].receipt)
    else None
  }

  /** Acknowledging loses a key exactly when its message was accepted before under other keys only. */
  lemma AcknowledgeKeepsKeyExactly(s: Store, f: FrameId)
    requires f in s.events
    ensures AcceptedKey(AcknowledgeFrame(s, f), s.events[f].sourceKey) <==>
            s.events[f].frame.messageId !in s.accepted || AcceptedKey(s, s.events[f].sourceKey)
  {
    var t, row := AcknowledgeFrame(s, f), s.events[f];
    if m :| m in s.accepted && s.accepted[m].sourceKey == row.sourceKey {
      assert t.accepted[m].sourceKey == row.sourceKey;
    } else if row.frame.messageId !in s.accepted {
      assert t.accepted[row.frame.messageId].sourceKey == row.sourceKey;
    }
  }

  /** And it loses the message's receipt exactly when the key was accepted before under other messages only. */
  lemma AcknowledgeKeepsReceiptExactly(s: Store, f: FrameId)
    requires Consistent(s) && f in s.events
    ensures ReceiptForMessage(AcknowledgeFrame(s, f), s.events[f].frame.messageId).Some? <==>
            s.events[f].frame.messageId in s.accepted || !AcceptedKey(s, s.events[f].sourceKey)
  {
    hide AcceptedConsistent, CommandsConsistent, LifecyclesConsistent;
    assert !PendingMessage(AcknowledgeFrame(s, f), s.events[f].frame.messageId);
  }

  /** An accepted key that is no longer pending is stored and delivered again: delivery is at least once. */
  lemma EnqueueIgnoresAccepted(s: Store, sourceKey: string, frame: EventFrame, receipt: Receipt)
    requires AcceptedKey(s, sourceKey) && !PendingKey(s, sourceKey) && !PendingMessage(s, frame.messageId) &&
             frame.frameId !in s.events
    ensures PendingKey(EnqueueEvent(s, sourceKey, frame, receipt), sourceKey)
  {
    assert EnqueueEvent(s, sourceKey, frame, receipt).events[frame.frameId].sourceKey == sourceKey;
  }

  // ---------------------------------------------------------------- commands

  predicate IdempotencyUsed(s: Store, key: string) {
    exists c :: c in s.commands && s.commands[c].idempotencyKey == key
  }

  /** The call returns for a new row and for the stored row of the same operation; a reused identity throws. */
  predicate RecordReturns(s: Store, commandId: string, row: CommandRow) {
    if commandId in s.commands || IdempotencyUsed(s, row.idempotencyKey) then
      commandId in s.commands &&
      (forall c :: c in s.commands && s.commands[c].idempotencyKey == row.idempotencyKey ==> c == commandId) &&
      s.commands[commandId].targetNodeId == row.targetNodeId && s.commands[commandId].correlationId == row.correlationId
    else true
  }

  function RecordCommand(s: Store, commandId: string, row: CommandRow): Store {
    if commandId in s.commands || IdempotencyUsed(s, row.idempotencyKey) then s
    else s.(commands := s.commands[commandId := row])
  }

  function UpdateCommand(s: Store, commandId: string, stage: Stage, now: int): Store {
    if commandId in s.commands then
      s.(commands := s.commands[commandId := s.commands[commandId].(stage := stage, updatedAt := now)])
    else s
  }

  function RecordRoute(s: Store, agentSession: string, route: Route): Store {
    s.(routes := s.routes[agentSession := route])
  }

  // ---------------------------------------------------------------- lifecycles

  function LifecycleId(l: Lifecycle): FrameId { Derived(l.commandId, l.stage) }

  predicate LifecyclePending(s: Store, l: Lifecycle) {
    exists f :: f in s.lifecycles && s.lifecycles[f].commandId == l.commandId && s.lifecycles[f].stage == l.stage
  }

  function EnqueueLifecycle(s: Store, l: Lifecycle): Store {
    if LifecycleId(l) in s.lifecycles || LifecyclePending(s, l) then s
    else s.(lifecycles := s.lifecycles[LifecycleId(l) := l])
  }

  function AcknowledgeLifecycle(s: Store, frameId: FrameId): Store { s.(lifecycles := s.lifecycles - {frameId}) }

  // ---------------------------------------------------------------- consistency

  /** One pending row a message and a source key, each with a receipt that carries both. */
  ghost predicate EventsConsistent(events: map<FrameId, EventRow>) {
    && (forall f, g :: f in events && g in events && f != g ==>
          events[f].frame.messageId != events[g].frame.messageId && events[f].sourceKey != events[g].sourceKey)
    && (forall f :: f in events ==>
          events[f].frame.frameId == f && events[f].receipt.messageId == events[f].frame.messageId &&
          events[f].receipt.sourceKey == events[f].sourceKey)
  }

  ghost predicate AcceptedConsistent(accepted: map<string, AcceptedRow>) {
    && (forall m, n :: m in accepted && n in accepted && m != n ==> accepted[m].sourceKey != accepted[n].sourceKey)
    && (forall m :: m in accepted ==>
      accepted[m].receipt.messageId == m && accepted[m].receipt.sourceKey == accepted[m].sourceKey)
  }

  ghost predicate CommandsConsistent(commands: map<string, CommandRow>) {
    forall c, d :: c in commands && d in commands && c != d ==> commands[c].idempotencyKey != commands[d].idempotencyKey
  }

  ghost predicate LifecyclesConsistent(lifecycles: map<FrameId, Lifecycle>) {
    forall f :: f in lifecycles ==> f == LifecycleId(lifecycles[f])
  }

  /** The uniqueness rules of the tables. */
  ghost predicate Consistent(s: Store) {
    && EventsConsistent(s.events)
    && AcceptedConsistent(s.accepted)
    && CommandsConsistent(s.commands)
    && LifecyclesConsistent(s.lifecycles)
  }

  /** Counters, cursors and routes have no uniqueness rule of their own. */
  lemma SameTables(s: Store, t: Store)
    requires Consistent(s)
    requires s.events == t.events && s.accepted == t.accepted && s.lifecycles == t.lifecycles &&
             s.commands == t.commands
    ensures Consistent(t)
  {
  }

  lemma EnqueueConsistent(s: Store, sourceKey: string, frame: EventFrame, receipt: Receipt)
    requires Consistent(s)
    ensures Consistent(EnqueueEvent(s, sourceKey, frame, receipt))
  {
    hide AcceptedConsistent, CommandsConsistent, LifecyclesConsistent;
  }

  lemma AcknowledgeConsistent(s: Store, frameId: FrameId)
    requires Consistent(s)
    ensures Consistent(AcknowledgeFrame(s, frameId))
  {
    hide EventsConsistent, AcceptedConsistent, CommandsConsistent, LifecyclesConsistent;
    if frameId in s.events {
      EventRemoved(s.events, frameId);
      ReceiptAdded(s, frameId);
    }
  }

  lemma EventRemoved(events: map<FrameId, EventRow>, frameId: FrameId)
    requires EventsConsistent(events)
    ensures EventsConsistent(events - {frameId})
  {
  }

  lemma ReceiptAdded(s: Store, frameId: FrameId)
    requires AcceptedConsistent(s.accepted) && EventsConsistent(s.events) && frameId in s.events
    ensures AcceptedConsistent(AcknowledgeFrame(s, frameId).accepted)
  {
    var row, accepted := s.events[frameId], AcknowledgeFrame(s, frameId).accepted;
    if accepted != s.accepted {
      forall m, n | m in accepted && n in accepted && m != n ensures accepted[m].sourceKey != accepted[n].sourceKey {
        assert m in s.accepted || m == row.frame.messageId;
        assert n in s.accepted || n == row.frame.messageId;
      }
    }
  }

  lemma DiscardConsistent(s: Store, sessionId: string, now: int)
    requires Consistent(s)
    ensures Consistent(Discard(s, sessionId, now))
  {
    hide AcceptedConsistent, CommandsConsistent;
  }

  lemma RecordConsistent(s: Store, commandId: string, row: CommandRow)
    requires Consistent(s)
    ensures Consistent(RecordCommand(s, commandId, row))
  {
    hide EventsConsistent, AcceptedConsistent, LifecyclesConsistent;
  }

  lemma UpdateConsistent(s: Store, commandId: string, stage: Stage, now: int)
    requires Consistent(s)
    ensures Consistent(UpdateCommand(s, commandId, stage, now))
  {
    hide EventsConsistent, AcceptedConsistent, LifecyclesConsistent;
  }

  lemma LifecycleConsistent(s: Store, l: Lifecycle, frameId: FrameId)
    requires Consistent(s)
    ensures Consistent(EnqueueLifecycle(s, l)) && Consistent(AcknowledgeLifecycle(s, frameId))
  {
    hide EventsConsistent, AcceptedConsistent, CommandsConsistent, LifecyclePending;
  }

  /** A lifecycle is pending once it is enqueued, under its own identifier. */
  lemma LifecycleStored(s: Store, l: Lifecycle)
    requires Consistent(s)
    ensures LifecycleId(l) in EnqueueLifecycle(s, l).lifecycles
  {
    hide EventsConsistent, AcceptedConsistent, CommandsConsistent;
    if f :| f in s.lifecycles && s.lifecycles[f].commandId == l.commandId && s.lifecycles[f].stage == l.stage {
      assert f == LifecycleId(s.lifecycles[f]);
    }
  }

  lemma KeyUnique(s: Store, f: FrameId)
    requires Consistent(s) && f in s.events
    ensures forall g :: g in s.events && s.events[g].sourceKey == s.events[f].sourceKey ==> g == f
  {
  }

  /** Of two pending rows of one message there is only one, so the lookup is well defined. */
  lemma PendingUnique(s: Store, f: FrameId)
    requires Consistent(s) && f in s.events
    ensures PendingReceipt(s, s.events[f].frame.messageId) == Some(s.events[f].receipt)
  {
    assert PendingMessage(s, s.events[f].frame.messageId);
  }
}

/** The bridge's outbox object: every method is one transaction on the durable tables. */
module Outbox {
  import opened Wrappers
  import opened Tables

  class BridgeOutbox {
    var state: map<string, nat>
    var events: map<FrameId, EventRow>
    var accepted: map<string, AcceptedRow>
    var lifecycles: map<FrameId, Lifecycle>
    var commands: map<string, CommandRow>
    var routes: map<string, Route>

    ghost function Contents(): Store
      reads this
    {
      Store(state, events, accepted, lifecycles, commands, routes)
    }

    constructor ()
      ensures Contents() == EMPTY_STORE && Consistent(Contents())
    {
      state, events, accepted, lifecycles, commands, routes := map[], map[], map[], map[], map[], map[];
    }

    function StateNumber(key: string): (value: nat)
      reads this
      ensures value == Number(Contents(), key) && value == if key in state then state[key] else 0
    {
      if key in state then state[key] else 0
    }

    method SetStateNumber(key: string, value: nat)
      modifies this`state
      ensures Contents() == SetNumber(old(Contents()), key, value) && state == old(state)[key := value]
    {
      state := state[key := value];
    }

    method NextNodeSequence(nodeId: string) returns (next: nat)
      modifies this`state
      ensures next == Number(old(Contents()), NodeKey(nodeId)) + 1
      ensures state == old(state)["node-sequence:" + nodeId := next]
      ensures Contents() == SetNumber(old(Contents()), NodeKey(nodeId), next)
    {
      next := StateNumber(NodeKey(nodeId)) + 1;
      SetStateNumber(NodeKey(nodeId), next);
    }

    /** `INSERT OR IGNORE` into the event outbox. */
    method InsertEvent(sourceKey: string, frame: EventFrame, receipt: Receipt)
      modifies this`events
      ensures Contents() == Tables.EnqueueEvent(old(Contents()), sourceKey, frame, receipt)
      ensures if forall f :: f in old(events) ==>
                   f != frame.frameId && old(events)[f].frame.messageId != frame.messageId &&
                   old(events)[f].sourceKey != sourceKey
              then events == old(events)[frame.frameId := EventRow(sourceKey, frame,
                     receipt.(messageId := frame.messageId, sourceKey := sourceKey))]
              else events == old(events)
    {
      if frame.frameId !in events && !(exists f :: f in events && events[f].frame.messageId == frame.messageId) &&
         !(exists f :: f in events && events[f].sourceKey == sourceKey) {
        events := events[frame.frameId := EventRow(sourceKey, frame,
          receipt.(messageId := frame.messageId, sourceKey := sourceKey))];
      }
    }

    /**
     * The answer is the row stored under the source key, or the given frame with the accepted receipt; None is a throw.
     */
    method EnqueueEvent(sourceKey: string, frame: EventFrame, receipt: Receipt)
      returns (stored: Option<(EventFrame, Receipt)>)
      requires Consistent(Contents())
      modifies this`events
      ensures Contents() == Tables.EnqueueEvent(old(Contents()), sourceKey, frame, receipt) && Consistent(Contents())
      ensures stored.Some? <==> EnqueueReturns(old(Contents()), sourceKey, frame)
      ensures forall f :: f in events && events[f].sourceKey == sourceKey ==>
              stored == Some((events[f].frame, events[f].receipt))
      ensures stored.Some? && !PendingKey(Contents(), sourceKey) ==>
                exists m :: m in accepted && accepted[m].sourceKey == sourceKey &&
                  stored == Some((frame, accepted[m].receipt))
    {
      hide Consistent, Fits, Tables.EnqueueEvent, EnqueueReturns;
      EnqueueConsistent(Contents(), sourceKey, frame, receipt);
      EnqueueReturnsExactly(Contents(), sourceKey, frame, receipt);
      InsertEvent(sourceKey, frame, receipt);
      if f :| f in events && events[f].sourceKey == sourceKey {
        KeyUnique(Contents(), f);
        stored := Some((events[f].frame, events[f].receipt));
      } else if m :| m in accepted && accepted[m].sourceKey == sourceKey {
        stored := Some((frame, accepted[m].receipt));
      } else {
        stored := None;
      }
    }

    method AcknowledgeFrame(frameId: FrameId) returns (receipt: Option<Receipt>)
      requires Consistent(Contents())
      modifies this`events, this`accepted
      ensures Contents() == Tables.AcknowledgeFrame(old(Contents()), frameId) && Consistent(Contents())
      ensures receipt == if frameId in old(events) then Some(old(events)[frameId].receipt) else None
      ensures events == old(events) - {frameId}
      ensures if frameId in old(events) && old(events)[frameId].frame.messageId !in old(accepted) &&
                 (forall m :: m in old(accepted) ==> old(accepted)[m].sourceKey != old(events)[frameId].sourceKey)
              then accepted == old(accepted)[old(events)[frameId].frame.messageId :=
                     AcceptedRow(old(events)[frameId].sourceKey, old(events)[frameId].receipt)]
              else accepted == old(accepted)
    {
      hide Consistent;
      AcknowledgeConsistent(Contents(), frameId);
      if frameId !in events {
        return None;
      }
      var row := events[frameId];
      if row.frame.messageId !in accepted && !(exists m :: m in accepted && accepted[m].sourceKey == row.sourceKey) {
        accepted := accepted[row.frame.messageId := AcceptedRow(row.sourceKey, row.receipt)];
      }
      events := events - {frameId};
      receipt := Some(row.receipt);
    }

    method DiscardUndeliverableFrames(sessionId: string, now: int) returns (droppedEvents: nat, droppedLifecycles: nat)
      modifies this`events, this`lifecycles
      ensures Contents() == Discard(old(Contents()), sessionId, now)
      ensures forall f :: f in events <==>
              f in old(events) && old(events)[f].frame.sessionId == sessionId &&
              now < old(events)[f].frame.timestamp + old(events)[f].frame.ttlMs
      ensures forall f :: f in lifecycles <==> f in old(lifecycles) && old(lifecycles)[f].sessionId == sessionId
      ensures (forall f :: f in events ==> events[f] == old(events)[f]) &&
              (forall f :: f in lifecycles ==> lifecycles[f] == old(lifecycles)[f])
      ensures droppedEvents == |old(events)| - |events| && droppedLifecycles == |old(lifecycles)| - |lifecycles|
    {
      droppedEvents := DiscardEvents(sessionId, now);
      droppedLifecycles := DiscardLifecycles(sessionId);
    }

    method DiscardEvents(sessionId: string, now: int) returns (dropped: nat)
      modifies this`events
      ensures events == map f | f in old(events) && old(events)[f].frame.sessionId == sessionId &&
              now < old(events)[f].frame.timestamp + old(events)[f].frame.ttlMs :: old(events)[f]
      ensures dropped == |old(events)| - |events|
    {
      dropped := 0;
      var rows := events.Keys;
      while rows != {}
        invariant rows <= old(events).Keys
        invariant events == map f | f in old(events) &&
                  (f in rows || (old(events)[f].frame.sessionId == sessionId &&
                     now < old(events)[f].frame.timestamp + old(events)[f].frame.ttlMs)) :: old(events)[f]
        invariant dropped == |old(events)| - |events|
        decreases rows
      {
        var f :| f in rows;
        var expiresAt := events[f].frame.timestamp + events[f].frame.ttlMs;
        if events[f].frame.sessionId != sessionId || expiresAt <= now {
          RowDropped(events, f);
          events := events - {f};
          dropped := dropped + 1;
        }
        rows := rows - {f};
      }
    }

    method DiscardLifecycles(sessionId: string) returns (dropped: nat)
      modifies this`lifecycles
      ensures lifecycles == map f | f in old(lifecycles) && old(lifecycles)[f].sessionId == sessionId ::
              old(lifecycles)[f]
      ensures dropped == |old(lifecycles)| - |lifecycles|
    {
      dropped := 0;
      var rows := lifecycles.Keys;
      while rows != {}
        invariant rows <= old(lifecycles).Keys
        invariant lifecycles == map f | f in old(lifecycles) &&
                  (f in rows || old(lifecycles)[f].sessionId == sessionId) :: old(lifecycles)[f]
        invariant dropped == |old(lifecycles)| - |lifecycles|
        decreases rows
      {
        var f :| f in rows;
        if lifecycles[f].sessionId != sessionId {
          RowDropped(lifecycles, f);
          lifecycles := lifecycles - {f};
          dropped := dropped + 1;
        }
        rows := rows - {f};
      }
    }

    method ReceiptForMessage(messageId: string) returns (receipt: Option<Receipt>)
      requires Consistent(Contents())
      ensures receipt == Tables.ReceiptForMessage(Contents(), messageId)
    {
      if f :| f in events && events[f].frame.messageId == messageId {
        PendingUnique(Contents(), f);
        receipt := Some(events[f].receipt);
      } else if messageId in accepted {
        receipt := Some(accepted[messageId].receipt);
      } else {
        receipt := None;
      }
    }

    function Command(commandId: string): (row: Option<CommandRow>)
      reads this
      ensures row.Some? <==> commandId in Contents().commands
      ensures row.Some? ==> row.value == Contents().commands[commandId]
    {
      if commandId in commands then Some(commands[commandId]) else None
    }

    /** The row found first decides when the command and its idempotency key stand in two rows; None is a throw. */
    method RecordCommand(commandId: string, row: CommandRow) returns (stored: Option<CommandRow>)
      requires Consistent(Contents())
      modifies this`commands
      ensures Contents() == Tables.RecordCommand(old(Contents()), commandId, row) && Consistent(Contents())
      ensures RecordReturns(old(Contents()), commandId, row) ==> stored.Some?
      ensures if commandId in old(commands) ||
                 (exists c :: c in old(commands) && old(commands)[c].idempotencyKey == row.idempotencyKey)
              then commands == old(commands)
              else commands == old(commands)[commandId := row]
      ensures stored.Some? ==>
                commandId in commands && stored.value == commands[commandId] &&
                stored.value.targetNodeId == row.targetNodeId && stored.value.correlationId == row.correlationId
      ensures stored.Some? && stored.value.idempotencyKey != row.idempotencyKey ==> commandId in old(commands)
    {
      RecordConsistent(Contents(), commandId, row);
      if c :| c in commands && (c == commandId || commands[c].idempotencyKey == row.idempotencyKey) {
        if c != commandId || commands[c].targetNodeId != row.targetNodeId ||
           commands[c].correlationId != row.correlationId {
          return None;
        }
        return Some(commands[c]);
      }
      commands := commands[commandId := row];
      stored := Some(row);
    }

    method UpdateCommand(commandId: string, stage: Stage, now: int) returns (stored: Option<CommandRow>)
      requires Consistent(Contents())
      modifies this`commands
      ensures Contents() == Tables.UpdateCommand(old(Contents()), commandId, stage, now) && Consistent(Contents())
      ensures stored == if commandId in commands then Some(commands[commandId]) else None
      ensures if commandId in old(commands)
              then commands == old(commands)[commandId :=
                     old(commands)[commandId].(stage := stage, updatedAt := now)]
              else commands == old(commands)
    {
      UpdateConsistent(Contents(), commandId, stage, now);
      if commandId in commands {
        commands := commands[commandId := commands[commandId].(stage := stage, updatedAt := now)];
      }
      stored := Command(commandId);
    }

    method EnqueueLifecycle(l: Lifecycle) returns (stored: Lifecycle)
      requires Consistent(Contents())
      modifies this`lifecycles
      ensures Contents() == Tables.EnqueueLifecycle(old(Contents()), l) && Consistent(Contents())
      ensures LifecycleId(l) in lifecycles && stored == lifecycles[LifecycleId(l)]
      ensures lifecycles == if LifecycleId(l) in old(lifecycles) then old(lifecycles)
              else old(lifecycles)[LifecycleId(l) := l]
    {
      LifecycleConsistent(Contents(), l, LifecycleId(l));
      LifecycleStored(Contents(), l);
      if LifecycleId(l) !in lifecycles &&
         !(exists f :: f in lifecycles && lifecycles[f].commandId == l.commandId && lifecycles[f].stage == l.stage) {
        lifecycles := lifecycles[LifecycleId(l) := l];
      }
      stored := lifecycles[LifecycleId(l)];
    }

    method AcknowledgeLifecycleFrame(frameId: FrameId) returns (removed: bool)
      modifies this`lifecycles
      ensures Contents() == AcknowledgeLifecycle(old(Contents()), frameId)
      ensures lifecycles == old(lifecycles) - {frameId} && (removed <==> frameId in old(lifecycles))
    {
      removed := frameId in lifecycles;
      lifecycles := lifecycles - {frameId};
    }

    method RecordAgentRoute(agentSession: string, route: Route)
      modifies this`routes
      ensures Contents() == RecordRoute(old(Contents()), agentSession, route)
      ensures routes == old(routes)[agentSession := route]
    {
      routes := routes[agentSession := route];
    }

    function AgentRoute(agentSession: string): (route: Option<Route>)
      reads this
      ensures route.Some? <==> agentSession in Contents().routes
      ensures route.Some? ==> route.value == Contents().routes[agentSession]
    {
      if agentSession in routes then Some(routes[agentSession]) else None
    }
  }

  lemma RowDropped<K, V>(m: map<K, V>, k: K)
    requires k in m
    ensures |m - {k}| == |m| - 1
  {
    assert (m - {k}).Keys == m.Keys - {k};
    assert |m.Keys| == |m| && |(m - {k}).Keys| == |m - {k}|;
  }
}

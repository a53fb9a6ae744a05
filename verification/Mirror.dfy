/** What every step keeps of the commands: success is confirmed by a polled item, and a command ends at most once. */
module Mirror {
  import opened Wrappers
  import opened Tables
  import opened Commands
  import opened Bridge
  import opened Delivery

  // ---------------------------------------------------------------- one write-once map behind two tables

  /** The lookup over both tables is the write-once map, while either table has the message. */
  lemma ReceiptAgrees(s: State, messageId: string, sha: string -> string)
    requires Consistent(s.store) && ReceiptsKept(s, sha)
    ensures ReceiptForMessage(s.store, messageId) ==
            if PendingMessage(s.store, messageId) || messageId in s.store.accepted then Some(s.receipts[messageId])
               else None
  {
    hide Consistent, MainReceipt, FromPolled;
    if f :| f in s.store.events && s.store.events[f].frame.messageId == messageId { PendingUnique(s.store, f); }
  }

  // ---------------------------------------------------------------- confirmed success

  /** The item is the command's cause, asked for the very session (or any display), and has the same semantic hash. */
  ghost predicate Confirms(x: Item, c: Command, m: Mapping, sha: string -> string) {
    && c.causationId == Some(x.id)
    && (|| (c.action == AGENT_PROMPT_CAPABILITY && x.content.Intent?
            && c.targetNodeId in m.agentSessions && m.agentSessions[c.targetNodeId] == x.content.requested
            && exists prompt ::
              c.parameters == map["prompt" := TextParameter(prompt)] && sha(prompt) == sha(x.content.prompt))
        || (c.action == DISPLAY_CAPABILITY && x.content.Completion? && c.targetNodeId in m.nodes
            && exists text ::
              c.parameters == map["text" := TextParameter(text)] && sha(text) == sha(x.content.displayText)))
  }

  /** A polled item confirms the command. */
  ghost predicate Confirmed(s: State, c: Command, m: Mapping, sha: string -> string) {
    exists x :: x in s.polled && Confirms(x, c, m, sha)
  }

  lemma SuccessConfirmed(s: State, c: Command, m: Mapping, now: int, sha: string -> string)
    requires Consistent(s.store) && ReceiptsKept(s, sha) && Judge(s.store, c, m, now, sha).stage == Succeeded
    ensures Confirmed(s, c, m, sha)
  {
    hide Consistent, Judge, IsBlank, Utf8Length;
    SucceedsExactly(s.store, c, m, now, sha);
    var id := c.causationId.value;
    ReceiptAgrees(s, id, sha);
    assert FromPolled(s, id, sha);
    var x :| x in s.polled && x.id == id && s.receipts[id] == MainReceipt(x, sha);
    assert Confirms(x, c, m, sha);
  }

  // ---------------------------------------------------------------- what a step leaves alone

  lemma CommandFrame(s: State, step: Step, sha: string -> string)
    requires Enabled(s, step, sha)
    ensures var t := Apply(s, step, sha);
            && (!step.Receive? && !step.Update? ==> t.store.commands == s.store.commands)
            && (!step.Report? && !step.AckLifecycle? && !step.DropUndeliverable? ==>
              t.store.lifecycles == s.store.lifecycles)
            && (!step.Receive? && !step.Decide? && !step.Update? && !step.Report? && !step.Crash? ==>
              t.handler == s.handler)
            && (step.Crash? ==> t.handler.Quiet? && t.crashes > 0) && (!step.Crash? ==> t.crashes == s.crashes)
            && (!step.Report? ==> t.ended == s.ended)
  {
    hide Apply, Enabled;
    CommandTables(s, step, sha);
    CommandHistory(s, step, sha);
  }

  lemma CommandRows(s: State, step: Step, sha: string -> string)
    requires Enabled(s, step, sha) && !step.Receive? && !step.Update?
    ensures Apply(s, step, sha).store.commands == s.store.commands
  {
    hide Plan, Judge, Page, Complete, Fits, EnqueueReturns, EventOf, DroppedKeys, Reports, Deliverable, OfSession,
         AcceptedKey, Advance, LifecyclePending, Undeliverable, NodeKey, CursorKey, Head, Cursor, Number, Ended,
           Received, Updated;
  }

  lemma LifecycleRows(s: State, step: Step, sha: string -> string)
    requires Enabled(s, step, sha) && !step.Report? && !step.AckLifecycle? && !step.DropUndeliverable?
    ensures Apply(s, step, sha).store.lifecycles == s.store.lifecycles
  {
    hide Plan, Judge, Page, Complete, Fits, EnqueueReturns, EventOf, DroppedKeys, Reports, AcceptedKey, Advance,
         IdempotencyUsed, NodeKey, CursorKey, Head, Cursor, Number, Ended, NewRow, SameOperation, Discard,
           EnqueueLifecycle, Reported;
  }

  lemma CommandTables(s: State, step: Step, sha: string -> string)
    requires Enabled(s, step, sha)
    ensures var t := Apply(s, step, sha);
            && (!step.Receive? && !step.Update? ==> t.store.commands == s.store.commands)
            && (!step.Report? && !step.AckLifecycle? && !step.DropUndeliverable? ==>
                  t.store.lifecycles == s.store.lifecycles)
  {
    hide Apply, Enabled;
    if !step.Receive? && !step.Update? { CommandRows(s, step, sha); }
    if !step.Report? && !step.AckLifecycle? && !step.DropUndeliverable? { LifecycleRows(s, step, sha); }
  }

  lemma CommandHistory(s: State, step: Step, sha: string -> string)
    requires Enabled(s, step, sha)
    ensures var t := Apply(s, step, sha);
            && (!step.Receive? && !step.Decide? && !step.Update? && !step.Report? && !step.Crash? ==>
              t.handler == s.handler)
            && (step.Crash? ==> t.handler.Quiet? && t.crashes > 0) && (!step.Crash? ==> t.crashes == s.crashes)
            && (!step.Report? ==> t.ended == s.ended)
  {
    hide Plan, Judge, Page, Complete, Fits, EnqueueReturns, EventOf, DroppedKeys, Reports, AcknowledgeFrame, Discard,
      EnqueueEvent, RecordCommand, UpdateCommand, EnqueueLifecycle, AcknowledgeLifecycle, Remember, Advance, SetNumber;
  }

  /** The handler's steps, one equation each. */
  lemma HandlerApplied(s: State, step: Step, sha: string -> string)
    requires Enabled(s, step, sha)
    ensures step.Receive? ==> Apply(s, step, sha) == Received(s, step.command, step.mapping, step.at)
    ensures step.Decide? ==>
              var v := Judge(s.store, s.handler.command, s.handler.mapping, s.handler.now, sha);
              Apply(s, step, sha) ==
              s.(store := Remember(s.store, v.route),
                handler := Decided(s.handler.command, s.handler.mapping, s.handler.now, v))
    ensures step.Update? ==> Apply(s, step, sha) == Updated(s)
    ensures step.Crash? ==> Apply(s, step, sha) == s.(poll := Idle, handler := Quiet, crashes := s.crashes + 1)
  {
    hide Judge, Received, Updated, Remember, Plan, Page, Complete;
  }

  lemma HandlerEnabled(s: State, c: Command, m: Mapping, now: int, sha: string -> string)
    ensures s.handler.Quiet? ==> Enabled(s, Receive(c, m, now), sha)
    ensures s.handler.Deciding? ==> Enabled(s, Decide, sha)
    ensures s.handler.Decided? ==> Enabled(s, Update, sha)
  {
    hide Plan, Page, Complete;
  }

  lemma ReportApplied(s: State, sha: string -> string)
    requires s.handler.Reporting? && s.handler.reports != []
    ensures Enabled(s, Report, sha) && Apply(s, Report, sha) == Reported(s)
  {
    hide Reported, Plan, Judge, Page, Complete;
  }

  lemma ReportEnabled(s: State, sha: string -> string)
    requires Enabled(s, Report, sha)
    ensures s.handler.Reporting? && s.handler.reports != []
  {
    hide Plan, Page, Complete;
  }

  lemma HandlerMoved(s: State, step: Step, sha: string -> string)
    requires Enabled(s, step, sha)
    ensures step.Receive? ==> s.handler.Quiet?
    ensures step.Decide? ==> s.handler.Deciding?
    ensures step.Update? ==> s.handler.Decided?
    ensures step.Report? ==> s.handler.Reporting? && s.handler.reports != []
  {
    hide Plan, Page, Complete;
  }

  // ---------------------------------------------------------------- the handler between its writes

  /** The command is stored as this operation and has not ended. */
  predicate Open(s: State, c: Command) {
    && c.commandId in s.store.commands && SameOperation(s.store.commands[c.commandId], c)
    && !IsTerminal(s.store.commands[c.commandId].stage)
  }

  function Last(reports: seq<Lifecycle>): Lifecycle
    requires reports != []
  {
    reports[|reports| - 1]
  }

  /** The lifecycle states the stored end of its command. */
  predicate States(s: State, l: Lifecycle) {
    && l.commandId in s.store.commands && IsTerminal(s.store.commands[l.commandId].stage)
    && (l.stage == s.store.commands[l.commandId].stage ||
      (l.stage == Accepted && s.store.commands[l.commandId].stage == Succeeded))
  }

  predicate HandlerKept(s: State) {
    match s.handler
    case Quiet => true
    case Deciding(c, _, _) => Open(s, c)
    case Decided(c, _, _, v) => Open(s, c) && IsTerminal(v.stage)
    case Reporting(reports) =>
      && 1 <= |reports| <= 2 && States(s, reports[0]) && States(s, Last(reports)) && IsTerminal(Last(reports).stage)
      && (|reports| == 2 ==> reports[0].stage == Accepted)
  }

  /** A row never leaves, never changes its identity, and never leaves a terminal stage. */
  predicate RowsKept(s: State, t: State) {
    forall id :: id in s.store.commands ==>
      && id in t.store.commands
      && t.store.commands[id].idempotencyKey == s.store.commands[id].idempotencyKey
      && t.store.commands[id].targetNodeId == s.store.commands[id].targetNodeId
      && t.store.commands[id].correlationId == s.store.commands[id].correlationId
      && (IsTerminal(s.store.commands[id].stage) ==> t.store.commands[id] == s.store.commands[id])
  }

  lemma RowsStep(s: State, step: Step, sha: string -> string)
    requires HandlerKept(s) && Enabled(s, step, sha)
    ensures RowsKept(s, Apply(s, step, sha))
  {
    hide Apply, Enabled, HandlerKept;
    if step.Receive? || step.Update? {
      RowsWritten(s, step, sha);
    } else {
      CommandFrame(s, step, sha);
    }
  }

  lemma RowsWritten(s: State, step: Step, sha: string -> string)
    requires HandlerKept(s) && Enabled(s, step, sha) && (step.Receive? || step.Update?)
    ensures RowsKept(s, Apply(s, step, sha))
  {
    hide Apply, Enabled, HandlerKept, Received, Updated, RowsKept;
    HandlerApplied(s, step, sha);
    HandlerMoved(s, step, sha);
    if step.Receive? { RowsReceived(s, step.command, step.mapping, step.at); } else { RowsUpdated(s); }
  }

  lemma RowsReceived(s: State, c: Command, m: Mapping, at: int)
    ensures RowsKept(s, Received(s, c, m, at))
  {
    hide IdempotencyUsed, SameOperation;
  }

  lemma RowsUpdated(s: State)
    requires HandlerKept(s) && s.handler.Decided?
    ensures RowsKept(s, Updated(s))
  {
    hide SameOperation;
  }

  lemma HandlerStep(s: State, step: Step, sha: string -> string)
    requires HandlerKept(s) && Enabled(s, step, sha)
    ensures HandlerKept(Apply(s, step, sha))
  {
    hide Apply, Enabled, HandlerKept;
    if step.Receive? {
      CommandReceived(s, step, sha);
    } else if step.Decide? {
      CommandDecided(s, step, sha);
    } else if step.Update? {
      CommandUpdated(s, step, sha);
    } else if step.Report? {
      CommandReported(s, step, sha);
    } else {
      CommandFrame(s, step, sha);
      HandlerFrame(s, Apply(s, step, sha));
    }
  }

  lemma HandlerFrame(s: State, t: State)
    requires HandlerKept(s) && t.store.commands == s.store.commands && (t.handler == s.handler || t.handler.Quiet?)
    ensures HandlerKept(t)
  {
  }

  lemma CommandReceived(s: State, step: Step, sha: string -> string)
    requires HandlerKept(s) && Enabled(s, step, sha) && step.Receive?
    ensures HandlerKept(Apply(s, step, sha))
  {
    hide IdempotencyUsed, Apply;
    HandlerApplied(s, step, sha);
    if step.command.commandId !in s.store.commands && !IdempotencyUsed(s.store, step.command.idempotencyKey) {
      assert !IdempotencyUsed(s.store, NewRow(step.command, step.at).idempotencyKey);
    }
  }

  lemma CommandDecided(s: State, step: Step, sha: string -> string)
    requires HandlerKept(s) && Enabled(s, step, sha) && step.Decide?
    ensures HandlerKept(Apply(s, step, sha))
  {
    hide Judge, Apply;
    HandlerApplied(s, step, sha);
    VerdictTerminal(s.store, s.handler.command, s.handler.mapping, s.handler.now, sha);
  }

  lemma CommandUpdated(s: State, step: Step, sha: string -> string)
    requires HandlerKept(s) && Enabled(s, step, sha) && step.Update?
    ensures HandlerKept(Apply(s, step, sha))
  {
    hide Apply;
    HandlerApplied(s, step, sha);
  }

  lemma CommandReported(s: State, step: Step, sha: string -> string)
    requires HandlerKept(s) && Enabled(s, step, sha) && step.Report?
    ensures HandlerKept(Apply(s, step, sha))
  {
    hide Apply;
    ReportApplied(s, sha);
  }

  // ---------------------------------------------------------------- pending reports

  /** Every pending lifecycle states the stored end of its command. */
  predicate ReportsKept(s: State) { forall f :: f in s.store.lifecycles ==> States(s, s.store.lifecycles[f]) }

  lemma ReportsStep(s: State, step: Step, sha: string -> string)
    requires HandlerKept(s) && ReportsKept(s) && Enabled(s, step, sha)
    ensures ReportsKept(Apply(s, step, sha))
  {
    hide Apply, Enabled, HandlerKept, States;
    var t := Apply(s, step, sha);
    RowsStep(s, step, sha);
    LifecyclesMove(s, step, sha);
    if step.Report? { ReportEnabled(s, sha); }
    forall f | f in t.store.lifecycles ensures States(t, t.store.lifecycles[f]) {
      if step.Report? && t.store.lifecycles[f] == s.handler.reports[0] {
        FirstStates(s);
        StatesStay(s, t, s.handler.reports[0]);
      } else {
        StatesStay(s, t, s.store.lifecycles[f]);
      }
    }
  }

  lemma FirstStates(s: State)
    requires HandlerKept(s) && s.handler.Reporting?
    ensures s.handler.reports != [] && States(s, s.handler.reports[0])
  {
  }

  lemma StatesStay(s: State, t: State, l: Lifecycle)
    requires RowsKept(s, t) && States(s, l)
    ensures States(t, l)
  {
  }

  /** Only a report adds a lifecycle, the one it reports. */
  lemma LifecyclesMove(s: State, step: Step, sha: string -> string)
    requires Enabled(s, step, sha)
    ensures var t := Apply(s, step, sha);
            forall f :: f in t.store.lifecycles ==>
              || (f in s.store.lifecycles && t.store.lifecycles[f] == s.store.lifecycles[f])
              || (step.Report? && s.handler.Reporting? && s.handler.reports != [] &&
                t.store.lifecycles[f] == s.handler.reports[0])
  {
    hide Apply, Enabled;
    if step.Report? {
      ReportEnabled(s, sha);
      ReportApplied(s, sha);
    } else if step.DropUndeliverable? {
      DropApplied(s, step.session, step.at, sha);
    } else if step.AckLifecycle? {
      AckApplied(s, step.frameId, sha);
    } else {
      CommandTables(s, step, sha);
    }
  }

  // ---------------------------------------------------------------- one end for every command

  /** The handler is between receiving the command and its last report. */
  predicate Busy(s: State, id: string) {
    match s.handler
    case Quiet => false
    case Deciding(c, _, _) => c.commandId == id
    case Decided(c, _, _, _) => c.commandId == id
    case Reporting(reports) => reports != [] && Last(reports).commandId == id
  }

  ghost predicate EndsKept(s: State) {
    && (forall id :: Ended(s, id) <= 1)
    && (forall id :: Ended(s, id) == 1 ==>
      id in s.store.commands && IsTerminal(s.store.commands[id].stage) && !Busy(s, id))
    && (s.crashes == 0 ==> forall id :: id in s.store.commands ==> Ended(s, id) == 1 || Busy(s, id))
  }

  lemma EndsStep(s: State, step: Step, sha: string -> string)
    requires HandlerKept(s) && EndsKept(s) && Enabled(s, step, sha)
    ensures EndsKept(Apply(s, step, sha))
  {
    hide Apply, Enabled, HandlerKept, EndsKept;
    if step.Receive? || step.Decide? || step.Update? || step.Report? {
      HandlerEnds(s, step, sha);
    } else {
      CommandFrame(s, step, sha);
      EndsFrame(s, Apply(s, step, sha));
    }
  }

  lemma EndsFrame(s: State, t: State)
    requires EndsKept(s) && t.store.commands == s.store.commands && t.ended == s.ended
    requires (t.handler == s.handler && t.crashes == s.crashes) || (t.handler.Quiet? && t.crashes > 0)
    ensures EndsKept(t)
  {
    forall id ensures Ended(t, id) == Ended(s, id) {}
  }

  lemma HandlerEnds(s: State, step: Step, sha: string -> string)
    requires HandlerKept(s) && EndsKept(s) && Enabled(s, step, sha)
    requires step.Receive? || step.Decide? || step.Update? || step.Report?
    ensures EndsKept(Apply(s, step, sha))
  {
    hide Apply, Enabled, HandlerKept, EndsKept;
    if step.Report? {
      EndReported(s, step, sha);
    } else if step.Update? {
      EndStored(s, step, sha);
    } else {
      EndOpened(s, step, sha);
    }
  }

  lemma EndReported(s: State, step: Step, sha: string -> string)
    requires HandlerKept(s) && EndsKept(s) && Enabled(s, step, sha) && step.Report?
    ensures EndsKept(Apply(s, step, sha))
  {
    hide Apply, Enabled;
    ReportEnabled(s, sha);
    ReportApplied(s, sha);
    ReportCounted(s);
  }

  lemma ReportCounted(s: State)
    requires HandlerKept(s) && EndsKept(s) && s.handler.Reporting? && s.handler.reports != []
    ensures EndsKept(Reported(s))
  {
    hide EnqueueLifecycle;
    var t, l := Reported(s), s.handler.reports[0];
    forall id ensures Ended(t, id) == Ended(s, id) + if IsTerminal(l.stage) && id == l.commandId then 1 else 0 {}
    assert Busy(s, Last(s.handler.reports).commandId);
    assert t.store.commands == s.store.commands by { LifecyclesOnly(s.store, l); }
  }

  lemma LifecyclesOnly(s: Store, l: Lifecycle)
    ensures EnqueueLifecycle(s, l).commands == s.commands
  {
  }

  lemma EndStored(s: State, step: Step, sha: string -> string)
    requires HandlerKept(s) && EndsKept(s) && Enabled(s, step, sha) && step.Update?
    ensures EndsKept(Apply(s, step, sha))
  {
    hide Apply, SameOperation;
    HandlerApplied(s, step, sha);
    var t := Updated(s);
    forall id ensures Ended(t, id) == Ended(s, id) && Busy(t, id) == Busy(s, id) {}
  }

  lemma EndOpened(s: State, step: Step, sha: string -> string)
    requires EndsKept(s) && Enabled(s, step, sha) && (step.Receive? || step.Decide?)
    ensures EndsKept(Apply(s, step, sha))
  {
    hide Apply, Enabled, Judge, EndsKept, Received;
    HandlerApplied(s, step, sha);
    HandlerMoved(s, step, sha);
    if step.Receive? {
      EndReceived(s, step.command, step.mapping, step.at);
    } else {
      EndDecided(s, Apply(s, step, sha));
    }
  }

  lemma EndReceived(s: State, c: Command, m: Mapping, at: int)
    requires EndsKept(s) && s.handler.Quiet?
    ensures EndsKept(Received(s, c, m, at))
  {
    hide IdempotencyUsed, SameOperation;
    var t := Received(s, c, m, at);
    forall id ensures Ended(t, id) == Ended(s, id) {}
  }

  lemma EndDecided(s: State, t: State)
    requires EndsKept(s) && s.handler.Deciding? && t.handler.Decided? && t.handler.command == s.handler.command
    requires t.store.commands == s.store.commands && t.ended == s.ended && t.crashes == s.crashes
    ensures EndsKept(t)
  {
    forall id ensures Ended(t, id) == Ended(s, id) && Busy(t, id) == Busy(s, id) {}
  }

  /** An end that was stored but not reported is never reported. */
  predicate Unreported(s: State, id: string) {
    id in s.store.commands && IsTerminal(s.store.commands[id].stage) && Ended(s, id) == 0 && !Busy(s, id)
  }

  lemma UnreportedStep(s: State, step: Step, id: string, sha: string -> string)
    requires HandlerKept(s) && Enabled(s, step, sha) && Unreported(s, id)
    ensures Unreported(Apply(s, step, sha), id)
  {
    hide Apply, Enabled, HandlerKept;
    if step.Receive? || step.Decide? || step.Update? || step.Report? {
      UnreportedHandler(s, step, id, sha);
    } else {
      CommandFrame(s, step, sha);
    }
  }

  lemma UnreportedReceived(s: State, c: Command, m: Mapping, at: int, id: string)
    requires s.handler.Quiet? && Unreported(s, id)
    ensures Unreported(Received(s, c, m, at), id)
  {
    hide IdempotencyUsed, SameOperation, NewRow;
    if c.commandId in s.store.commands && SameOperation(s.store.commands[c.commandId], c) {
      assert c.commandId == id ==> IsTerminal(s.store.commands[c.commandId].stage);
    }
  }

  lemma UnreportedUpdated(s: State, id: string)
    requires HandlerKept(s) && s.handler.Decided? && Unreported(s, id)
    ensures Unreported(Updated(s), id)
  {
    hide SameOperation;
    var c, v := s.handler.command, s.handler.verdict;
    assert c.commandId != id;
    assert Last(Reports(c, v)).commandId == c.commandId;
  }

  lemma UnreportedReport(s: State, id: string)
    requires HandlerKept(s) && s.handler.Reporting? && s.handler.reports != [] && Unreported(s, id)
    ensures Unreported(Reported(s), id)
  {
    hide EnqueueLifecycle, SameOperation;
    LifecyclesOnly(s.store, s.handler.reports[0]);
  }

  lemma UnreportedHandler(s: State, step: Step, id: string, sha: string -> string)
    requires HandlerKept(s) && Enabled(s, step, sha) && Unreported(s, id)
    requires step.Receive? || step.Decide? || step.Update? || step.Report?
    ensures Unreported(Apply(s, step, sha), id)
  {
    hide Apply, Enabled, Judge, HandlerKept, Received, Updated, Reported;
    HandlerApplied(s, step, sha);
    HandlerMoved(s, step, sha);
    if step.Receive? {
      hide Unreported;
      UnreportedReceived(s, step.command, step.mapping, step.at, id);
    } else if step.Update? {
      hide Unreported;
      UnreportedUpdated(s, id);
    } else if step.Report? {
      hide Unreported;
      ReportApplied(s, sha);
      UnreportedReport(s, id);
    }
  }
}

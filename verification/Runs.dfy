/** The bridge's guarantees over every run, with crashes, redeliveries and reconnections anywhere. */
module Runs {
  import opened Wrappers
  import opened Tables
  import opened Commands
  import opened Bridge
  import opened Delivery
  import opened Mirror

  ghost predicate Inv(s: State, sha: string -> string) {
    && Consistent(s.store) && KnownUnique(s) && PollKept(s, sha) && ReceiptsKept(s, sha) && OriginsKept(s) &&
      SequencesKept(s)
    && NothingLost(s, sha) && HandlerKept(s) && ReportsKept(s) && EndsKept(s)
  }

  lemma InvStart(sha: string -> string)
    ensures Inv(START, sha)
  {
  }

  lemma InvStep(s: State, step: Step, sha: string -> string)
    requires Inv(s, sha) && Enabled(s, step, sha)
    ensures Inv(Apply(s, step, sha), sha)
  {
    hide Consistent, KnownUnique, PollKept, ReceiptsKept, OriginsKept, SequencesKept, NothingLost, HandlerKept,
         ReportsKept, EndsKept;
    hide Enabled, Apply, RowsKept;
    StoreKept(s, step, sha);
    KnownStep(s, step, sha);
    PollStep(s, step, sha);
    ReceiptsStep(s, step, sha);
    OriginsStep(s, step, sha);
    SequencesStep(s, step, sha);
    LossStep(s, step, sha);
    HandlerStep(s, step, sha);
    ReportsStep(s, step, sha);
    EndsStep(s, step, sha);
  }

  lemma {:induction false} Invariant(states: seq<State>, steps: seq<Step>, sha: string -> string, i: nat)
    requires IsRun(states, steps, sha) && i < |states|
    ensures Inv(states[i], sha)
  {
    hide Inv, Enabled, Apply;
    if i == 0 {
      InvStart(sha);
    } else {
      Invariant(states, steps, sha, i - 1);
      InvStep(states[i - 1], steps[i - 1], sha);
    }
  }

  // ---------------------------------------------------------------- no item is lost

  /** Every item the cursor has passed, or remembered as acknowledged, is safe or skipped. */
  lemma ItemsSafe(states: seq<State>, steps: seq<Step>, sha: string -> string, i: nat, x: Item)
    requires IsRun(states, steps, sha) && i < |states| && x in states[i].known && Through(states[i], x)
    ensures (x.content.Completion? && x.id in states[i].skipped) || Safe(states[i], SourceKey(x))
    ensures x.content.Ring? && x.content.gesture == "double_tap" ==> Safe(states[i], "ring-fleet-intent:" + x.id)
    ensures x.content.Intent? && x.content.launch && x.id in states[i].capable ==>
            Safe(states[i], "fleet-intent:" + x.id)
  {
    hide IsRun, Safe, Consistent, PollKept, ReceiptsKept, OriginsKept, SequencesKept, HandlerKept, ReportsKept,
         EndsKept;
    Invariant(states, steps, sha, i);
    var capable := x.id in states[i].capable;
    PlanShape(x, capable, sha);
    assert x.id in states[i].skipped || PlanSafe(states[i], x, capable, 2, sha);
    assert x.id in states[i].skipped || Safe(states[i], Plan(x, capable, sha)[0].sourceKey);
    if |Plan(x, capable, sha)| == 2 {
      assert x.id in states[i].skipped || Safe(states[i], Plan(x, capable, sha)[1].sourceKey);
    }
  }

  /** Storing an event never fails on a taken message id, in any reachable state. */
  lemma EnqueueNeverThrows(states: seq<State>, steps: seq<Step>, sha: string -> string, i: nat)
    requires IsRun(states, steps, sha) && i < |steps| && steps[i].Enqueue?
    ensures i + 1 < |states| && states[i].poll.Working? &&
            states[i + 1].poll == states[i].poll.(done := states[i].poll.done + 1, drawn := None)
  {
    hide NothingLost, OriginsKept, HandlerKept, ReportsKept, EndsKept, IsRun, Enabled, Apply, PollKept, ReceiptsKept,
         SequencesKept, Consistent;
    RunStep(states, steps, sha, i);
    Invariant(states, steps, sha, i);
    EnqueueStores(states[i], steps[i], sha);
  }

  lemma RunStep(states: seq<State>, steps: seq<Step>, sha: string -> string, i: nat)
    requires IsRun(states, steps, sha) && (i < |steps| || i + 1 < |states|)
    ensures i < |steps| && |states| == |steps| + 1
    ensures Enabled(states[i], steps[i], sha) && states[i + 1] == Apply(states[i], steps[i], sha)
  {
    hide Enabled, Apply;
  }

  lemma HeadKnown(s: State, sha: string -> string)
    requires PollKept(s, sha) && s.poll.Working? && s.poll.batch != []
    ensures Head(s) in s.known
  {
    hide Plan, Complete, Ascending;
  }

  lemma NumberFree(s: State, f: FrameId)
    requires SequencesKept(s) && f !in s.sent
    ensures f !in s.store.events
  {
  }

  /** A pending row's message has a receipt, and under an item's id stands that item's key. */
  lemma MessageKey(s: State, f: FrameId, x: Item, sha: string -> string)
    requires Consistent(s.store) && ReceiptsKept(s, sha) && x in s.known && f in s.store.events
    ensures s.store.events[f].frame.messageId in s.receipts
    ensures s.store.events[f].frame.messageId == x.id ==> s.store.events[f].sourceKey == SourceKey(x)
  {
    hide Plan, MainReceipt, FromPolled, AcceptedConsistent, CommandsConsistent, LifecyclesConsistent, SourceKey;
    PlanShape(x, false, sha);
    if s.store.events[f].frame.messageId == x.id { assert s.store.events[f].receipt == MainReceipt(x, sha); }
  }

  lemma EnqueueStores(s: State, step: Step, sha: string -> string)
    requires Consistent(s.store) && PollKept(s, sha) && ReceiptsKept(s, sha) && SequencesKept(s) &&
             Enabled(s, step, sha) && step.Enqueue?
    ensures s.poll.Working? && Apply(s, step, sha).poll == s.poll.(done := s.poll.done + 1, drawn := None)
  {
    hide Plan, MainReceipt, MainPart, FleetPart, EnqueueEvent, Apply, Enabled, ReceiptsKept, Consistent, SequencesKept,
         PollKept, SourceKey, AcceptedKey;
    EnqueueTaken(s, step, sha);
    PlanShape(Head(s), s.poll.capable, sha);
    HeadKnown(s, sha);
    NumberFree(s, Random(step.token));
    var part := Plan(Head(s), s.poll.capable, sha)[s.poll.done];
    var frame := EventOf(s, part, step.token, step.freshId, step.session);
    if f :| f in s.store.events && s.store.events[f].frame.messageId == frame.messageId {
      MessageKey(s, f, Head(s), sha);
      assert s.store.events[f].sourceKey == part.sourceKey;
    }
  }

  // ---------------------------------------------------------------- receipts

  /** Whenever two lookups of one message answer, at any two moments, they answer the same. */
  lemma {:induction false} ReceiptsWriteOnce(states: seq<State>, steps: seq<Step>, sha: string -> string, i: nat,
      j: nat, m: string)
    requires IsRun(states, steps, sha) && i <= j < |states|
    ensures m in states[i].receipts ==> m in states[j].receipts && states[j].receipts[m] == states[i].receipts[m]
    ensures var a, b := ReceiptForMessage(states[i].store, m), ReceiptForMessage(states[j].store, m);
            a.Some? && b.Some? ==> a == b && m in states[j].receipts && b.value == states[j].receipts[m]
  {
    hide IsRun, Consistent, KnownUnique, PollKept, ReceiptsKept, OriginsKept, SequencesKept, NothingLost, HandlerKept,
         ReportsKept, EndsKept;
    hide Enabled, Apply, Tables.ReceiptForMessage;
    if i < j {
      ReceiptsWriteOnce(states, steps, sha, i, j - 1, m);
      Invariant(states, steps, sha, j - 1);
      RunStep(states, steps, sha, j - 1);
      ReceiptsStep(states[j - 1], steps[j - 1], sha);
    }
    Invariant(states, steps, sha, i);
    Invariant(states, steps, sha, j);
    ReceiptAgrees(states[i], m, sha);
    ReceiptAgrees(states[j], m, sha);
    ReceiptWritten(states[i], m, sha);
  }

  lemma ReceiptWritten(s: State, m: string, sha: string -> string)
    requires ReceiptsKept(s, sha)
    ensures PendingMessage(s.store, m) || m in s.store.accepted ==> m in s.receipts
  {
    hide FromPolled, MainReceipt;
  }

  /** The step drops the key's event as undeliverable. */
  predicate Drops(s: State, step: Step, key: string) {
    && step.DropUndeliverable?
    && exists f ::
      && f in s.store.events && s.store.events[f].sourceKey == key
      && (s.store.events[f].frame.sessionId != step.session ||
            s.store.events[f].frame.timestamp + s.store.events[f].frame.ttlMs <= step.at)
  }

  /** An item's receipt stays from its enqueueing until its own event is dropped, and for good once it was accepted. */
  lemma {:induction false} ReceiptStays(states: seq<State>, steps: seq<Step>, sha: string -> string, i: nat, j: nat,
      x: Item)
    requires IsRun(states, steps, sha) && i <= j < |states| && x in states[i].known
    requires ReceiptForMessage(states[i].store, x.id).Some?
    requires x.id in states[i].store.accepted || forall k :: i <= k < j ==> !Drops(states[k], steps[k], SourceKey(x))
    ensures ReceiptForMessage(states[j].store, x.id) == ReceiptForMessage(states[i].store, x.id) ==
            Some(MainReceipt(x, sha))
  {
    hide IsRun, Consistent, KnownUnique, PollKept, OriginsKept, SequencesKept, NothingLost, HandlerKept, ReportsKept,
         EndsKept;
    hide Enabled, Apply, Tables.ReceiptForMessage, ReceiptsKept, MainReceipt, Drops;
    Present(states, steps, sha, i, j, x);
    Invariant(states, steps, sha, i);
    Invariant(states, steps, sha, j);
    ReceiptAgrees(states[i], x.id, sha);
    ReceiptAgrees(states[j], x.id, sha);
    MainWritten(states[i], x, sha);
    MainWritten(states[j], x, sha);
  }

  /** One step takes a receipt away exactly when it drops the item's event before that was accepted. */
  lemma ReceiptGoesExactly(states: seq<State>, steps: seq<Step>, sha: string -> string, i: nat, x: Item)
    requires IsRun(states, steps, sha) && i < |steps| && x in states[i].known
    requires ReceiptForMessage(states[i].store, x.id).Some?
    ensures i + 1 < |states|
    ensures ReceiptForMessage(states[i + 1].store, x.id) == None <==>
            Drops(states[i], steps[i], SourceKey(x)) && x.id !in states[i].store.accepted
  {
    hide IsRun, Consistent, KnownUnique, PollKept, OriginsKept, SequencesKept, NothingLost, HandlerKept, ReportsKept,
         EndsKept;
    hide Enabled, Apply, ReceiptsKept, Drops;
    RunStep(states, steps, sha, i);
    Invariant(states, steps, sha, i);
    PresentStep(states[i], steps[i], x, sha);
    if Drops(states[i], steps[i], SourceKey(x)) { DropTakes(states[i], steps[i], x, sha); }
  }

  lemma MainWritten(s: State, x: Item, sha: string -> string)
    requires ReceiptsKept(s, sha) && x in s.known && (PendingMessage(s.store, x.id) || x.id in s.store.accepted)
    ensures x.id in s.receipts && s.receipts[x.id] == MainReceipt(x, sha)
  {
    hide FromPolled, MainReceipt;
  }

  lemma {:induction false} Present(states: seq<State>, steps: seq<Step>, sha: string -> string, i: nat, j: nat, x: Item)
    requires IsRun(states, steps, sha) && i <= j < |states| && x in states[i].known
    requires ReceiptForMessage(states[i].store, x.id).Some?
    requires x.id in states[i].store.accepted || forall k :: i <= k < j ==> !Drops(states[k], steps[k], SourceKey(x))
    ensures x in states[j].known && (PendingMessage(states[j].store, x.id) || x.id in states[j].store.accepted)
    ensures x.id in states[i].store.accepted ==> x.id in states[j].store.accepted
  {
    hide IsRun, Consistent, KnownUnique, PollKept, OriginsKept, SequencesKept, NothingLost, HandlerKept, ReportsKept,
         EndsKept;
    hide Enabled, Apply, ReceiptsKept, Drops;
    if i < j {
      Present(states, steps, sha, i, j - 1, x);
      Invariant(states, steps, sha, j - 1);
      RunStep(states, steps, sha, j - 1);
      PresentStep(states[j - 1], steps[j - 1], x, sha);
    }
  }

  lemma PresentStep(s: State, step: Step, x: Item, sha: string -> string)
    requires Inv(s, sha) && Enabled(s, step, sha) && x in s.known
    ensures x in Apply(s, step, sha).known
    ensures x.id in s.store.accepted ==> x.id in Apply(s, step, sha).store.accepted
    ensures PendingMessage(s.store, x.id) && !Drops(s, step, SourceKey(x)) ==>
              PendingMessage(Apply(s, step, sha).store, x.id) || x.id in Apply(s, step, sha).store.accepted
  {
    hide KnownUnique, PollKept, SequencesKept, NothingLost, HandlerKept, ReportsKept, EndsKept;
    hide Enabled, Apply, ReceiptsKept, OriginsKept, Consistent, Drops;
    HistoryFrame(s, step, sha);
    if step.DropUndeliverable? {
      PresentKept(s, step, x, sha);
    } else if step.Enqueue? || step.AckEvent? || step.Grow? {
      PresentMoved(s, step, x, sha);
    } else {
      TableFrame(s, step, sha);
    }
  }

  /** An item's pending event has the item's own key. */
  lemma MainKey(s: State, f: FrameId, x: Item, sha: string -> string)
    requires Consistent(s.store) && ReceiptsKept(s, sha) && x in s.known
    requires f in s.store.events && s.store.events[f].frame.messageId == x.id
    ensures s.store.events[f].sourceKey == SourceKey(x)
  {
    hide FromPolled, AcceptedConsistent, CommandsConsistent, LifecyclesConsistent;
    PlanShape(x, false, sha);
  }

  lemma PresentKept(s: State, step: Step, x: Item, sha: string -> string)
    requires Consistent(s.store) && ReceiptsKept(s, sha) && step.DropUndeliverable? && x in s.known
    ensures var t := Apply(s, step, sha).store;
            t.accepted == s.store.accepted &&
            (PendingMessage(s.store, x.id) && !Drops(s, step, SourceKey(x)) ==> PendingMessage(t, x.id))
  {
    hide Apply, Consistent, ReceiptsKept, SourceKey;
    DropApplied(s, step.session, step.at, sha);
    if f :| f in s.store.events && s.store.events[f].frame.messageId == x.id {
      MainKey(s, f, x, sha);
      if !Undeliverable(s.store.events[f], step.session, step.at) {
        assert Apply(s, step, sha).store.events[f].frame.messageId == x.id;
      }
    }
  }

  lemma DropTakes(s: State, step: Step, x: Item, sha: string -> string)
    requires Consistent(s.store) && ReceiptsKept(s, sha) && x in s.known && Drops(s, step, SourceKey(x))
    ensures !PendingMessage(Apply(s, step, sha).store, x.id) && Apply(s, step, sha).store.accepted == s.store.accepted
  {
    hide Apply, Consistent, ReceiptsKept, SourceKey;
    DropApplied(s, step.session, step.at, sha);
    var t := Apply(s, step, sha).store;
    var g :|
      g in s.store.events && Undeliverable(s.store.events[g], step.session, step.at) &&
      s.store.events[g].sourceKey == SourceKey(x);
    if f :| f in t.events && t.events[f].frame.messageId == x.id {
      MainKey(s, f, x, sha);
      KeyUnique(s.store, g);
      assert false;
    }
  }

  lemma PresentMoved(s: State, step: Step, x: Item, sha: string -> string)
    requires Consistent(s.store) && ReceiptsKept(s, sha) && OriginsKept(s) && Enabled(s, step, sha) && x in s.known
    requires step.Enqueue? || step.AckEvent? || step.Grow?
    ensures x in Apply(s, step, sha).known
    ensures x.id in s.store.accepted ==> x.id in Apply(s, step, sha).store.accepted
    ensures PendingMessage(s.store, x.id) ==>
              PendingMessage(Apply(s, step, sha).store, x.id) || x.id in Apply(s, step, sha).store.accepted
  {
    hide Plan, Page, Complete, EventOf, Consistent, ReceiptsKept, OriginsKept;
    var t := Apply(s, step, sha).store;
    if step.AckEvent? { AckApplied(s, step.frameId, sha); }
    if f :| f in s.store.events && s.store.events[f].frame.messageId == x.id {
      if step.AckEvent? && step.frameId == f {
        MainAcknowledged(s, f, x, sha);
      } else {
        assert t.events[f].frame.messageId == x.id;
      }
    }
  }

  /** An item's own event is always accepted under its id: no other message has its key. */
  lemma MainAcknowledged(s: State, f: FrameId, x: Item, sha: string -> string)
    requires Consistent(s.store) && ReceiptsKept(s, sha) && OriginsKept(s)
    requires x in s.known && f in s.store.events && s.store.events[f].frame.messageId == x.id
    ensures x.id in AcknowledgeFrame(s.store, f).accepted
  {
    hide FromPolled, SourceKey, FleetShaped, CommandsConsistent, LifecyclesConsistent;
    if m :| m in s.store.accepted && s.store.accepted[m].sourceKey == s.store.events[f].sourceKey {
      assert s.receipts[m].sourceKey == SourceKey(x);
      KeysDistinct(x, x);
      var y :| y in s.known && y.id == m && s.receipts[m].sourceKey == SourceKey(y);
      KeysDistinct(x, y);
    }
  }

  // ---------------------------------------------------------------- the mirror

  /** Every polled item was in a page fetched before. */
  lemma {:induction false} PolledFetched(states: seq<State>, steps: seq<Step>, sha: string -> string, i: nat, x: Item)
    returns (p: nat)
    requires IsRun(states, steps, sha) && i < |states| && x in states[i].polled
    ensures p < i && p < |steps| && steps[p].Fetch? && x in steps[p].page
  {
    hide Enabled, Apply;
    RunStep(states, steps, sha, i - 1);
    if x in states[i - 1].polled {
      p := PolledFetched(states, steps, sha, i - 1, x);
    } else {
      p := i - 1;
      PolledNow(states[p], steps[p], x, sha);
    }
  }

  lemma PolledNow(s: State, step: Step, x: Item, sha: string -> string)
    requires Enabled(s, step, sha) && x in Apply(s, step, sha).polled && x !in s.polled
    ensures step.Fetch? && x in step.page
  {
    hide Apply, Enabled;
    HistoryFrame(s, step, sha);
    if step.Fetch? { FetchPolls(s, step, sha); }
  }

  lemma FetchPolls(s: State, step: Step, sha: string -> string)
    requires Enabled(s, step, sha) && step.Fetch?
    ensures Apply(s, step, sha).polled == s.polled + (set x | x in step.page)
  {
    hide Page;
  }

  /** A command being decided was received before. */
  lemma {:induction false} DecidingReceived(states: seq<State>, steps: seq<Step>, sha: string -> string, i: nat)
    returns (k: nat)
    requires IsRun(states, steps, sha) && i < |states| && states[i].handler.Deciding?
    ensures k < i && k < |steps| &&
            steps[k] == Receive(states[i].handler.command, states[i].handler.mapping, states[i].handler.now)
  {
    hide Enabled, Apply;
    RunStep(states, steps, sha, i - 1);
    if states[i - 1].handler == states[i].handler {
      k := DecidingReceived(states, steps, sha, i - 1);
    } else {
      k := i - 1;
      HandlerTurns(states[k], steps[k], sha);
    }
  }

  /** Which steps bring the handler to a decision, and from where. */
  lemma HandlerTurns(s: State, step: Step, sha: string -> string)
    requires Enabled(s, step, sha) && Apply(s, step, sha).handler != s.handler
    ensures var h := Apply(s, step, sha).handler;
            && (h.Deciding? ==> step == Receive(h.command, h.mapping, h.now))
            && (h.Decided? ==>
                  step == Decide && s.handler == Deciding(h.command, h.mapping, h.now) &&
                  h.verdict == Judge(s.store, h.command, h.mapping, h.now, sha))
  {
    hide Apply, Enabled, Judge;
    CommandHistory(s, step, sha);
    HandlerApplied(s, step, sha);
    HandlerMoved(s, step, sha);
    if step.Report? { ReportApplied(s, sha); }
  }

  /** A verdict was decided before, by the code's rules, on the tables as they were then. */
  lemma {:induction false} VerdictDecided(states: seq<State>, steps: seq<Step>, sha: string -> string, i: nat)
    returns (d: nat)
    requires IsRun(states, steps, sha) && i < |states| && states[i].handler.Decided?
    ensures d < i && d < |steps| && steps[d] == Decide
    ensures var h := states[i].handler;
            && states[d].handler == Deciding(h.command, h.mapping, h.now)
            && h.verdict == Judge(states[d].store, h.command, h.mapping, h.now, sha)
  {
    hide Enabled, Apply, Judge;
    RunStep(states, steps, sha, i - 1);
    if states[i - 1].handler == states[i].handler {
      d := VerdictDecided(states, steps, sha, i - 1);
    } else {
      d := i - 1;
      HandlerTurns(states[d], steps[d], sha);
    }
  }

  /** A stored success was written before, by the update after a verdict of success. */
  lemma {:induction false} SuccessUpdated(states: seq<State>, steps: seq<Step>, sha: string -> string, i: nat,
      id: string)
    returns (u: nat)
    requires IsRun(states, steps, sha) && i < |states|
    requires id in states[i].store.commands && states[i].store.commands[id].stage == Succeeded
    ensures u < i && u < |steps| && steps[u] == Update && states[u].handler.Decided?
    ensures states[u].handler.command.commandId == id && states[u].handler.verdict.stage == Succeeded
  {
    hide Enabled, Apply;
    RunStep(states, steps, sha, i - 1);
    if id in states[i - 1].store.commands && states[i - 1].store.commands[id].stage == Succeeded {
      u := SuccessUpdated(states, steps, sha, i - 1, id);
    } else {
      u := i - 1;
      SuccessWritten(states[u], steps[u], id, sha);
    }
  }

  lemma SuccessWritten(s: State, step: Step, id: string, sha: string -> string)
    requires Enabled(s, step, sha)
    requires !(id in s.store.commands && s.store.commands[id].stage == Succeeded)
    requires var t := Apply(s, step, sha).store; id in t.commands && t.commands[id].stage == Succeeded
    ensures step == Update && s.handler.Decided? && s.handler.command.commandId == id &&
            s.handler.verdict.stage == Succeeded
  {
    hide Apply, Enabled, IdempotencyUsed;
    CommandTables(s, step, sha);
    HandlerApplied(s, step, sha);
    HandlerMoved(s, step, sha);
  }

  /**
   * A stored or pending success goes back to a command the bridge received, a decision on it in time, and an item
   * fetched before that decision which is the command's cause, asked for the session its target stands for and has its
   * hash.
   */
  lemma MirrorSafe(states: seq<State>, steps: seq<Step>, sha: string -> string, i: nat, id: string)
    returns (p: nat, k: nat, d: nat, u: nat, x: Item)
    requires IsRun(states, steps, sha) && i < |states| && id in states[i].store.commands
    requires || states[i].store.commands[id].stage == Succeeded
             || (exists f :: f in states[i].store.lifecycles && states[i].store.lifecycles[f].commandId == id &&
                             states[i].store.lifecycles[f].stage in {Accepted, Succeeded})
    ensures p < d && k < d < u < i && u < |steps|
    ensures steps[p].Fetch? && x in steps[p].page
    ensures steps[k].Receive? && steps[k].command.commandId == id
    ensures SameOperation(states[i].store.commands[id], steps[k].command)
    ensures steps[d] == Decide && states[d].handler == Deciding(steps[k].command, steps[k].mapping, steps[k].at)
    ensures steps[k].at < steps[k].command.expiresAt && Confirms(x, steps[k].command, steps[k].mapping, sha)
    ensures steps[u] == Update && states[u].handler.Decided? && states[u].handler.command == steps[k].command
  {
    hide IsRun, Consistent, KnownUnique, PollKept, ReceiptsKept, OriginsKept, SequencesKept, NothingLost, EndsKept,
         Confirms, Judge;
    hide SameOperation;
    Invariant(states, steps, sha, i);
    u := SuccessUpdated(states, steps, sha, i, id);
    var h := states[u].handler;
    d := VerdictDecided(states, steps, sha, u);
    k := DecidingReceived(states, steps, sha, d);
    Invariant(states, steps, sha, d);
    SuccessConfirmed(states[d], h.command, h.mapping, h.now, sha);
    SucceedsExactly(states[d].store, h.command, h.mapping, h.now, sha);
    x :| x in states[d].polled && Confirms(x, h.command, h.mapping, sha);
    p := PolledFetched(states, steps, sha, d, x);
    Invariant(states, steps, sha, u);
    CommandsAbsorbing(states, steps, sha, u, i);
    SameLater(states[u], states[i], h.command);
  }

  /**
   * In every run, a command whose cause is an item with a receipt succeeds exactly when it is in time, carries one
   * bounded text and the item confirms it; a successful prompt leaves the route from the session that was dispatched
   * to.
   */
  lemma ConfirmedExactly(states: seq<State>, steps: seq<Step>, sha: string -> string, i: nat, x: Item, c: Command,
      m: Mapping, now: int)
    requires IsRun(states, steps, sha) && i < |states| && x in states[i].known
    requires ReceiptForMessage(states[i].store, x.id).Some? && c.causationId == Some(x.id)
    ensures var v := Judge(states[i].store, c, m, now, sha);
            && (v.stage == Succeeded <==>
                  now < c.expiresAt && Confirms(x, c, m, sha) &&
                  (OnlyText(c, "prompt", 32768) || OnlyText(c, "text", 4096)))
            && (v.stage == Succeeded && x.content.Intent? ==>
                  v.route == Some((x.content.dispatched, Route(c.targetNodeId, c.correlationId, now))))
            && (v.route.Some? ==> v.stage == Succeeded && x.content.Intent?)
  {
    hide IsRun, Consistent, KnownUnique, PollKept, ReceiptsKept, OriginsKept, SequencesKept, NothingLost, HandlerKept,
         ReportsKept, EndsKept, Judge, Tables.ReceiptForMessage, MainReceipt, OnlyText, Confirms, MirrorsPrompt,
         MirrorsDisplay;
    Invariant(states, steps, sha, i);
    ReceiptAgrees(states[i], x.id, sha);
    MainWritten(states[i], x, sha);
    SucceedsExactly(states[i].store, c, m, now, sha);
    VerdictTerminal(states[i].store, c, m, now, sha);
    MirrorsExactly(x, c, m, sha);
  }

  /** What the item's receipt mirrors is what the item confirms. */
  lemma MirrorsExactly(x: Item, c: Command, m: Mapping, sha: string -> string)
    requires c.causationId == Some(x.id)
    ensures var receipt := MainReceipt(x, sha);
            && ((c.action == AGENT_PROMPT_CAPABILITY && MirrorsPrompt(receipt, c, m, sha)) ||
                  (c.action == DISPLAY_CAPABILITY && MirrorsDisplay(receipt, c, m, sha)) <==>
                  Confirms(x, c, m, sha) && (OnlyText(c, "prompt", 32768) || OnlyText(c, "text", 4096)))
            && (c.action == AGENT_PROMPT_CAPABILITY && MirrorsPrompt(receipt, c, m, sha) ==>
                  x.content.Intent? && receipt.dispatchedSessionId == Some(x.content.dispatched))
            && (x.content.Intent? && Confirms(x, c, m, sha) ==> c.action == AGENT_PROMPT_CAPABILITY)
  {
    hide IsBlank, Utf8Length, OnlyText, SourceKey;
    assert AGENT_PROMPT_CAPABILITY[0] != DISPLAY_CAPABILITY[0] && "prompt"[0] != "text"[0];
    TextShape(c, "prompt", PROMPT_BYTES);
    TextShape(c, "text", DISPLAY_BYTES);
  }

  lemma TextShape(c: Command, name: string, maximumBytes: nat)
    ensures OnlyText(c, name, maximumBytes) <==>
            exists t :: c.parameters == map[name := TextParameter(t)] && !IsBlank(t) && Utf8Length(t) <= maximumBytes
    ensures forall t :: c.parameters == map[name := TextParameter(t)] ==>
              c.parameters.Keys == {name} && c.parameters[name].text == t
  {
    hide IsBlank, Utf8Length;
    OnlyKey(c.parameters, name);
    if t :| c.parameters == map[name := TextParameter(t)] && !IsBlank(t) && Utf8Length(t) <= maximumBytes {
      assert c.parameters[name].text == t;
    }
  }

  lemma SameLater(s: State, t: State, c: Command)
    requires HandlerKept(s) && s.handler.Decided? && s.handler.command == c && RowsKept(s, t)
    ensures c.commandId in t.store.commands && SameOperation(t.store.commands[c.commandId], c)
  {
  }

  // ---------------------------------------------------------------- commands

  /** Rows stay, keep their identity, and keep a terminal stage for good; no two commands share an idempotency key. */
  lemma {:induction false} CommandsAbsorbing(states: seq<State>, steps: seq<Step>, sha: string -> string, i: nat,
      j: nat)
    requires IsRun(states, steps, sha) && i <= j < |states|
    ensures RowsKept(states[i], states[j]) && CommandsConsistent(states[j].store.commands)
  {
    hide IsRun, KnownUnique, PollKept, ReceiptsKept, OriginsKept, SequencesKept, NothingLost, HandlerKept, ReportsKept,
         EndsKept;
    hide Enabled, Apply, EventsConsistent, AcceptedConsistent, LifecyclesConsistent;
    Invariant(states, steps, sha, j);
    if i < j {
      CommandsAbsorbing(states, steps, sha, i, j - 1);
      Invariant(states, steps, sha, j - 1);
      RunStep(states, steps, sha, j - 1);
      RowsStep(states[j - 1], steps[j - 1], sha);
    }
  }

  /** A command's end is handed over at most once, and exactly once in a crash-free run whose handler rests. */
  lemma EndsOnce(states: seq<State>, steps: seq<Step>, sha: string -> string, i: nat, id: string)
    requires IsRun(states, steps, sha) && i < |states|
    ensures Ended(states[i], id) <= 1
    ensures Ended(states[i], id) == 1 ==>
            id in states[i].store.commands && IsTerminal(states[i].store.commands[id].stage)
    ensures states[i].crashes == 0 && states[i].handler.Quiet? && id in states[i].store.commands ==>
            Ended(states[i], id) == 1
  {
    hide IsRun, Consistent, KnownUnique, PollKept, ReceiptsKept, OriginsKept, SequencesKept, NothingLost, HandlerKept,
         ReportsKept;
    Invariant(states, steps, sha, i);
  }

  /** A crash between storing an end and reporting it leaves the command unreported for good. */
  lemma {:induction false} UnreportedForever(states: seq<State>, steps: seq<Step>, sha: string -> string, i: nat,
      j: nat, id: string)
    requires IsRun(states, steps, sha) && i <= j < |states| && Unreported(states[i], id)
    ensures Unreported(states[j], id)
  {
    hide IsRun, Consistent, KnownUnique, PollKept, ReceiptsKept, OriginsKept, SequencesKept, NothingLost, HandlerKept,
         ReportsKept, EndsKept;
    hide Enabled, Apply, Unreported;
    if i < j {
      UnreportedForever(states, steps, sha, i, j - 1, id);
      Invariant(states, steps, sha, j - 1);
      RunStep(states, steps, sha, j - 1);
      UnreportedStep(states[j - 1], steps[j - 1], id, sha);
    }
  }

  /** A crash right after an end was stored always has that effect. */
  lemma CrashUnreports(s: State, sha: string -> string)
    requires Inv(s, sha) && s.handler.Decided?
    ensures Unreported(Apply(Apply(s, Update, sha), Crash, sha), s.handler.command.commandId)
  {
    hide Consistent, KnownUnique, PollKept, ReceiptsKept, OriginsKept, SequencesKept, NothingLost, ReportsKept,
         Confirmed, Apply;
    HandlerApplied(s, Update, sha);
    HandlerApplied(Apply(s, Update, sha), Crash, sha);
    assert Ended(s, s.handler.command.commandId) != 1;
  }

  /** So there is a run that never reports a stored end. */
  lemma CrashLosesReport(sha: string -> string)
    ensures exists states, steps :: IsRun(states, steps, sha) && |states| > 0 && Unreported(states[|states| - 1], "c")
  {
    hide Apply, Enabled, Unreported, Inv;
    var c, m := Command("c", "k", "n", "s", "r", None, "other", map[], 10), Mapping({}, map[]);
    var s1, s2 := CommandArrives(c, m, sha);
    InvStart(sha);
    InvStep(START, Receive(c, m, 0), sha);
    InvStep(s1, Decide, sha);
    CrashUnreports(s2, sha);
    assert Enabled(s2, Update, sha) && Enabled(Apply(s2, Update, sha), Crash, sha) by { HandlerMoves(s2, sha); }
    var s3 := Apply(s2, Update, sha);
    var states, steps := [START, s1, s2, s3, Apply(s3, Crash, sha)], [Receive(c, m, 0), Decide, Update, Crash];
    assert IsRun(states, steps, sha);
  }

  lemma CommandArrives(c: Command, m: Mapping, sha: string -> string) returns (s1: State, s2: State)
    ensures Enabled(START, Receive(c, m, 0), sha) && s1 == Apply(START, Receive(c, m, 0), sha)
    ensures Enabled(s1, Decide, sha) && s2 == Apply(s1, Decide, sha)
    ensures s2.handler.Decided? && s2.handler.command == c
  {
    hide Apply, Judge, Remember;
    s1 := Apply(START, Receive(c, m, 0), sha);
    HandlerApplied(START, Receive(c, m, 0), sha);
    s2 := Apply(s1, Decide, sha);
    HandlerApplied(s1, Decide, sha);
  }

  lemma HandlerMoves(s: State, sha: string -> string)
    requires s.handler.Decided?
    ensures Enabled(s, Update, sha) && Enabled(Apply(s, Update, sha), Crash, sha)
  {
    hide Apply;
  }

  /** Uninterrupted, the steps of one delivery are what the handler object does with it. */
  lemma HandlerIsProtocol(s: State, c: Command, m: Mapping, now: int, sha: string -> string)
    requires Consistent(s.store) && s.handler.Quiet?
    ensures var s1 := Apply(s, Receive(c, m, now), sha);
            var answer := Answer(s.store, c, m, now, sha);
            if answer == None || answer == Some([]) then s1 == s
            else
              && s1.handler.Deciding?
              && var s2 := Apply(s1, Decide, sha);
                 var s3 := Apply(s2, Update, sha);
                 s3.store == Handled(s.store, c, m, now, sha) && s3.handler == Reporting(answer.value)
  {
    hide Apply, Enabled, Judge, Consistent, IdempotencyUsed, SameOperation, UpdateCommand, Remember;
    var s1 := Apply(s, Receive(c, m, now), sha);
    HandlerEnabled(s, c, m, now, sha);
    HandlerEnabled(s1, c, m, now, sha);
    HandlerEnabled(Apply(s1, Decide, sha), c, m, now, sha);
    HandlerApplied(s, Receive(c, m, now), sha);
    if s1.handler.Deciding? {
      HandlerApplied(s1, Decide, sha);
      HandlerApplied(Apply(s1, Decide, sha), Update, sha);
      StoreKept(s, Receive(c, m, now), sha);
      JudgeIgnoresCommands(s.store, s1.store, c, m, now, sha);
    }
  }

  // ---------------------------------------------------------------- sequence numbers

  /** No two events of one node ever share a sequence number, whenever in the run they were pending. */
  lemma SequencesDistinct(states: seq<State>, steps: seq<Step>, sha: string -> string, i: nat, j: nat, f: FrameId,
      g: FrameId)
    requires IsRun(states, steps, sha) && i <= j < |states| && f != g
    requires f in states[i].store.events && g in states[j].store.events
    requires states[i].store.events[f].frame.nodeId == states[j].store.events[g].frame.nodeId
    ensures states[i].store.events[f].frame.sequence != states[j].store.events[g].frame.sequence
  {
    hide IsRun, Consistent, KnownUnique, PollKept, ReceiptsKept, OriginsKept, NothingLost, HandlerKept, ReportsKept,
         EndsKept;
    Invariant(states, steps, sha, i);
    Invariant(states, steps, sha, j);
    SentForGood(states, steps, sha, i, j, f);
  }

  lemma {:induction false} SentForGood(states: seq<State>, steps: seq<Step>, sha: string -> string, i: nat, j: nat,
      f: FrameId)
    requires IsRun(states, steps, sha) && i <= j < |states| && f in states[i].sent
    ensures f in states[j].sent && states[j].sent[f] == states[i].sent[f]
  {
    hide IsRun, Enabled, Apply;
    if i < j {
      SentForGood(states, steps, sha, i, j - 1, f);
      RunStep(states, steps, sha, j - 1);
      if steps[j - 1].Enqueue? {
        SentMore(states[j - 1], steps[j - 1], sha);
      } else {
        HistoryFrame(states[j - 1], steps[j - 1], sha);
      }
    }
  }

  lemma SentMore(s: State, step: Step, sha: string -> string)
    requires Enabled(s, step, sha) && step.Enqueue?
    ensures forall f :: f in s.sent ==> f in Apply(s, step, sha).sent && Apply(s, step, sha).sent[f] == s.sent[f]
  {
    hide Plan, Complete, Ascending;
  }
}

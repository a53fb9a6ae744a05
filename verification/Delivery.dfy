/** What every step keeps of the events: receipts are write-once, sequence numbers are never reused, no item is lost. */
module Delivery {
  import opened Wrappers
  import opened Tables
  import opened Commands
  import opened Bridge

  // ---------------------------------------------------------------- the plan of an item

  lemma PlanShape(x: Item, capable: bool, sha: string -> string)
    ensures var plan := Plan(x, capable, sha);
            && 1 <= |plan| <= 2 && plan[0] == MainPart(x, sha)
            && !plan[0].random && plan[0].sourceKey == SourceKey(x) && plan[0].receipt == MainReceipt(x, sha)
            && MainReceipt(x, sha).messageId == x.id && MainReceipt(x, sha).sourceKey == SourceKey(x)
            && (|plan| == 2 ==>
              plan[1].random && plan[1].receipt.kind != CompletionKind && !plan[1].receipt.alreadyDispatched)
            && (|plan| == 2 <==> FleetPart(x, sha).Some? && (x.content.Intent? ==> capable))
  {
  }

  // ---------------------------------------------------------------- what a step leaves alone

  predicate MovesPoll(step: Step) {
    step.Fetch? || step.Draw? || step.Enqueue? || step.AckUpstream? || step.SetCursor? || step.SkipCompletion? ||
      step.Reconnect? || step.Crash?
  }

  lemma Frame(s: State, step: Step, sha: string -> string)
    requires Enabled(s, step, sha)
    ensures var t := Apply(s, step, sha);
            && (!step.Enqueue? && !step.AckEvent? && !step.DropUndeliverable? ==>
                  t.store.events == s.store.events && t.store.accepted == s.store.accepted)
            && (!step.Draw? && !step.FetchEmpty? && !step.SetCursor? && !step.SkipCompletion? ==>
              t.store.state == s.store.state)
            && (!step.Enqueue? ==> t.receipts == s.receipts && t.sent == s.sent)
            && (!step.Grow? ==> t.known == s.known) && s.polled <= t.polled && (!step.Fetch? ==> t.polled == s.polled)
            && (!step.AckUpstream? ==> t.acked == s.acked && t.capable == s.capable)
            && (!step.SkipCompletion? ==> t.skipped == s.skipped)
            && (!step.DropUndeliverable? ==> t.discarded == s.discarded)
            && (!MovesPoll(step) ==> t.poll == s.poll) &&
              (step.Fetch? ==> t.poll.Working? && t.poll.done == 0 && t.poll.drawn.None?)
            && (step.Reconnect? || step.Crash? ==> t.poll.Idle?)
            && (step.AckUpstream? ==> s.poll.Working? && t.poll == s.poll.(acked := true))
            && (step.SetCursor? || step.SkipCompletion? ==> t.poll.Idle? || (t.poll.done == 0 && t.poll.drawn.None?))
  {
    hide Apply, Enabled;
    TableFrame(s, step, sha);
    PollMoves(s, step, sha);
    HistoryFrame(s, step, sha);
  }

  lemma EventsFrame(s: State, step: Step, sha: string -> string)
    requires Enabled(s, step, sha) && !step.Enqueue? && !step.AckEvent? && !step.DropUndeliverable?
    ensures var t := Apply(s, step, sha).store; t.events == s.store.events && t.accepted == s.store.accepted
  {
    hide Plan, Judge, Page, Complete, EventOf, DroppedKeys, Reports, Advance, AcknowledgeFrame, Discard, EnqueueEvent,
         Cursor, Number, NodeKey, CursorKey, Head, IdempotencyUsed, SameOperation, NewRow, LifecyclePending;
  }

  lemma NumbersStand(s: State, step: Step, sha: string -> string)
    requires Enabled(s, step, sha) && !step.Draw? && !step.FetchEmpty? && !step.SetCursor? && !step.SkipCompletion?
    ensures Apply(s, step, sha).store.state == s.store.state
  {
    hide Plan, Judge, Page, Complete, Fits, EnqueueReturns, EventOf, DroppedKeys, Reports, Deliverable, OfSession,
         AcceptedKey, Advance, Cursor, Number, Head, IdempotencyUsed, SameOperation, NewRow, LifecyclePending,
           Undeliverable;
  }

  lemma TableFrame(s: State, step: Step, sha: string -> string)
    requires Enabled(s, step, sha)
    ensures var t := Apply(s, step, sha);
            && (!step.Enqueue? && !step.AckEvent? && !step.DropUndeliverable? ==>
                  t.store.events == s.store.events && t.store.accepted == s.store.accepted)
            && (!step.Draw? && !step.FetchEmpty? && !step.SetCursor? && !step.SkipCompletion? ==>
                  t.store.state == s.store.state)
  {
    hide Apply, Enabled;
    if !step.Enqueue? && !step.AckEvent? && !step.DropUndeliverable? { EventsFrame(s, step, sha); }
    if !step.Draw? && !step.FetchEmpty? && !step.SetCursor? && !step.SkipCompletion? { NumbersStand(s, step, sha); }
  }

  lemma HistoryFrame(s: State, step: Step, sha: string -> string)
    requires Enabled(s, step, sha)
    ensures var t := Apply(s, step, sha);
            && (!step.Enqueue? ==> t.receipts == s.receipts && t.sent == s.sent)
            && (!step.Grow? ==> t.known == s.known) && s.polled <= t.polled && (!step.Fetch? ==> t.polled == s.polled)
            && (!step.AckUpstream? ==> t.acked == s.acked && t.capable == s.capable)
            && (!step.SkipCompletion? ==> t.skipped == s.skipped)
            && (!step.DropUndeliverable? ==> t.discarded == s.discarded)
  {
    hide Plan, Judge, Page, Complete, Fits, EnqueueReturns, EventOf, DroppedKeys, Reports, AcknowledgeFrame, Discard,
      EnqueueEvent, RecordCommand, UpdateCommand, EnqueueLifecycle, AcknowledgeLifecycle, Remember, Advance, SetNumber;
  }

  lemma PollMoves(s: State, step: Step, sha: string -> string)
    requires Enabled(s, step, sha)
    ensures var t := Apply(s, step, sha);
            && (!MovesPoll(step) ==> t.poll == s.poll) &&
              (step.Fetch? ==> t.poll.Working? && t.poll.done == 0 && t.poll.drawn.None?)
            && (step.Reconnect? || step.Crash? ==> t.poll.Idle?)
            && (step.AckUpstream? ==> s.poll.Working? && t.poll == s.poll.(acked := true))
            && (step.SetCursor? || step.SkipCompletion? ==> t.poll.Idle? || (t.poll.done == 0 && t.poll.drawn.None?))
  {
    hide Plan, Judge, Page, Complete, Fits, EnqueueReturns, EventOf, DroppedKeys, Reports, AcknowledgeFrame, Discard,
      EnqueueEvent, RecordCommand, UpdateCommand, EnqueueLifecycle, AcknowledgeLifecycle, Remember, SetNumber;
  }

  /** Acknowledgements and drops, one equation each. */
  lemma AckApplied(s: State, f: FrameId, sha: string -> string)
    ensures Enabled(s, AckEvent(f), sha) && Apply(s, AckEvent(f), sha) == s.(store := AcknowledgeFrame(s.store, f))
    ensures Enabled(s, AckLifecycle(f), sha) && Apply(s, AckLifecycle(f), sha) ==
            s.(store := AcknowledgeLifecycle(s.store, f))
  {
    hide AcknowledgeFrame, AcknowledgeLifecycle, Plan, Judge, Page, Complete;
  }

  lemma EnqueueTaken(s: State, step: Step, sha: string -> string)
    requires Enabled(s, step, sha) && step.Enqueue?
    ensures s.poll.Working? && s.poll.batch != [] && s.poll.drawn.Some? &&
            s.poll.done < |Plan(Head(s), s.poll.capable, sha)|
    ensures Random(step.token) !in s.sent && step.freshId !in s.receipts && forall x :: x in s.known ==>
            x.id != step.freshId
    ensures var part := Plan(Head(s), s.poll.capable, sha)[s.poll.done];
            Apply(s, step, sha) == Enqueued(s, part, EventOf(s, part, step.token, step.freshId, step.session))
  {
    hide Plan, Judge, Page, Complete, Enqueued, EventOf;
  }

  lemma DropApplied(s: State, session: string, now: int, sha: string -> string)
    ensures Enabled(s, DropUndeliverable(session, now), sha)
    ensures Apply(s, DropUndeliverable(session, now), sha) ==
            s.(store := Discard(s.store, session, now), discarded := s.discarded + DroppedKeys(s.store, session, now))
  {
    hide Discard, DroppedKeys, Plan, Judge, Page, Complete;
  }

  // ---------------------------------------------------------------- uniqueness of rows

  lemma StoreKept(s: State, step: Step, sha: string -> string)
    requires Consistent(s.store) && Enabled(s, step, sha)
    ensures Consistent(Apply(s, step, sha).store)
  {
    hide Consistent, Plan, MainReceipt, Judge, Complete, Ascending;
    var t := Apply(s, step, sha);
    if step.Enqueue? {
      var part := Plan(Head(s), s.poll.capable, sha)[s.poll.done];
      EnqueueConsistent(s.store, part.sourceKey, EventOf(s, part, step.token, step.freshId, step.session),
        part.receipt);
    } else if step.AckEvent? {
      AcknowledgeConsistent(s.store, step.frameId);
    } else if step.AckLifecycle? {
      LifecycleConsistent(s.store, Lifecycle("", Rejected, "", None), step.frameId);
    } else if step.DropUndeliverable? {
      DiscardConsistent(s.store, step.session, step.at);
    } else if step.Receive? {
      RecordConsistent(s.store, step.command.commandId, NewRow(step.command, step.at));
    } else if step.Update? {
      UpdateConsistent(s.store, s.handler.command.commandId, s.handler.verdict.stage, s.handler.now);
    } else if step.Report? {
      LifecycleConsistent(s.store, s.handler.reports[0], LifecycleId(s.handler.reports[0]));
    } else {
      SameTables(s.store, t.store);
    }
  }

  // ---------------------------------------------------------------- the page being worked on

  /** Ids are unique, and only completions are ever skipped. */
  ghost predicate KnownUnique(s: State) {
    && (forall x, y :: x in s.known && y in s.known && x.id == y.id ==> x == y)
    && (forall x :: x in s.known && x.id in s.skipped ==> x.content.Completion?)
  }

  /** The rest of the page is still complete above the cursor, and its items were polled. */
  ghost predicate PollKept(s: State, sha: string -> string) {
    s.poll.Working? ==>
      && Page(s, s.poll.feed, s.poll.batch)
      && (forall i :: 0 <= i < |s.poll.batch| ==> s.poll.batch[i] in s.polled)
      && s.poll.done <= |Plan(Head(s), s.poll.capable, sha)|
      && (s.poll.acked ==> Head(s).id in s.acked && s.poll.done == |Plan(Head(s), s.poll.capable, sha)|)
  }

  lemma CursorsApart(s: Store, feed: Feed, value: nat)
    ensures forall g :: g != feed ==>
            Number(SetNumber(s, CursorKey(feed), value), CursorKey(g)) == Number(s, CursorKey(g))
    ensures Number(SetNumber(s, CursorKey(feed), value), CursorKey(feed)) == value
    ensures forall n :: Number(SetNumber(s, CursorKey(feed), value), NodeKey(n)) == Number(s, NodeKey(n))
    ensures forall n, v, g :: Number(SetNumber(s, NodeKey(n), v), CursorKey(g)) == Number(s, CursorKey(g))
  {
    KeysApart("", "");
    forall n ensures NodeKey(n) !in {INTERACTION_CURSOR, INTENT_CURSOR, COMPLETION_CURSOR} { KeysApart(n, n); }
    forall n, v, g
      ensures Number(SetNumber(s, NodeKey(n), v), CursorKey(g)) == Number(s, CursorKey(g))
    {
      KeysApart(n, n);
    }
  }

  lemma AdvancePage(s: State, feed: Feed, batch: seq<Item>, t: State)
    requires Page(s, feed, batch) && |batch| > 1
    requires t.known == s.known && t.acked == s.acked && Cursor(t, feed) == batch[0].sequence
    ensures Page(t, feed, batch[1..])
  {
    forall x | x in t.known && FeedOf(x) == feed && Cursor(t, feed) < x.sequence <= batch[|batch| - 1].sequence
      ensures x in batch[1..] || x.id in t.acked
    {
      if x in batch { assert x != batch[0]; }
    }
  }

  lemma KnownStep(s: State, step: Step, sha: string -> string)
    requires KnownUnique(s) && PollKept(s, sha) && Enabled(s, step, sha)
    ensures KnownUnique(Apply(s, step, sha))
  {
    hide Apply, Enabled, PollKept;
    if step.Grow? || step.SkipCompletion? { KnownMoves(s, step, sha); } else { HistoryFrame(s, step, sha); }
  }

  lemma KnownMoves(s: State, step: Step, sha: string -> string)
    requires KnownUnique(s) && PollKept(s, sha) && Enabled(s, step, sha) && (step.Grow? || step.SkipCompletion?)
    ensures KnownUnique(Apply(s, step, sha))
  {
    hide Plan, Complete, Ascending;
  }

  lemma PollStep(s: State, step: Step, sha: string -> string)
    requires PollKept(s, sha) && Enabled(s, step, sha)
    ensures PollKept(Apply(s, step, sha), sha)
  {
    hide PollKept, Page, Apply, Plan;
    Frame(s, step, sha);
    if step.SetCursor? || step.SkipCompletion? {
      AdvanceStep(s, step, sha);
    } else if step.Fetch? {
      PageFetched(s, step, sha);
    } else if step.Draw? || step.Enqueue? || step.AckUpstream? {
      HeadStep(s, step, sha);
    } else if step.FetchEmpty? || step.Reconnect? || step.Crash? {
      IdleKept(Apply(s, step, sha), sha);
    } else {
      if step.Grow? { assert Apply(s, step, sha).known == s.known + {step.item} by { GrowKnown(s, step, sha); } }
      PollFrame(s, Apply(s, step, sha), sha);
    }
  }

  lemma GrowKnown(s: State, step: Step, sha: string -> string)
    requires Enabled(s, step, sha) && step.Grow?
    ensures Apply(s, step, sha).known == s.known + {step.item}
  {
  }

  lemma IdleKept(s: State, sha: string -> string)
    requires s.poll.Idle?
    ensures PollKept(s, sha)
  {
  }

  lemma PageFetched(s: State, step: Step, sha: string -> string)
    requires Enabled(s, step, sha) && step.Fetch?
    ensures PollKept(Apply(s, step, sha), sha)
  {
    hide Plan;
  }

  /** A page stays one while the cursor stands and the feed grows past it. */
  lemma PollFrame(s: State, t: State, sha: string -> string)
    requires PollKept(s, sha) && t.poll == s.poll && s.acked <= t.acked && s.polled <= t.polled && s.known <= t.known
    requires s.store.state == t.store.state
    requires forall x, y :: x in t.known && x !in s.known && y in s.known && FeedOf(x) == FeedOf(y) ==>
             y.sequence < x.sequence
    ensures PollKept(t, sha)
  {
    hide Plan;
  }

  lemma HeadStep(s: State, step: Step, sha: string -> string)
    requires PollKept(s, sha) && Enabled(s, step, sha) && (step.Draw? || step.Enqueue? || step.AckUpstream?)
    ensures PollKept(Apply(s, step, sha), sha)
  {
    hide Plan, Ascending;
    if step.Draw? { CursorsApart(s.store, s.poll.feed, 0); }
  }

  lemma AdvanceStep(s: State, step: Step, sha: string -> string)
    requires PollKept(s, sha) && Enabled(s, step, sha) && (step.SetCursor? || step.SkipCompletion?)
    ensures PollKept(Apply(s, step, sha), sha)
  {
    hide Plan, Complete, Ascending;
    var t := Apply(s, step, sha);
    CursorsApart(s.store, s.poll.feed, Head(s).sequence);
    if |s.poll.batch| > 1 {
      AdvancePage(s, s.poll.feed, s.poll.batch, t);
      PlanShape(Head(t), t.poll.capable, sha);
    }
  }

  // ---------------------------------------------------------------- receipts are written once

  /** A receipt that could confirm a command comes from a polled item. */
  ghost predicate FromPolled(s: State, m: string, sha: string -> string)
    requires m in s.receipts
  {
    s.receipts[m].kind == CompletionKind || s.receipts[m].alreadyDispatched ==>
      exists x :: x in s.polled && x.id == m && s.receipts[m] == MainReceipt(x, sha)
  }

  /** Both tables hold, for every message, the one receipt the run ever wrote for it. */
  ghost predicate ReceiptsKept(s: State, sha: string -> string) {
    && (forall f :: f in s.store.events ==>
          s.store.events[f].frame.messageId in s.receipts &&
          s.receipts[s.store.events[f].frame.messageId] == s.store.events[f].receipt)
    && (forall m :: m in s.store.accepted ==> m in s.receipts && s.receipts[m] == s.store.accepted[m].receipt)
    && (forall x :: x in s.known && x.id in s.receipts ==> s.receipts[x.id] == MainReceipt(x, sha))
    && (forall m :: m in s.receipts ==> FromPolled(s, m, sha))
  }

  lemma ReceiptsStep(s: State, step: Step, sha: string -> string)
    requires ReceiptsKept(s, sha) && PollKept(s, sha) && KnownUnique(s) && Enabled(s, step, sha)
    ensures ReceiptsKept(Apply(s, step, sha), sha)
    ensures forall m :: m in s.receipts ==>
            m in Apply(s, step, sha).receipts && Apply(s, step, sha).receipts[m] == s.receipts[m]
  {
    hide ReceiptsKept, MainReceipt, Enabled, Apply;
    Frame(s, step, sha);
    if step.Enqueue? {
      EnqueueReceipts(s, step, sha);
    } else if step.AckEvent? || step.DropUndeliverable? {
      RowsMoved(s, step, sha);
    } else if step.Grow? {
      ReceiptsGrow(s, step, sha);
    } else {
      ReceiptsFrame(s, Apply(s, step, sha), sha);
    }
  }

  lemma ReceiptsFrame(s: State, t: State, sha: string -> string)
    requires ReceiptsKept(s, sha) && t.receipts == s.receipts && t.store.events == s.store.events &&
             t.store.accepted == s.store.accepted
    requires t.known == s.known && s.polled <= t.polled
    ensures ReceiptsKept(t, sha)
  {
    hide MainReceipt;
  }

  lemma ReceiptsGrow(s: State, step: Step, sha: string -> string)
    requires ReceiptsKept(s, sha) && Enabled(s, step, sha) && step.Grow?
    ensures ReceiptsKept(Apply(s, step, sha), sha)
  {
    hide MainReceipt;
  }

  /** Rows move from pending to accepted, or go, with the receipts they have. */
  lemma ReceiptsMove(s: State, t: State, sha: string -> string)
    requires ReceiptsKept(s, sha) && t.receipts == s.receipts && t.known == s.known && t.polled == s.polled
    requires forall f :: f in t.store.events ==> f in s.store.events && t.store.events[f] == s.store.events[f]
    requires forall m :: m in t.store.accepted ==>
               || (m in s.store.accepted && t.store.accepted[m] == s.store.accepted[m])
               || (exists f ::
                 f in s.store.events && s.store.events[f].frame.messageId == m &&
                 s.store.events[f].receipt == t.store.accepted[m].receipt)
    ensures ReceiptsKept(t, sha)
  {
    hide MainReceipt;
  }

  lemma RowsMoved(s: State, step: Step, sha: string -> string)
    requires ReceiptsKept(s, sha) && Enabled(s, step, sha) && (step.AckEvent? || step.DropUndeliverable?)
    ensures ReceiptsKept(Apply(s, step, sha), sha)
  {
    hide ReceiptsKept, Apply, Enabled;
    if step.AckEvent? { AckApplied(s, step.frameId, sha); } else { DropApplied(s, step.session, step.at, sha); }
    ReceiptsMove(s, Apply(s, step, sha), sha);
  }

  lemma EnqueueReceipts(s: State, step: Step, sha: string -> string)
    requires ReceiptsKept(s, sha) && PollKept(s, sha) && KnownUnique(s) && Enabled(s, step, sha) && step.Enqueue?
    ensures ReceiptsKept(Apply(s, step, sha), sha)
    ensures forall m :: m in s.receipts ==>
            m in Apply(s, step, sha).receipts && Apply(s, step, sha).receipts[m] == s.receipts[m]
  {
    hide Plan, Complete, Ascending, MainReceipt, MainPart, FleetPart, ReceiptsKept, Apply, Enabled;
    EnqueueTaken(s, step, sha);
    PlanShape(Head(s), s.poll.capable, sha);
    var part := Plan(Head(s), s.poll.capable, sha)[s.poll.done];
    var frame := EventOf(s, part, step.token, step.freshId, step.session);
    var receipt := part.receipt.(messageId := frame.messageId, sourceKey := part.sourceKey);
    assert Head(s) in s.known && Head(s) in s.polled;
    if Fits(s.store, part.sourceKey, frame) {
      assert part.random || receipt == MainReceipt(Head(s), sha);
      ReceiptWritten(s, Apply(s, step, sha), Head(s), frame, part.sourceKey, receipt, sha);
    } else {
      ReceiptsFrame(s, Apply(s, step, sha), sha);
    }
  }

  /** Writing the main receipt of a polled item, or a receipt that confirms nothing under a new message id. */
  lemma ReceiptWritten(s: State, t: State, x: Item, frame: EventFrame, key: string, receipt: Receipt,
      sha: string -> string)
    requires ReceiptsKept(s, sha) && KnownUnique(s) && x in s.known && x in s.polled
    requires t.store.accepted == s.store.accepted && t.known == s.known && t.polled == s.polled
    requires t.store.events == s.store.events[frame.frameId := EventRow(key, frame, receipt)]
    requires t.receipts == s.receipts[frame.messageId := receipt]
    requires || (frame.messageId == x.id && receipt == MainReceipt(x, sha))
             || (frame.messageId !in s.receipts && (forall y :: y in s.known ==> y.id != frame.messageId) &&
                 receipt.kind != CompletionKind && !receipt.alreadyDispatched)
    ensures ReceiptsKept(t, sha)
    ensures forall m :: m in s.receipts ==> m in t.receipts && t.receipts[m] == s.receipts[m]
  {
    hide MainReceipt;
    forall m | m in t.receipts ensures FromPolled(t, m, sha) {
      if m in s.receipts { assert FromPolled(s, m, sha); }
    }
  }

  // ---------------------------------------------------------------- which message carries which key

  predicate FleetShaped(key: string) { "ring-fleet-intent:" <= key || "fleet-intent:" <= key }

  /** A source key belongs to one item, and is never the key of a fleet intent. */
  lemma KeysDistinct(x: Item, y: Item)
    ensures SourceKey(x) == SourceKey(y) ==> x.id == y.id
    ensures !FleetShaped(SourceKey(x))
  {
    hide SourceKey, PrefixLength, FleetShaped;
    KeyShape(x);
    KeyShape(y);
    FleetShape(SourceKey(x));
  }

  lemma FleetShape(key: string)
    ensures FleetShaped(key) ==> |key| > 6 && (key[0] == 'f' || (key[0] == 'r' && key[5] == 'f'))
  {
    if "ring-fleet-intent:" <= key {
      assert key[0] == "ring-fleet-intent:"[0] && key[5] == "ring-fleet-intent:"[5];
    } else if "fleet-intent:" <= key {
      assert key[0] == "fleet-intent:"[0];
    }
  }

  function PrefixLength(c: char): nat { if c == 'd' then 15 else if c == 'r' then 17 else if c == 'i' then 7 else 11 }

  lemma KeyShape(x: Item)
    ensures var key := SourceKey(x);
            |key| > 6 && PrefixLength(key[0]) <= |key| && key[PrefixLength(key[0])..] == x.id &&
            key[0] != 'f' && (key[0] == 'r' ==> key[5] == 'i')
  {
  }

  /** Every written receipt has its item's own key, or the key of a fleet intent. */
  ghost predicate OriginsKept(s: State) {
    forall m :: m in s.receipts ==>
      || (exists x :: x in s.known && x.id == m && s.receipts[m].sourceKey == SourceKey(x))
      || FleetShaped(s.receipts[m].sourceKey)
  }

  lemma OriginsStep(s: State, step: Step, sha: string -> string)
    requires OriginsKept(s) && PollKept(s, sha) && Enabled(s, step, sha)
    ensures OriginsKept(Apply(s, step, sha))
  {
    hide Apply, Enabled, PollKept, FleetShaped;
    if step.Enqueue? || step.Grow? { OriginsWritten(s, step, sha); } else { HistoryFrame(s, step, sha); }
  }

  lemma OriginsWritten(s: State, step: Step, sha: string -> string)
    requires OriginsKept(s) && PollKept(s, sha) && Enabled(s, step, sha) && (step.Enqueue? || step.Grow?)
    ensures OriginsKept(Apply(s, step, sha))
  {
    hide Complete, Ascending, SourceKey, Plan, FleetShaped, MainPart, FleetPart;
    if step.Enqueue? {
      PlanShape(Head(s), s.poll.capable, sha);
      PlanFleet(Head(s), s.poll.capable, sha);
      assert Head(s) in s.known;
    }
  }

  lemma PlanFleet(x: Item, capable: bool, sha: string -> string)
    ensures var plan := Plan(x, capable, sha); |plan| == 2 ==> FleetShaped(plan[1].sourceKey)
  {
  }

  // ---------------------------------------------------------------- sequence numbers

  /** Every stored frame has its own number below its node's counter, and so has a number drawn but not used yet. */
  ghost predicate SequencesKept(s: State) {
    && (forall f :: f in s.store.events ==>
          f in s.sent && s.sent[f] == Drawn(s.store.events[f].frame.nodeId, s.store.events[f].frame.sequence))
    && (forall f :: f in s.sent ==> s.sent[f].sequence <= Number(s.store, NodeKey(s.sent[f].nodeId)))
    && (forall f, g :: f in s.sent && g in s.sent && f != g ==> s.sent[f] != s.sent[g])
    && (s.poll.Working? && s.poll.drawn.Some? ==>
          && s.poll.drawn.value.sequence <= Number(s.store, NodeKey(s.poll.drawn.value.nodeId))
          && (forall f :: f in s.sent ==> s.sent[f] != s.poll.drawn.value))
  }

  lemma SequencesStep(s: State, step: Step, sha: string -> string)
    requires SequencesKept(s) && Enabled(s, step, sha)
    ensures SequencesKept(Apply(s, step, sha))
  {
    hide SequencesKept, Enabled, Apply;
    Frame(s, step, sha);
    if step.Draw? {
      NumberDrawn(s, step, sha);
    } else if step.Enqueue? {
      NumberUsed(s, step, sha);
    } else {
      CountersStand(s, step, sha);
      RowsShrink(s, step, sha);
      NumbersFrame(s, Apply(s, step, sha));
    }
  }

  lemma CountersStand(s: State, step: Step, sha: string -> string)
    requires Enabled(s, step, sha) && !step.Draw?
    ensures forall n :: Number(Apply(s, step, sha).store, NodeKey(n)) == Number(s.store, NodeKey(n))
  {
    hide Plan, Judge, Page, Complete, Enqueued, EventOf, Advance;
    if step.SetCursor? || step.SkipCompletion? {
      CursorsApart(s.store, s.poll.feed, Head(s).sequence);
    } else if step.FetchEmpty? {
      CursorsApart(s.store, step.feed, step.next);
    } else {
      Frame(s, step, sha);
    }
  }

  lemma RowsShrink(s: State, step: Step, sha: string -> string)
    requires Enabled(s, step, sha) && !step.Enqueue?
    ensures var t := Apply(s, step, sha);
            forall f :: f in t.store.events ==> f in s.store.events && t.store.events[f] == s.store.events[f]
  {
    hide Apply, Enabled;
    if step.AckEvent? {
      AckApplied(s, step.frameId, sha);
    } else if step.DropUndeliverable? {
      DropApplied(s, step.session, step.at, sha);
    } else {
      Frame(s, step, sha);
    }
  }

  lemma NumbersFrame(s: State, t: State)
    requires SequencesKept(s) && t.sent == s.sent
    requires forall f :: f in t.store.events ==> f in s.store.events && t.store.events[f] == s.store.events[f]
    requires forall n :: Number(t.store, NodeKey(n)) == Number(s.store, NodeKey(n))
    requires t.poll == s.poll || t.poll.Idle? || t.poll.drawn.None? || (s.poll.Working? && t.poll.drawn == s.poll.drawn)
    ensures SequencesKept(t)
  {
  }

  lemma NumberDrawn(s: State, step: Step, sha: string -> string)
    requires SequencesKept(s) && Enabled(s, step, sha) && step.Draw?
    ensures SequencesKept(Apply(s, step, sha))
  {
    hide Plan;
    forall n ensures NodeKey(n) == NodeKey(step.nodeId) ==> n == step.nodeId { KeysApart(n, step.nodeId); }
  }

  lemma NumberUsed(s: State, step: Step, sha: string -> string)
    requires SequencesKept(s) && Enabled(s, step, sha) && step.Enqueue?
    ensures SequencesKept(Apply(s, step, sha))
  {
    hide Plan, Apply, Enabled, Head, PendingKey, AcceptedKey, PendingMessage;
    EnqueueTaken(s, step, sha);
    var part := Plan(Head(s), s.poll.capable, sha)[s.poll.done];
    var frame := EventOf(s, part, step.token, step.freshId, step.session);
    assert frame.frameId == Random(step.token);
  }

  // ---------------------------------------------------------------- no item is lost

  /** The key's event waits, was accepted, or was dropped as undeliverable. */
  ghost predicate Safe(s: State, sourceKey: string) {
    PendingKey(s.store, sourceKey) || AcceptedKey(s.store, sourceKey) || sourceKey in s.discarded
  }

  lemma SafeKept(s: State, step: Step, key: string, sha: string -> string)
    requires Consistent(s.store) && ReceiptsKept(s, sha) && Enabled(s, step, sha) && Safe(s, key)
    ensures Safe(Apply(s, step, sha), key)
  {
    hide Plan, Judge, Complete, Ascending, Consistent, ReceiptsKept, MainReceipt;
    var t := Apply(s, step, sha);
    if step.AckEvent? {
      AcknowledgeSafe(s, step.frameId, key, sha);
    } else if step.DropUndeliverable? {
      DropSafe(s, step.session, step.at, key);
    } else if step.Enqueue? {
      var part := Plan(Head(s), s.poll.capable, sha)[s.poll.done];
      EnqueueSafe(s, part, EventOf(s, part, step.token, step.freshId, step.session), key);
    }
  }

  lemma AcknowledgedTables(s: Store, frameId: FrameId)
    ensures var t := AcknowledgeFrame(s, frameId);
            && (forall m :: m in s.accepted ==> m in t.accepted && t.accepted[m] == s.accepted[m])
            && (forall f :: f in s.events && f != frameId ==> f in t.events && t.events[f] == s.events[f])
  {
  }

  /** Acknowledging keeps every key: a message that was accepted before was accepted under the same key. */
  lemma AcknowledgeSafe(s: State, frameId: FrameId, key: string, sha: string -> string)
    requires Consistent(s.store) && ReceiptsKept(s, sha) && Safe(s, key)
    ensures Safe(s.(store := AcknowledgeFrame(s.store, frameId)), key)
  {
    hide Consistent, ReceiptsKept, AcknowledgeFrame;
    var t := AcknowledgeFrame(s.store, frameId);
    AcknowledgedTables(s.store, frameId);
    if m :| m in s.store.accepted && s.store.accepted[m].sourceKey == key {
      assert m in t.accepted && t.accepted[m].sourceKey == key;
    } else if f :| f in s.store.events && s.store.events[f].sourceKey == key {
      if f == frameId {
        AcknowledgedKey(s, f, sha);
      } else {
        assert t.events[f].sourceKey == key;
      }
    }
  }

  lemma AcknowledgedKey(s: State, f: FrameId, sha: string -> string)
    requires Consistent(s.store) && ReceiptsKept(s, sha) && f in s.store.events
    ensures AcceptedKey(AcknowledgeFrame(s.store, f), s.store.events[f].sourceKey)
  {
    hide MainReceipt, FromPolled, LifecyclesConsistent, CommandsConsistent;
    var t, row := AcknowledgeFrame(s.store, f), s.store.events[f];
    if m :| m in s.store.accepted && s.store.accepted[m].sourceKey == row.sourceKey {
      assert t.accepted[m].sourceKey == row.sourceKey;
    } else {
      assert t.accepted[row.frame.messageId].sourceKey == row.sourceKey;
    }
  }

  lemma DropSafe(s: State, session: string, at: int, key: string)
    requires Safe(s, key)
    ensures Safe(s.(store := Discard(s.store, session, at), discarded := s.discarded +
            DroppedKeys(s.store, session, at)), key)
  {
    if f :| f in s.store.events && s.store.events[f].sourceKey == key {
      if !Undeliverable(s.store.events[f], session, at) {
        assert Discard(s.store, session, at).events[f].sourceKey == key;
      }
    }
  }

  lemma EnqueueSafe(s: State, part: Part, frame: EventFrame, key: string)
    requires s.poll.Working?
    ensures Safe(s, key) ==> Safe(Enqueued(s, part, frame), key)
    ensures EnqueueReturns(s.store, part.sourceKey, frame) ==> Safe(Enqueued(s, part, frame), part.sourceKey)
  {
    var t := EnqueueEvent(s.store, part.sourceKey, frame, part.receipt);
    EnqueueReturnsExactly(s.store, part.sourceKey, frame, part.receipt);
    if f :| f in s.store.events && s.store.events[f].sourceKey == key { assert t.events[f].sourceKey == key; }
  }

  /** The item's cursor has passed it, or Agent Mesh heard that it was taken. */
  predicate Through(s: State, x: Item) { x.sequence <= Cursor(s, FeedOf(x)) || x.id in s.acked }

  /** The first events of the item's plan are safe. */
  ghost predicate PlanSafe(s: State, x: Item, capable: bool, upTo: nat, sha: string -> string) {
    forall i :: 0 <= i < upTo && i < |Plan(x, capable, sha)| ==> Safe(s, Plan(x, capable, sha)[i].sourceKey)
  }

  ghost predicate NothingLost(s: State, sha: string -> string) {
    && s.capable <= s.acked
    && (s.poll.Working? && s.poll.batch != [] ==> PlanSafe(s, Head(s), s.poll.capable, s.poll.done, sha))
    && forall x :: x in s.known && Through(s, x) ==> x.id in s.skipped || PlanSafe(s, x, x.id in s.capable, 2, sha)
  }

  lemma PlanSafeKept(s: State, step: Step, sha: string -> string)
    requires Consistent(s.store) && ReceiptsKept(s, sha) && Enabled(s, step, sha)
    ensures forall x, capable, upTo: nat :: PlanSafe(s, x, capable, upTo, sha) ==>
            PlanSafe(Apply(s, step, sha), x, capable, upTo, sha)
  {
    hide Safe, Enabled, Apply, Consistent, ReceiptsKept, Plan;
    forall key | Safe(s, key) ensures Safe(Apply(s, step, sha), key) { SafeKept(s, step, key, sha); }
  }

  lemma LossStep(s: State, step: Step, sha: string -> string)
    requires Consistent(s.store) && ReceiptsKept(s, sha) && PollKept(s, sha) && NothingLost(s, sha) && KnownUnique(s)
    requires Enabled(s, step, sha)
    ensures NothingLost(Apply(s, step, sha), sha)
  {
    hide PlanSafe, Consistent, ReceiptsKept, NothingLost, Enabled, Apply, PollKept;
    PlanSafeKept(s, step, sha);
    Frame(s, step, sha);
    if step.SetCursor? || step.SkipCompletion? {
      CursorMoved(s, step, sha);
    } else if step.FetchEmpty? {
      CursorJumped(s, step, sha);
    } else if step.AckUpstream? {
      HeadAcked(s, step, sha);
    } else if step.Enqueue? {
      HeadAdvanced(s, step, sha);
    } else if step.Grow? {
      ItemGrown(s, step, sha);
    } else {
      if step.Draw? { DrawStands(s, step, sha); }
      LossFrame(s, Apply(s, step, sha), sha);
    }
  }

  lemma DrawStands(s: State, step: Step, sha: string -> string)
    requires Enabled(s, step, sha) && step.Draw?
    ensures forall feed :: Cursor(Apply(s, step, sha), feed) == Cursor(s, feed)
    ensures s.poll.Working? && Apply(s, step, sha).poll == s.poll.(drawn := Apply(s, step, sha).poll.drawn)
  {
    hide Plan;
    CursorsApart(s.store, Intents, 0);
  }

  lemma LossFrame(s: State, t: State, sha: string -> string)
    requires NothingLost(s, sha) && t.known == s.known && t.acked == s.acked && t.skipped == s.skipped &&
             t.capable == s.capable
    requires forall feed :: Cursor(t, feed) == Cursor(s, feed)
    requires t.poll.Idle? || (t.poll.done == 0) ||
             (s.poll.Working? && t.poll.batch == s.poll.batch && t.poll.capable == s.poll.capable &&
               t.poll.done == s.poll.done)
    requires forall x, capable, upTo: nat :: PlanSafe(s, x, capable, upTo, sha) ==> PlanSafe(t, x, capable, upTo, sha)
    ensures NothingLost(t, sha)
  {
    hide Plan, Safe;
  }

  lemma PlanComplete(s: State, x: Item, capable: bool, sha: string -> string)
    requires PlanSafe(s, x, capable, |Plan(x, capable, sha)|, sha)
    ensures PlanSafe(s, x, capable, 2, sha)
    ensures !x.content.Intent? ==> forall c :: PlanSafe(s, x, c, 2, sha)
  {
    hide Safe;
  }

  /** Between the old cursor and the new one lie the head of the page and items acknowledged before. */
  lemma CursorMoved(s: State, step: Step, sha: string -> string)
    requires PollKept(s, sha) && NothingLost(s, sha) && Enabled(s, step, sha) &&
             (step.SetCursor? || step.SkipCompletion?)
    requires forall x, capable, upTo: nat :: PlanSafe(s, x, capable, upTo, sha) ==>
             PlanSafe(Apply(s, step, sha), x, capable, upTo, sha)
    ensures NothingLost(Apply(s, step, sha), sha)
  {
    hide Plan, PlanSafe;
    var t, head := Apply(s, step, sha), Head(s);
    CursorsApart(s.store, s.poll.feed, head.sequence);
    if step.SetCursor? { PlanComplete(s, head, s.poll.capable, sha); }
    if t.poll.Working? { NoneYet(t, Head(t), t.poll.capable, sha); }
    forall x | x in t.known && Through(t, x) ensures x.id in t.skipped || PlanSafe(t, x, x.id in t.capable, 2, sha) {
      if !Through(s, x) {
        assert x in s.poll.batch;
        var i :| 0 <= i < |s.poll.batch| && s.poll.batch[i] == x;
        assert i == 0;
      }
    }
  }

  lemma NoneYet(s: State, x: Item, capable: bool, sha: string -> string)
    ensures PlanSafe(s, x, capable, 0, sha)
  {
  }

  lemma CursorJumped(s: State, step: Step, sha: string -> string)
    requires NothingLost(s, sha) && Enabled(s, step, sha) && step.FetchEmpty?
    requires forall x, capable, upTo: nat :: PlanSafe(s, x, capable, upTo, sha) ==>
             PlanSafe(Apply(s, step, sha), x, capable, upTo, sha)
    ensures NothingLost(Apply(s, step, sha), sha)
  {
    hide Plan, PlanSafe;
    var t := Apply(s, step, sha);
    CursorsApart(s.store, step.feed, step.next);
    forall x | x in t.known && Through(t, x) ensures Through(s, x) {
      assert x.id in s.acked || x.sequence <= Cursor(s, FeedOf(x));
    }
  }

  lemma HeadAcked(s: State, step: Step, sha: string -> string)
    requires NothingLost(s, sha) && PollKept(s, sha) && KnownUnique(s) && Enabled(s, step, sha) && step.AckUpstream?
    requires forall x, capable, upTo: nat :: PlanSafe(s, x, capable, upTo, sha) ==>
             PlanSafe(Apply(s, step, sha), x, capable, upTo, sha)
    ensures NothingLost(Apply(s, step, sha), sha)
  {
    hide Plan, PlanSafe;
    var t, head := Apply(s, step, sha), Head(s);
    PlanComplete(s, head, s.poll.capable, sha);
    forall x | x in t.known && Through(t, x) ensures x.id in t.skipped || PlanSafe(t, x, x.id in t.capable, 2, sha) {
      if x.id == head.id { assert x == head; }
    }
  }

  lemma HeadAdvanced(s: State, step: Step, sha: string -> string)
    requires NothingLost(s, sha) && PollKept(s, sha) && Enabled(s, step, sha) && step.Enqueue?
    requires forall x, capable, upTo: nat :: PlanSafe(s, x, capable, upTo, sha) ==>
             PlanSafe(Apply(s, step, sha), x, capable, upTo, sha)
    ensures NothingLost(Apply(s, step, sha), sha)
  {
    hide Plan, Safe, PlanSafe;
    var t, head := Apply(s, step, sha), Head(s);
    var part := Plan(head, s.poll.capable, sha)[s.poll.done];
    EnqueueSafe(s, part, EventOf(s, part, step.token, step.freshId, step.session), "");
    if t.poll.Working? { OneMore(t, head, s.poll.capable, s.poll.done, sha); }
  }

  lemma OneMore(s: State, x: Item, capable: bool, done: nat, sha: string -> string)
    requires done < |Plan(x, capable, sha)| && PlanSafe(s, x, capable, done, sha) &&
             Safe(s, Plan(x, capable, sha)[done].sourceKey)
    ensures PlanSafe(s, x, capable, done + 1, sha)
  {
    hide Plan, Safe;
  }

  lemma ItemGrown(s: State, step: Step, sha: string -> string)
    requires NothingLost(s, sha) && Enabled(s, step, sha) && step.Grow?
    requires forall x, capable, upTo: nat :: PlanSafe(s, x, capable, upTo, sha) ==>
             PlanSafe(Apply(s, step, sha), x, capable, upTo, sha)
    ensures NothingLost(Apply(s, step, sha), sha)
  {
    hide Plan, PlanSafe;
  }
}

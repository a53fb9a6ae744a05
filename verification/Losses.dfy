/** When a run loses an event: what each flush drops, and that nothing else goes before it was accepted. */
module Losses {
  import opened Wrappers
  import opened Tables
  import opened Commands
  import opened Bridge
  import opened Delivery
  import opened Mirror
  import opened Runs

  // ---------------------------------------------------------------- what a flush drops

  /** A flush keeps the events of its session whose time is not up and the lifecycles of its session, and no others. */
  lemma DropExactly(states: seq<State>, steps: seq<Step>, sha: string -> string, i: nat)
    requires IsRun(states, steps, sha) && i < |steps| && steps[i].DropUndeliverable?
    ensures i + 1 < |states|
    ensures var s, t, session, at := states[i].store, states[i + 1].store, steps[i].session, steps[i].at;
            && (forall f :: f in t.events <==>
                  f in s.events && s.events[f].frame.sessionId == session &&
                  at < s.events[f].frame.timestamp + s.events[f].frame.ttlMs)
            && (forall f :: f in t.events ==> t.events[f] == s.events[f])
            && (forall f :: f in t.lifecycles <==> f in s.lifecycles && s.lifecycles[f].sessionId == session)
            && (forall f :: f in t.lifecycles ==> t.lifecycles[f] == s.lifecycles[f])
            && t == s.(events := t.events, lifecycles := t.lifecycles)
  {
    hide IsRun, Enabled, Apply;
    RunStep(states, steps, sha, i);
    DropApplied(states[i], steps[i].session, steps[i].at, sha);
  }

  /** A pending event goes exactly when it is acknowledged, or at a flush of another session or after its time. */
  lemma EventGoesExactly(states: seq<State>, steps: seq<Step>, sha: string -> string, i: nat, f: FrameId)
    requires IsRun(states, steps, sha) && i < |steps| && f in states[i].store.events
    ensures i + 1 < |states|
    ensures var frame := states[i].store.events[f].frame;
            f !in states[i + 1].store.events <==>
              || steps[i] == AckEvent(f)
              || (steps[i].DropUndeliverable? &&
                    (steps[i].session != frame.sessionId || frame.timestamp + frame.ttlMs <= steps[i].at))
    ensures f in states[i + 1].store.events ==> states[i + 1].store.events[f] == states[i].store.events[f]
  {
    hide IsRun, Enabled, Apply;
    RunStep(states, steps, sha, i);
    if steps[i].DropUndeliverable? {
      DropExactly(states, steps, sha, i);
    } else if steps[i].AckEvent? {
      AckApplied(states[i], steps[i].frameId, sha);
    } else if steps[i].Enqueue? {
      EnqueueKeeps(states[i], steps[i], sha, f);
    } else {
      EventsFrame(states[i], steps[i], sha);
    }
  }

  lemma EnqueueKeeps(s: State, step: Step, sha: string -> string, f: FrameId)
    requires Enabled(s, step, sha) && step.Enqueue? && f in s.store.events
    ensures var t := Apply(s, step, sha).store; f in t.events && t.events[f] == s.store.events[f]
  {
    hide Apply, Enabled, Plan, PendingKey, PendingMessage, EnqueueReturns, EventOf;
    EnqueueTaken(s, step, sha);
  }

  /** A pending lifecycle goes exactly when it is acknowledged, or at a flush of another session. */
  lemma LifecycleGoesExactly(states: seq<State>, steps: seq<Step>, sha: string -> string, i: nat, f: FrameId)
    requires IsRun(states, steps, sha) && i < |steps| && f in states[i].store.lifecycles
    ensures i + 1 < |states|
    ensures f !in states[i + 1].store.lifecycles <==>
              || steps[i] == AckLifecycle(f)
              || (steps[i].DropUndeliverable? && steps[i].session != states[i].store.lifecycles[f].sessionId)
    ensures f in states[i + 1].store.lifecycles ==> states[i + 1].store.lifecycles[f] == states[i].store.lifecycles[f]
  {
    hide IsRun, Enabled, Apply;
    RunStep(states, steps, sha, i);
    if steps[i].DropUndeliverable? {
      DropExactly(states, steps, sha, i);
    } else if steps[i].AckLifecycle? {
      AckApplied(states[i], steps[i].frameId, sha);
    } else if steps[i].Report? {
      ReportKeeps(states[i], sha, f);
    } else {
      CommandTables(states[i], steps[i], sha);
    }
  }

  lemma ReportKeeps(s: State, sha: string -> string, f: FrameId)
    requires Enabled(s, Report, sha) && f in s.store.lifecycles
    ensures var t := Apply(s, Report, sha).store; f in t.lifecycles && t.lifecycles[f] == s.store.lifecycles[f]
  {
    hide Apply, LifecyclePending;
    ReportApplied(s, sha);
  }

  // ---------------------------------------------------------------- where a pending event comes from

  /** The step stored this row for the head of its page, under the item's own key or that of its fleet intent. */
  ghost predicate StoredFor(s: State, step: Step, f: FrameId, row: EventRow) {
    && step.Enqueue? && f == Random(step.token) && s.poll.Working? && s.poll.batch != []
    && row.frame.sessionId == step.session && row.frame.timestamp == Head(s).createdAt
    && ((row.sourceKey == SourceKey(Head(s)) &&
           row.frame.ttlMs ==
           (if Head(s).content.Intent? then 30000 else if Head(s).content.Completion? then 300000 else 5000)) ||
          (Head(s).content.Ring? && row.sourceKey == "ring-fleet-intent:" + Head(s).id && row.frame.ttlMs == 5000) ||
          (Head(s).content.Intent? && row.sourceKey == "fleet-intent:" + Head(s).id && row.frame.ttlMs == 5000))
  }

  /** Every pending event was stored by an earlier step, with that step's session and its item's time. */
  lemma {:induction false} RowStored(states: seq<State>, steps: seq<Step>, sha: string -> string, i: nat, f: FrameId)
    returns (e: nat)
    requires IsRun(states, steps, sha) && i < |states| && f in states[i].store.events
    ensures e < i && e < |steps| && StoredFor(states[e], steps[e], f, states[i].store.events[f])
  {
    hide IsRun, Enabled, Apply, StoredFor;
    StartEmpty(states, steps, sha);
    RunStep(states, steps, sha, i - 1);
    if f in states[i - 1].store.events {
      e := RowStored(states, steps, sha, i - 1, f);
      EventGoesExactly(states, steps, sha, i - 1, f);
    } else {
      e := i - 1;
      RowStoredNow(states[e], steps[e], sha, f);
    }
  }

  lemma StartEmpty(states: seq<State>, steps: seq<Step>, sha: string -> string)
    requires IsRun(states, steps, sha)
    ensures |states| == |steps| + 1 && states[0] == START
  {
  }

  lemma RowStoredNow(s: State, step: Step, sha: string -> string, f: FrameId)
    requires Enabled(s, step, sha) && f !in s.store.events && f in Apply(s, step, sha).store.events
    ensures StoredFor(s, step, f, Apply(s, step, sha).store.events[f])
  {
    hide Apply, Enabled, Plan, EnqueueReturns, SourceKey, Fits, StoredFor;
    if step.Enqueue? {
      EnqueueTaken(s, step, sha);
      PartStored(s, step, sha);
    } else {
      RowsShrink(s, step, sha);
      assert false;
    }
  }

  lemma PartStored(s: State, step: Step, sha: string -> string)
    requires step.Enqueue? && s.poll.Working? && s.poll.batch != [] && s.poll.drawn.Some?
    requires s.poll.done < |Plan(Head(s), s.poll.capable, sha)|
    ensures var part := Plan(Head(s), s.poll.capable, sha)[s.poll.done];
            var frame := EventOf(s, part, step.token, step.freshId, step.session);
            frame.frameId == Random(step.token) &&
            forall receipt :: StoredFor(s, step, frame.frameId, EventRow(part.sourceKey, frame, receipt))
  {
    hide SourceKey, MainReceipt;
  }

  // ---------------------------------------------------------------- no item is lost

  /**
   * An event of the item under this key was stored for one session, and a later flush dropped it: a flush of another
   * session, or one after the item's time and the event's time to live.
   */
  ghost predicate DroppedLate(states: seq<State>, steps: seq<Step>, i: nat, x: Item, key: string, ttlMs: nat) {
    exists e, k, f ::
      && 0 <= e < k < i && k < |steps| && k < |states|
      && steps[e].Enqueue? && f == Random(steps[e].token) && IsHead(states[e], x)
      && steps[k].DropUndeliverable? && f in states[k].store.events && states[k].store.events[f].sourceKey == key
      && (steps[k].session != steps[e].session || x.createdAt + ttlMs <= steps[k].at)
  }

  predicate IsHead(s: State, x: Item) { s.poll.Working? && s.poll.batch != [] && Head(s) == x }

  /** The event waits, was accepted, or was dropped too late or in another session. */
  ghost predicate Accounted(states: seq<State>, steps: seq<Step>, i: nat, x: Item, key: string, ttlMs: nat)
    requires i < |states|
  {
    || (exists f :: f in states[i].store.events && states[i].store.events[f].sourceKey == key)
    || (exists m :: m in states[i].store.accepted && states[i].store.accepted[m].sourceKey == key)
    || DroppedLate(states, steps, i, x, key, ttlMs)
  }

  /** Agent Mesh heard, before state `i`, that the item was taken. */
  ghost predicate TakenUpstream(states: seq<State>, steps: seq<Step>, i: nat, x: Item, capable: bool) {
    exists k ::
      0 <= k < i && k < |steps| && k < |states| && steps[k] == AckUpstream && IsHead(states[k], x) &&
      (capable ==> states[k].poll.capable)
  }

  /** The completion was passed over when its session had no route to a node of the mapping. */
  ghost predicate PassedOver(states: seq<State>, steps: seq<Step>, i: nat, x: Item) {
    exists k ::
      && 0 <= k < i && k < |steps| && k < |states| && steps[k].SkipCompletion? && IsHead(states[k], x)
      && x.content.Completion?
      && (x.content.session in states[k].store.routes ==>
            states[k].store.routes[x.content.session].targetNodeId !in steps[k].mapping.nodes)
  }

  /**
   * Every item the cursor has passed or Agent Mesh heard was taken is pending, accepted, or was dropped by a flush of
   * another session or after its time to live; only a completion without a route is passed over.
   */
  lemma NoItemLost(states: seq<State>, steps: seq<Step>, sha: string -> string, i: nat, x: Item)
    requires IsRun(states, steps, sha) && i < |states| && x in states[i].known
    requires x.sequence <= Cursor(states[i], FeedOf(x)) || TakenUpstream(states, steps, i, x, false)
    ensures || PassedOver(states, steps, i, x)
            || Accounted(states, steps, i, x, SourceKey(x),
                 if x.content.Intent? then 30000 else if x.content.Completion? then 300000 else 5000)
    ensures x.content.Ring? && x.content.gesture == "double_tap" ==>
              Accounted(states, steps, i, x, "ring-fleet-intent:" + x.id, 5000)
    ensures x.content.Intent? && x.content.launch && TakenUpstream(states, steps, i, x, true) ==>
              Accounted(states, steps, i, x, "fleet-intent:" + x.id, 5000)
  {
    hide IsRun, Accounted, TakenUpstream, PassedOver, SourceKey, Safe, Cursor;
    UpstreamHeard(states, steps, sha, i, x);
    ItemsSafe(states, steps, sha, i, x);
    if x.id in states[i].skipped { SkippedOver(states, steps, sha, i, x); }
    SafeAccounted(states, steps, sha, i, x);
  }

  /** An acknowledged item is remembered as such. */
  lemma UpstreamHeard(states: seq<State>, steps: seq<Step>, sha: string -> string, i: nat, x: Item)
    requires IsRun(states, steps, sha) && i < |states|
    ensures TakenUpstream(states, steps, i, x, false) ==> x.id in states[i].acked
    ensures TakenUpstream(states, steps, i, x, true) ==> x.id in states[i].capable
  {
    hide IsRun;
    forall k | 0 <= k < i && k < |steps| && steps[k] == AckUpstream && IsHead(states[k], x)
      ensures x.id in states[i].acked && (states[k].poll.capable ==> x.id in states[i].capable)
    {
      HeardLater(states, steps, sha, k, i, x);
    }
  }

  lemma {:induction false} HeardLater(states: seq<State>, steps: seq<Step>, sha: string -> string, k: nat, i: nat,
      x: Item)
    requires IsRun(states, steps, sha) && k < i < |states| && k < |steps|
    requires steps[k] == AckUpstream && IsHead(states[k], x)
    ensures x.id in states[i].acked && (states[k].poll.capable ==> x.id in states[i].capable)
  {
    hide IsRun, Enabled, Apply;
    RunStep(states, steps, sha, i - 1);
    if k == i - 1 {
      UpstreamTold(states[k], sha);
    } else {
      HeardLater(states, steps, sha, k, i - 1, x);
      HeardKept(states[i - 1], steps[i - 1], sha);
    }
  }

  lemma UpstreamTold(s: State, sha: string -> string)
    requires Enabled(s, AckUpstream, sha)
    ensures s.poll.Working? && s.poll.batch != []
    ensures var t := Apply(s, AckUpstream, sha);
            && t.acked == s.acked + {Head(s).id}
            && t.capable == if s.poll.capable then s.capable + {Head(s).id} else s.capable
  {
    hide Plan;
  }

  lemma HeardKept(s: State, step: Step, sha: string -> string)
    requires Enabled(s, step, sha)
    ensures s.acked <= Apply(s, step, sha).acked && s.capable <= Apply(s, step, sha).capable
  {
    hide Enabled, Apply;
    if step == AckUpstream { UpstreamTold(s, sha); } else { HistoryFrame(s, step, sha); }
  }

  /** A skipped item was passed over before. */
  lemma {:induction false} SkippedOver(states: seq<State>, steps: seq<Step>, sha: string -> string, i: nat, x: Item)
    requires IsRun(states, steps, sha) && i < |states| && x in states[i].known && x.id in states[i].skipped
    ensures PassedOver(states, steps, i, x)
  {
    hide IsRun, Enabled, Apply, PassedOver, Inv;
    StartEmpty(states, steps, sha);
    RunStep(states, steps, sha, i - 1);
    var s, step := states[i - 1], steps[i - 1];
    Invariant(states, steps, sha, i - 1);
    if x.id in s.skipped {
      SkippedKnown(s, step, sha, x);
      SkippedOver(states, steps, sha, i - 1, x);
      PassedLater(states, steps, i - 1, x);
    } else {
      SkippedNow(s, step, sha, x);
      assert PassedOver(states, steps, i, x) by { PassedHere(states, steps, i - 1, x); }
    }
  }

  lemma PassedLater(states: seq<State>, steps: seq<Step>, i: nat, x: Item)
    requires PassedOver(states, steps, i, x)
    ensures PassedOver(states, steps, i + 1, x)
  {
    hide IsHead;
  }

  lemma PassedHere(states: seq<State>, steps: seq<Step>, k: nat, x: Item)
    requires k < |steps| && k < |states| && steps[k].SkipCompletion? && IsHead(states[k], x) && x.content.Completion?
    requires x.content.session in states[k].store.routes ==>
             states[k].store.routes[x.content.session].targetNodeId !in steps[k].mapping.nodes
    ensures PassedOver(states, steps, k + 1, x)
  {
    hide IsHead;
  }

  lemma SkippedKnown(s: State, step: Step, sha: string -> string, x: Item)
    requires Enabled(s, step, sha) && x.id in s.skipped && x in Apply(s, step, sha).known
    ensures x in s.known
  {
    hide Enabled, Apply;
    if step.Grow? { GrowNew(s, step, sha); } else { HistoryFrame(s, step, sha); }
  }

  lemma GrowNew(s: State, step: Step, sha: string -> string)
    requires Enabled(s, step, sha) && step.Grow?
    ensures step.item.id !in s.skipped && Apply(s, step, sha).known == s.known + {step.item}
  {
  }

  lemma SkippedNow(s: State, step: Step, sha: string -> string, x: Item)
    requires Inv(s, sha) && Enabled(s, step, sha)
    requires x.id !in s.skipped && x.id in Apply(s, step, sha).skipped && x in Apply(s, step, sha).known
    ensures step.SkipCompletion? && IsHead(s, x) && x.content.Completion?
    ensures x.content.session in s.store.routes ==>
              s.store.routes[x.content.session].targetNodeId !in step.mapping.nodes
  {
    hide Enabled, Apply, Consistent, PollKept, ReceiptsKept, OriginsKept, SequencesKept, NothingLost, HandlerKept,
         ReportsKept, EndsKept;
    HistoryFrame(s, step, sha);
    SkipTaken(s, step, sha);
    HeadKnown(s, sha);
  }

  lemma SkipTaken(s: State, step: Step, sha: string -> string)
    requires Enabled(s, step, sha) && step.SkipCompletion?
    ensures s.poll.Working? && s.poll.batch != [] && Head(s).content.Completion?
    ensures Head(s).content.session in s.store.routes ==>
              s.store.routes[Head(s).content.session].targetNodeId !in step.mapping.nodes
    ensures Apply(s, step, sha).skipped == s.skipped + {Head(s).id}
  {
    hide SetNumber, CursorKey, Advance;
  }

  /** A dropped key was that of a pending event which a flush dropped. */
  lemma {:induction false} KeyDropped(states: seq<State>, steps: seq<Step>, sha: string -> string, i: nat, key: string)
    returns (k: nat, f: FrameId)
    requires IsRun(states, steps, sha) && i < |states| && key in states[i].discarded
    ensures k < i && k < |steps| && steps[k].DropUndeliverable?
    ensures f in states[k].store.events && states[k].store.events[f].sourceKey == key
    ensures var frame := states[k].store.events[f].frame;
            steps[k].session != frame.sessionId || frame.timestamp + frame.ttlMs <= steps[k].at
  {
    hide IsRun, Enabled, Apply;
    StartEmpty(states, steps, sha);
    RunStep(states, steps, sha, i - 1);
    if key in states[i - 1].discarded {
      k, f := KeyDropped(states, steps, sha, i - 1, key);
    } else {
      k := i - 1;
      HistoryFrame(states[k], steps[k], sha);
      DropApplied(states[k], steps[k].session, steps[k].at, sha);
      f :| f in states[k].store.events && Undeliverable(states[k].store.events[f], steps[k].session, steps[k].at) &&
           states[k].store.events[f].sourceKey == key;
    }
  }

  /** Whose event a row is, by its key. */
  lemma OwnerOf(s: State, step: Step, f: FrameId, row: EventRow, x: Item)
    requires StoredFor(s, step, f, row)
    ensures row.sourceKey == SourceKey(x) ==>
              Head(s).id == x.id && row.frame.ttlMs ==
              (if Head(s).content.Intent? then 30000 else if Head(s).content.Completion? then 300000 else 5000)
    ensures row.sourceKey == "ring-fleet-intent:" + x.id ==> Head(s).id == x.id && row.frame.ttlMs == 5000
    ensures row.sourceKey == "fleet-intent:" + x.id ==> Head(s).id == x.id && row.frame.ttlMs == 5000
  {
    hide SourceKey;
    var y := Head(s);
    KeysDistinct(x, y);
    KeysDistinct(y, x);
    FleetKeysApart(x.id, y.id);
  }

  lemma FleetKeysApart(a: string, b: string)
    ensures "ring-fleet-intent:" + a == "ring-fleet-intent:" + b ==> a == b
    ensures "fleet-intent:" + a == "fleet-intent:" + b ==> a == b
    ensures "ring-fleet-intent:" + a != "fleet-intent:" + b && "fleet-intent:" + a != "ring-fleet-intent:" + b
    ensures FleetShaped("ring-fleet-intent:" + a) && FleetShaped("fleet-intent:" + a)
    ensures FleetShaped("ring-fleet-intent:" + b) && FleetShaped("fleet-intent:" + b)
  {
    assert ("ring-fleet-intent:" + a)[18..] == a && ("ring-fleet-intent:" + b)[18..] == b;
    assert ("fleet-intent:" + a)[13..] == a && ("fleet-intent:" + b)[13..] == b;
    assert ("ring-fleet-intent:" + a)[0] == 'r' && ("fleet-intent:" + b)[0] == 'f';
    assert ("ring-fleet-intent:" + b)[0] == 'r' && ("fleet-intent:" + a)[0] == 'f';
  }

  lemma {:induction false} KnownLater(states: seq<State>, steps: seq<Step>, sha: string -> string, e: nat, i: nat)
    requires IsRun(states, steps, sha) && e <= i < |states|
    ensures states[e].known <= states[i].known
  {
    hide IsRun, Enabled, Apply;
    if e < i {
      KnownLater(states, steps, sha, e, i - 1);
      RunStep(states, steps, sha, i - 1);
      if steps[i - 1].Grow? {
        GrowNew(states[i - 1], steps[i - 1], sha);
      } else {
        HistoryFrame(states[i - 1], steps[i - 1], sha);
      }
    }
  }

  /** The head that a step stored an event for is the only item of its id. */
  lemma HeadIs(states: seq<State>, steps: seq<Step>, sha: string -> string, e: nat, i: nat, x: Item)
    requires IsRun(states, steps, sha) && e <= i < |states| && x in states[i].known
    requires states[e].poll.Working? && states[e].poll.batch != [] && Head(states[e]).id == x.id
    ensures IsHead(states[e], x)
  {
    hide IsRun, Consistent, PollKept, ReceiptsKept, OriginsKept, SequencesKept, NothingLost, HandlerKept, ReportsKept,
         EndsKept;
    Invariant(states, steps, sha, e);
    Invariant(states, steps, sha, i);
    HeadKnown(states[e], sha);
    KnownLater(states, steps, sha, e, i);
  }

  /** A key of the item that a flush dropped was dropped too late or in another session. */
  lemma DroppedAccounted(states: seq<State>, steps: seq<Step>, sha: string -> string, i: nat, x: Item, key: string,
      ttlMs: nat)
    requires IsRun(states, steps, sha) && i < |states| && x in states[i].known && key in states[i].discarded
    requires || (key == SourceKey(x) && ttlMs ==
                 if x.content.Intent? then 30000 else if x.content.Completion? then 300000 else 5000)
             || (key == "ring-fleet-intent:" + x.id && ttlMs == 5000)
             || (key == "fleet-intent:" + x.id && ttlMs == 5000)
    ensures DroppedLate(states, steps, i, x, key, ttlMs)
  {
    hide IsRun, SourceKey, StoredFor;
    var k, f := KeyDropped(states, steps, sha, i, key);
    var e := RowStored(states, steps, sha, k, f);
    var row := states[k].store.events[f];
    OwnerOf(states[e], steps[e], f, row, x);
    RowParts(states[e], steps[e], f, row);
    HeadIs(states, steps, sha, e, i, x);
  }

  lemma RowParts(s: State, step: Step, f: FrameId, row: EventRow)
    requires StoredFor(s, step, f, row)
    ensures step.Enqueue? && f == Random(step.token) && s.poll.Working? && s.poll.batch != []
    ensures row.frame.sessionId == step.session && row.frame.timestamp == Head(s).createdAt
  {
  }

  lemma SafeAccounted(states: seq<State>, steps: seq<Step>, sha: string -> string, i: nat, x: Item)
    requires IsRun(states, steps, sha) && i < |states| && x in states[i].known
    ensures Safe(states[i], SourceKey(x)) ==>
              Accounted(states, steps, i, x, SourceKey(x),
                if x.content.Intent? then 30000 else if x.content.Completion? then 300000 else 5000)
    ensures Safe(states[i], "ring-fleet-intent:" + x.id) ==>
              Accounted(states, steps, i, x, "ring-fleet-intent:" + x.id, 5000)
    ensures Safe(states[i], "fleet-intent:" + x.id) ==> Accounted(states, steps, i, x, "fleet-intent:" + x.id, 5000)
  {
    hide IsRun, DroppedLate, SourceKey;
    var own, ring, fleet := SourceKey(x), "ring-fleet-intent:" + x.id, "fleet-intent:" + x.id;
    if own in states[i].discarded {
      DroppedAccounted(states, steps, sha, i, x, own,
        if x.content.Intent? then 30000 else if x.content.Completion? then 300000 else 5000);
    }
    if ring in states[i].discarded { DroppedAccounted(states, steps, sha, i, x, ring, 5000); }
    if fleet in states[i].discarded { DroppedAccounted(states, steps, sha, i, x, fleet, 5000); }
  }
}

/**
 * The bridge object: its loops over the feeds, its command and acknowledgement handlers, and its flush. Each durable
 * write it makes is one protocol step, so that its history is a run and every result about runs is about this object.
 */
module BridgeLoop {
  import opened Wrappers
  import opened Tables
  import opened Commands
  import opened Bridge
  import opened Delivery
  import opened Mirror
  import opened Runs
  import Outbox

  const DELIVERY_RETRY_MS := 5000
  const PENDING_LIMIT := 100

  lemma RunExtends(states: seq<State>, steps: seq<Step>, step: Step, sha: string -> string)
    requires IsRun(states, steps, sha) && Enabled(states[|states| - 1], step, sha)
    ensures IsRun(states + [Apply(states[|states| - 1], step, sha)], steps + [step], sha)
  {
    hide Enabled, Apply;
  }

  /** A frame is due when it was never sent on this connection, or long enough ago. */
  predicate Due(inFlight: map<FrameId, int>, f: FrameId, now: int) {
    f !in inFlight || now - inFlight[f] >= DELIVERY_RETRY_MS
  }

  function EnqueuedAll(s: Store, reports: seq<Lifecycle>): Store {
    if reports == [] then s else EnqueueLifecycle(EnqueuedAll(s, reports[..|reports| - 1]), reports[|reports| - 1])
  }

  lemma LifecyclesGrow(s: Store, l: Lifecycle)
    ensures s.lifecycles.Keys <= EnqueueLifecycle(s, l).lifecycles.Keys
  {
  }

  lemma NoneEnqueued(s: Store)
    ensures EnqueuedAll(s, []) == s
  {
  }

  lemma {:induction false} EnqueuedRows(s: Store, reports: seq<Lifecycle>)
    ensures EnqueuedAll(s, reports).commands == s.commands
  {
    if reports != [] { EnqueuedRows(s, reports[..|reports| - 1]); }
  }

  /** The protocol steps of one delivery, by its answer. */
  function DeliverySteps(c: Command, m: Mapping, now: int, answer: Option<seq<Lifecycle>>): seq<Step> {
    if answer == None || answer == Some([]) then [Receive(c, m, now)]
    else [Receive(c, m, now), Decide, Update] + seq(|answer.value|, _ => Report)
  }

  /** An answer that is not silent ends with the command's terminal lifecycle. */
  lemma AnswerEnds(s: Store, c: Command, m: Mapping, now: int, sha: string -> string)
    requires Answer(s, c, m, now, sha) != None && Answer(s, c, m, now, sha) != Some([])
    ensures exists l :: l in Answer(s, c, m, now, sha).value && IsTerminal(l.stage) && l.commandId == c.commandId
  {
    hide Judge, IdempotencyUsed;
    VerdictTerminal(s, c, m, now, sha);
    var reports := Answer(s, c, m, now, sha).value;
    assert reports[|reports| - 1] in reports;
  }

  class CitAgentMeshBridge {
    const outbox: Outbox.BridgeOutbox
    const handler: MirrorCommandHandler
    const sha: string -> string
    var inFlight: map<FrameId, int>
    ghost var states: seq<State>
    ghost var steps: seq<Step>

    ghost predicate Valid()
      reads this, outbox
    {
      && states != [] && IsRun(states, steps, sha) && states[|states| - 1].store == outbox.Contents()
      && handler.outbox == outbox && handler.sha == sha
    }

    ghost function Current(): State
      requires states != []
      reads this
    {
      states[|states| - 1]
    }

    constructor (sha: string -> string)
      ensures Valid() && fresh(outbox) && states == [START] && inFlight == map[]
    {
      var database := new Outbox.BridgeOutbox();
      outbox := database;
      handler := new MirrorCommandHandler(database, sha);
      this.sha := sha;
      inFlight := map[];
      states, steps := [START], [];
    }

    /** The process starts again on the database that a crash left behind. */
    constructor Reopen(before: CitAgentMeshBridge)
      requires before.Valid()
      ensures Valid() && outbox == before.outbox && inFlight == map[]
      ensures steps == before.steps + [Crash] && Current().store == before.Current().store &&
              Current().handler.Quiet? && Current().poll.Idle?
    {
      var history := before.states;
      outbox := before.outbox;
      handler := before.handler;
      sha := before.sha;
      inFlight := map[];
      CrashApplied(before.Current(), before.sha);
      RunExtends(before.states, before.steps, Crash, before.sha);
      states := before.states + [Apply(before.states[|before.states| - 1], Crash, before.sha)];
      steps := before.steps + [Crash];
    }

    ghost method Take(step: Step)
      requires states != [] && IsRun(states, steps, sha) && Enabled(Current(), step, sha)
      modifies this`states, this`steps
      ensures IsRun(states, steps, sha) && states != [] && Current() == Apply(old(Current()), step, sha)
      ensures steps == old(steps) + [step]
    {
      hide Enabled, Apply, IsRun;
      RunExtends(states, steps, step, sha);
      states, steps := states + [Apply(Current(), step, sha)], steps + [step];
    }

    /** What holds in every state of the object's history. */
    lemma CurrentInv()
      requires Valid()
      ensures Inv(Current(), sha)
    {
      Invariant(states, steps, sha, |states| - 1);
    }

    /** Agent Mesh offers a new item. */
    ghost method Offer(x: Item)
      requires Valid() && Enabled(Current(), Grow(x), sha)
      modifies this`states, this`steps
      ensures Valid() && Current() == old(Current()).(known := old(Current().known) + {x})
    {
      hide Apply, Enabled, IsRun;
      GrowApplied(Current(), x, sha);
      Take(Grow(x));
    }

    method Acknowledge(frameId: FrameId)
      requires Valid()
      modifies this, outbox
      ensures Valid() && steps == old(steps) + [AckEvent(frameId), AckLifecycle(frameId)]
      ensures inFlight == old(inFlight) - {frameId}
    {
      hide Apply, Enabled, IsRun;
      AcknowledgeEvent(frameId);
      AcknowledgeReport(frameId);
      inFlight := inFlight - {frameId};
    }

    method AcknowledgeEvent(frameId: FrameId)
      requires Valid()
      modifies this`states, this`steps, outbox
      ensures Valid() && steps == old(steps) + [AckEvent(frameId)]
    {
      hide Apply, Enabled, IsRun, Inv, Consistent, AcknowledgeFrame;
      CurrentInv();
      ConsistentNow();
      AckApplied(Current(), frameId, sha);
      var _ := outbox.AcknowledgeFrame(frameId);
      Take(AckEvent(frameId));
    }

    method AcknowledgeReport(frameId: FrameId)
      requires Valid()
      modifies this`states, this`steps, outbox
      ensures Valid() && steps == old(steps) + [AckLifecycle(frameId)]
    {
      hide Apply, Enabled, IsRun, AcknowledgeLifecycle;
      AckApplied(Current(), frameId, sha);
      var _ := outbox.AcknowledgeLifecycleFrame(frameId);
      Take(AckLifecycle(frameId));
    }

    /** The frames `pendingEvents` and `pendingLifecycles` return: all of them, or a hundred of each. */
    method Pending() returns (frames: seq<FrameId>)
      ensures forall f :: f in frames ==> f in outbox.events || f in outbox.lifecycles
      ensures |outbox.events| <= PENDING_LIMIT ==> forall f :: f in outbox.events ==> f in frames
      ensures |outbox.lifecycles| <= PENDING_LIMIT ==> forall f :: f in outbox.lifecycles ==> f in frames
      ensures |frames| <= 2 * PENDING_LIMIT
    {
      var events := Some100(outbox.events.Keys);
      var lifecycles := Some100(outbox.lifecycles.Keys);
      frames := events + lifecycles;
    }

    /** Drops what cannot be delivered any more, then sends every pending frame that is due. */
    method Flush(session: string, now: int) returns (sent: seq<FrameId>)
      requires Valid()
      modifies this, outbox
      ensures Valid() && steps == old(steps) + [DropUndeliverable(session, now)]
      ensures forall f :: f in outbox.events <==>
              f in old(outbox.events) && old(outbox.events)[f].frame.sessionId == session &&
              now < old(outbox.events)[f].frame.timestamp + old(outbox.events)[f].frame.ttlMs
      ensures forall f :: f in outbox.lifecycles <==>
              f in old(outbox.lifecycles) && old(outbox.lifecycles)[f].sessionId == session
      ensures forall f :: f in sent ==>
              && (f in old(inFlight) ==> old(inFlight)[f] + 5000 <= now)
              && (f in outbox.events || f in outbox.lifecycles)
      ensures inFlight == map f | f in old(inFlight).Keys + (set g | g in sent) ::
              if f in sent then now else old(inFlight)[f]
      ensures |outbox.events| <= 100 ==>
                forall f :: f in outbox.events && (f in old(inFlight) ==> old(inFlight)[f] + 5000 <= now) ==> f in sent
      ensures forall j, k :: 0 <= j < k < |sent| ==> sent[j] != sent[k]
      ensures |outbox.lifecycles| <= 100 ==>
                forall f :: f in outbox.lifecycles && (f in old(inFlight) ==> old(inFlight)[f] + 5000 <= now) ==>
                  f in sent
    {
      hide Apply, Enabled, IsRun, Discard;
      DropFrames(session, now);
      var pending := Pending();
      sent := SendDue(pending, now);
    }

    method DropFrames(session: string, now: int)
      requires Valid()
      modifies this`states, this`steps, outbox
      ensures Valid() && steps == old(steps) + [DropUndeliverable(session, now)]
      ensures forall f :: f in outbox.events <==>
              f in old(outbox.events) && old(outbox.events)[f].frame.sessionId == session &&
              now < old(outbox.events)[f].frame.timestamp + old(outbox.events)[f].frame.ttlMs
      ensures forall f :: f in outbox.lifecycles <==>
              f in old(outbox.lifecycles) && old(outbox.lifecycles)[f].sessionId == session
    {
      hide Apply, Enabled, IsRun, Discard;
      DropApplied(Current(), session, now, sha);
      var _, _ := outbox.DiscardUndeliverableFrames(session, now);
      Take(DropUndeliverable(session, now));
    }

    method SendDue(pending: seq<FrameId>, now: int) returns (sent: seq<FrameId>)
      modifies this`inFlight
      ensures forall f :: f in sent <==> f in pending && Due(old(inFlight), f, now)
      ensures forall j, k :: 0 <= j < k < |sent| ==> sent[j] != sent[k]
      ensures inFlight == map f | f in old(inFlight).Keys + (set g | g in sent) ::
              if f in sent then now else old(inFlight)[f]
    {
      sent := [];
      for i := 0 to |pending|
        invariant forall f :: f in sent <==> f in pending[..i] && Due(old(inFlight), f, now)
        invariant forall j, k :: 0 <= j < k < |sent| ==> sent[j] != sent[k]
        invariant inFlight == map f | f in old(inFlight).Keys + (set g | g in sent) ::
                  if f in sent then now else old(inFlight)[f]
      {
        var f := pending[i];
        assert pending[..i + 1] == pending[..i] + [f];
        if f !in inFlight || now - inFlight[f] >= DELIVERY_RETRY_MS {
          sent := sent + [f];
          inFlight := inFlight[f := now];
        }
      }
    }

    /** A command frame; false is a throw, which ends the connection. */
    method HandleCommand(c: Command, m: Mapping, now: int) returns (ok: bool)
      requires Valid() && Current().handler.Quiet?
      modifies this, outbox
      ensures Valid() && Current().handler.Quiet? && Current().poll == old(Current().poll)
      ensures Current().crashes == old(Current().crashes) && inFlight == old(inFlight)
      ensures var answer := Answer(old(outbox.Contents()), c, m, now, sha);
              && (ok <==> answer.Some?)
              && steps == old(steps) + DeliverySteps(c, m, now, answer)
              && outbox.Contents() ==
                 EnqueuedAll(Handled(old(outbox.Contents()), c, m, now, sha), if ok then answer.value else [])
              && (ok ==> forall l :: l in answer.value ==> LifecycleId(l) in outbox.lifecycles)
              && (ok && answer.value != [] ==> Ended(Current(), c.commandId) == 1)
      ensures ok ==> c.commandId in outbox.commands && IsTerminal(outbox.commands[c.commandId].stage)
    {
      hide Apply, Enabled, IsRun, Answer, Handled, Inv, Consistent, EnqueuedAll;
      CurrentInv();
      ConsistentNow();
      var answer := handler.Handle(c, m, now);
      ghost var handled := outbox.Contents();
      assert handled == Handled(old(outbox.Contents()), c, m, now, sha);
      if answer == None || answer == Some([]) {
        HandlerIsProtocol(Current(), c, m, now, sha);
        SilentStore(old(outbox.Contents()), c, m, now, sha);
        HandlerEnabled(Current(), c, m, now, sha);
        Take(Receive(c, m, now));
        NoneEnqueued(handled);
      } else {
        TakeDelivery(c, m, now);
        ReportAll(answer.value);
        AnswerEnds(old(outbox.Contents()), c, m, now, sha);
        assert steps == old(steps) + DeliverySteps(c, m, now, answer);
      }
      if answer.Some? {
        HandledTerminal(old(outbox.Contents()), c, m, now, sha);
        EnqueuedRows(handled, answer.value);
      }
      ok := answer.Some?;
    }

    /** The steps behind one delivery that is not silent. */
    ghost method TakeDelivery(c: Command, m: Mapping, now: int)
      requires states != [] && IsRun(states, steps, sha) && Current().handler.Quiet? && Consistent(Current().store)
      requires Answer(Current().store, c, m, now, sha) != None && Answer(Current().store, c, m, now, sha) != Some([])
      modifies this`states, this`steps
      ensures states != [] && IsRun(states, steps, sha) && Current().poll == old(Current().poll)
      ensures Current().crashes == old(Current().crashes)
      ensures steps == old(steps) + [Receive(c, m, now), Decide, Update]
      ensures Current().store == Handled(old(Current().store), c, m, now, sha)
      ensures Current().handler == Reporting(Answer(old(Current().store), c, m, now, sha).value)
    {
      hide Apply, Enabled, IsRun, Answer, Handled, Consistent;
      var s := Current();
      HandlerIsProtocol(s, c, m, now, sha);
      HandlerEnabled(s, c, m, now, sha);
      PollStands(s, Receive(c, m, now), sha);
      Take(Receive(c, m, now));
      var s1 := Current();
      HandlerEnabled(s1, c, m, now, sha);
      HandlerApplied(s1, Decide, sha);
      PollStands(s1, Decide, sha);
      Take(Decide);
      var s2 := Current();
      HandlerEnabled(s2, c, m, now, sha);
      PollStands(s2, Update, sha);
      Take(Update);
    }

    /** Every lifecycle of a delivery is enqueued, in order, one step each. */
    method ReportAll(reports: seq<Lifecycle>)
      requires Valid() && reports != [] && Current().handler == Reporting(reports)
      modifies this, outbox
      ensures Valid() && Current().handler.Quiet? && Current().poll == old(Current().poll)
      ensures Current().crashes == old(Current().crashes) && inFlight == old(inFlight)
      ensures steps == old(steps) + seq(|reports|, _ => Report)
      ensures outbox.Contents() == EnqueuedAll(old(outbox.Contents()), reports)
      ensures forall l :: l in reports ==>
                LifecycleId(l) in outbox.lifecycles && (IsTerminal(l.stage) ==> Ended(Current(), l.commandId) == 1)
    {
      hide Apply, Enabled, IsRun, Inv, EnqueueLifecycle, Ended;
      assert reports[..0] == [] && reports[0..] == reports;
      for i := 0 to |reports|
        invariant Valid() && Current().poll == old(Current().poll) && Current().crashes == old(Current().crashes)
        invariant inFlight == old(inFlight) && steps == old(steps) + seq(i, _ => Report)
        invariant outbox.Contents() == EnqueuedAll(old(outbox.Contents()), reports[..i])
        invariant Current().handler == if i < |reports| then Reporting(reports[i..]) else Quiet
        invariant forall k :: 0 <= k < i ==>
                    LifecycleId(reports[k]) in outbox.lifecycles &&
                    (IsTerminal(reports[k].stage) ==> Ended(Current(), reports[k].commandId) >= 1)
      {
        assert reports[i..][0] == reports[i] && reports[i..][1..] == reports[i + 1..];
        assert reports[..i + 1][..i] == reports[..i];
        ReportOne(reports[i]);
      }
      assert reports[..|reports|] == reports;
      CurrentInv();
      OneEnd();
    }

    method ReportOne(l: Lifecycle)
      requires Valid() && Current().handler.Reporting? && Current().handler.reports != [] &&
               l == Current().handler.reports[0]
      modifies this`states, this`steps, outbox
      ensures Valid() && steps == old(steps) + [Report]
      ensures outbox.Contents() == EnqueueLifecycle(old(outbox.Contents()), l)
      ensures LifecycleId(l) in outbox.lifecycles && old(outbox.lifecycles.Keys) <= outbox.lifecycles.Keys
      ensures Current().poll == old(Current().poll) && Current().crashes == old(Current().crashes)
      ensures var rest := old(Current().handler.reports)[1..];
              Current().handler == if rest == [] then Quiet else Reporting(rest)
      ensures forall id :: Ended(Current(), id) >= old(Ended(Current(), id))
      ensures IsTerminal(l.stage) ==> Ended(Current(), l.commandId) >= 1
    {
      hide Apply, Enabled, IsRun, Inv, Consistent, EnqueueLifecycle;
      CurrentInv();
      ConsistentNow();
      ReportApplied(Current(), sha);
      LifecyclesGrow(outbox.Contents(), l);
      var _ := outbox.EnqueueLifecycle(l);
      Take(Report);
    }

    lemma OneEnd()
      requires states != [] && Inv(Current(), sha)
      ensures forall id :: Ended(Current(), id) <= 1
    {
    }

    lemma ConsistentNow()
      requires states != [] && Inv(Current(), sha)
      ensures Consistent(Current().store)
    {
    }

    // -------------------------------------------------------------- the poll

    /** Stores one event of the item in hand. */
    method EnqueuePart(x: Item, part: Part, nodeId: string, session: string, token: string, freshId: string)
      requires Valid() && Current().poll.Working? && Current().poll.batch != [] && Current().poll.drawn.None?
      requires x == Head(Current()) && Current().poll.done < |Plan(x, Current().poll.capable, sha)|
      requires part == Plan(Head(Current()), Current().poll.capable, sha)[Current().poll.done]
      requires Random(token) !in Current().sent && freshId !in Current().receipts
      requires forall x :: x in Current().known ==> x.id != freshId
      modifies this, outbox
      ensures Valid() && Current().poll == old(Current().poll.(done := Current().poll.done + 1))
      ensures Current().known == old(Current().known) && Current().handler == old(Current().handler)
      ensures Current().acked == old(Current().acked)
      ensures Current().sent.Keys <= old(Current().sent.Keys) + {Random(token)}
      ensures Current().receipts.Keys <= old(Current().receipts.Keys) + {freshId, x.id}
      ensures inFlight == old(inFlight) && steps == old(steps) + [Draw(nodeId), Enqueue(token, freshId, session)]
    {
      hide Apply, Enabled, IsRun, Inv, Plan, SetNumber;
      var number := DrawNumber(nodeId);
      StoreEvent(x, part, nodeId, number, session, token, freshId);
    }

    /** The node's next number is drawn, and stored before it is used. */
    method DrawNumber(nodeId: string) returns (number: nat)
      requires Valid() && Current().poll.Working? && Current().poll.batch != [] && Current().poll.drawn.None?
      requires Current().poll.done < |Plan(Head(Current()), Current().poll.capable, sha)|
      modifies this`states, this`steps, outbox
      ensures Valid() && steps == old(steps) + [Draw(nodeId)]
      ensures var next := Number(old(outbox.Contents()), NodeKey(nodeId)) + 1;
              number == next &&
              Current() == old(Current()).(store := SetNumber(old(Current()).store, NodeKey(nodeId), next),
                                           poll := old(Current()).poll.(drawn := Some(Drawn(nodeId, next))))
    {
      hide Apply, Enabled, IsRun, Plan, SetNumber, Number, NodeKey;
      DrawApplied(Current(), nodeId, sha);
      number := outbox.NextNodeSequence(nodeId);
      Take(Draw(nodeId));
    }

    /** The event with the drawn number is stored; that never fails. */
    method StoreEvent(x: Item, part: Part, nodeId: string, number: nat, session: string, token: string, freshId: string)
      requires Valid() && Current().poll.Working? && Current().poll.batch != []
      requires Current().poll.drawn == Some(Drawn(nodeId, number))
      requires x == Head(Current()) && Current().poll.done < |Plan(x, Current().poll.capable, sha)|
      requires part == Plan(x, Current().poll.capable, sha)[Current().poll.done]
      requires Random(token) !in Current().sent && freshId !in Current().receipts
      requires forall x :: x in Current().known ==> x.id != freshId
      modifies this`states, this`steps, outbox
      ensures Valid() && steps == old(steps) + [Enqueue(token, freshId, session)]
      ensures Current().poll == old(Current().poll.(done := Current().poll.done + 1, drawn := None))
      ensures Current().known == old(Current().known) && Current().handler == old(Current().handler)
      ensures Current().acked == old(Current().acked)
      ensures Current().sent.Keys <= old(Current().sent.Keys) + {Random(token)}
      ensures Current().receipts.Keys <= old(Current().receipts.Keys) + {freshId, x.id}
    {
      hide Apply, Enabled, IsRun, Inv, Plan, Consistent, EnqueueEvent, EnqueueReturns;
      CurrentInv();
      ConsistentNow();
      EnqueueApplied(Current(), part, token, freshId, session, sha);
      var frame := EventFrame(
        Random(token), if part.random then freshId else x.id, session, nodeId, number, x.createdAt, part.ttlMs);
      var _ := outbox.EnqueueEvent(part.sourceKey, frame, part.receipt);
      Take(Enqueue(token, freshId, session));
    }

    /** One item of a page, up to its cursor; false is a throw, which ends the connection and the poll. */
    method PollItem(x: Item, capable: bool, able: bool, m: Mapping, node: Option<string>, session: string,
                    t0: (string, string), t1: (string, string), answer: AckAnswer)
      returns (ok: bool)
      requires Valid() && Current().handler.Quiet? && Current().poll.Working? && Current().poll.batch != [] &&
               x == Head(Current())
      requires Current().poll == Working(FeedOf(x), Current().poll.batch, capable, 0, None, false)
      requires FreshTokens(Current(), [t0, t1])
      modifies this, outbox
      ensures Valid() && Current().handler.Quiet? && inFlight == old(inFlight) &&
              Current().known == old(Current().known)
      ensures Current().sent.Keys <= old(Current().sent.Keys) + {Random(t0.0), Random(t1.0)}
      ensures Current().receipts.Keys <= old(Current().receipts.Keys) + {t0.1, t1.1, x.id}
      ensures old(Current().acked) <= Current().acked
      ensures ok ==> Current().poll == Advance(old(Current().poll), able) && Cursor(Current(), FeedOf(x)) == x.sequence
      ensures ok && FeedOf(x) != Completions ==> x.id in Current().acked
      ensures !ok ==> Current().poll.Idle?
    {
      hide Apply, Enabled, IsRun, Inv, Plan, Advance, CursorKey, FeedOf, SetNumber, Number;
      HeadOfFeed();
      CompletionFeed(x);
      var nodeId: string;
      if x.content.Completion? {
        var route := outbox.AgentRoute(x.content.session);
        if route.None? || route.value.targetNodeId !in m.nodes {
          SkipItem(x, able, m);
          return true;
        }
        nodeId := route.value.targetNodeId;
      } else if node.None? {
        GiveUp();
        return false;
      } else {
        nodeId := node.value;
      }
      EnqueueParts(x, capable, nodeId, session, t0, t1);
      if FeedOf(x) != Completions {
        if answer != NotAcked {
          AckUpstreamApplied(Current(), sha);
          Take(AckUpstream);
        }
        if answer != Acknowledged {
          GiveUp();
          return false;
        }
      }
      MoveCursor(x, able);
      AdvanceSame(old(Current().poll), able);
      ok := true;
    }

    /** The cursor after an item that is done. */
    method MoveCursor(x: Item, able: bool)
      requires Valid() && HeadDone(Current(), sha) && x == Head(Current()) && Current().poll.feed == FeedOf(x)
      requires Current().poll.feed == Completions || Current().poll.acked
      modifies this`states, this`steps, outbox
      ensures Valid() && Current() == old(Current()).(store := Current().store,
              poll := Advance(old(Current().poll), able))
      ensures Cursor(Current(), FeedOf(x)) == x.sequence
    {
      hide Apply, Enabled, IsRun, Advance, CursorKey, SetNumber, Number, HeadDone;
      SetCursorApplied(Current(), able, sha);
      CursorSet(Current().store, FeedOf(x), x.sequence);
      outbox.SetStateNumber(CursorKey(FeedOf(x)), x.sequence);
      Take(SetCursor(able));
    }

    /** A completion without a registered route is passed over. */
    method SkipItem(x: Item, able: bool, m: Mapping)
      requires Valid() && Current().poll.Working? && Current().poll.batch != [] && x == Head(Current()) &&
               Current().poll.feed == FeedOf(x)
      requires x.content.Completion? && Current().poll.done == 0 && Current().poll.drawn.None?
      requires x.content.session in outbox.routes ==> outbox.routes[x.content.session].targetNodeId !in m.nodes
      modifies this`states, this`steps, outbox
      ensures Valid() && Cursor(Current(), FeedOf(x)) == x.sequence
      ensures Current() == old(Current()).(store := Current().store, poll := Advance(old(Current().poll), able),
              skipped := Current().skipped)
    {
      hide Apply, Enabled, IsRun, Advance, CursorKey, SetNumber, Number;
      SkipApplied(Current(), m, able, sha);
      CursorSet(Current().store, FeedOf(x), x.sequence);
      outbox.SetStateNumber(CursorKey(FeedOf(x)), x.sequence);
      Take(SkipCompletion(m, able));
    }

    lemma HeadOfFeed()
      requires Valid() && Current().poll.Working?
      ensures Current().poll.batch != [] && FeedOf(Head(Current())) == Current().poll.feed
    {
      CurrentInv();
    }

    /** The connection ends. */
    ghost method GiveUp()
      requires Valid() && Current().handler.Quiet?
      modifies this`states, this`steps
      ensures Valid() && Current() == old(Current()).(poll := Idle)
    {
      hide Apply, Enabled, IsRun;
      ReconnectApplied(Current(), sha);
      Take(Reconnect);
    }

    method EnqueueParts(x: Item, capable: bool, nodeId: string, session: string, t0: (string, string),
        t1: (string, string))
      requires Valid() && Current().poll.Working? && Current().poll.batch != [] && x == Head(Current())
      requires Current().poll == Working(Current().poll.feed, Current().poll.batch, capable, 0, None, false)
      requires FreshTokens(Current(), [t0, t1])
      modifies this, outbox
      ensures Valid() && Current().poll == old(Current().poll).(done := |Plan(x, capable, sha)|)
      ensures Current().handler == old(Current().handler) && inFlight == old(inFlight)
      ensures Current().known == old(Current().known) && Current().acked == old(Current().acked)
      ensures Current().sent.Keys <= old(Current().sent.Keys) + {Random(t0.0), Random(t1.0)}
      ensures Current().receipts.Keys <= old(Current().receipts.Keys) + {t0.1, t1.1, x.id}
    {
      hide Apply, Enabled, IsRun, Plan, Inv;
      var plan := Plan(x, capable, sha);
      PlanShape(x, capable, sha);
      HeadKnown();
      assert [t0, t1][0] == t0 && [t0, t1][1] == t1;
      EnqueuePart(x, plan[0], nodeId, session, t0.0, t0.1);
      if |plan| == 2 {
        EnqueuePart(x, plan[1], nodeId, session, t1.0, t1.1);
      }
    }

    lemma HeadKnown()
      requires Valid() && Current().poll.Working?
      ensures Current().poll.batch != [] && Head(Current()) in Current().known
    {
      CurrentInv();
    }

    /** One feed's answer: a page, or nothing and where to go on from. False is a throw. */
    method PollFeed(feed: Feed, page: seq<Item>, next: nat, able: Item -> bool, m: Mapping,
                    nodeOf: Item -> Option<string>, session: string, tokens: seq<(string, string)>,
                      answers: seq<AckAnswer>)
      returns (ok: bool)
      requires Valid() && Current().poll.Idle? && Current().handler.Quiet?
      requires if page == [] then Complete(Current(), feed, [], next) else Page(Current(), feed, page)
      requires |tokens| == 2 * |page| && |answers| == |page| && FreshTokens(Current(), tokens)
      modifies this, outbox
      ensures Valid() && Current().poll.Idle? && Current().handler.Quiet? && inFlight == old(inFlight)
      ensures ok && page != [] ==> Cursor(Current(), feed) == page[|page| - 1].sequence
      ensures ok && feed != Completions ==> forall x :: x in page ==> x.id in Current().acked
      ensures page == [] ==>
              ok && Cursor(Current(), feed) == if next > old(Cursor(Current(), feed)) then next
              else old(Cursor(Current(), feed))
    {
      hide Apply, Enabled, IsRun, Inv, Page, Complete, CursorKey, SetNumber, Number;
      if page == [] {
        FollowCursor(feed, next);
        return true;
      }
      PageOfFeed(Current(), feed, page);
      FetchApplied(Current(), feed, page, able(page[0]), sha);
      Take(Fetch(feed, page, able(page[0])));
      ok := PollPage(feed, page, able, m, nodeOf, session, tokens, answers);
    }

    /** An empty page may still move the cursor. */
    method FollowCursor(feed: Feed, next: nat)
      requires Valid() && Current().poll.Idle? && Complete(Current(), feed, [], next)
      modifies this`states, this`steps, outbox
      ensures Valid() && Current().poll.Idle? && Current().handler == old(Current().handler)
      ensures Cursor(Current(), feed) == if next > old(Cursor(Current(), feed)) then next
              else old(Cursor(Current(), feed))
    {
      hide Apply, Enabled, IsRun, Inv, Complete, CursorKey, SetNumber, Number;
      FetchEmptyApplied(Current(), feed, next, sha);
      CursorSet(Current().store, feed, next);
      if next > outbox.StateNumber(CursorKey(feed)) {
        outbox.SetStateNumber(CursorKey(feed), next);
      }
      Take(FetchEmpty(feed, next));
    }

    method PollPage(feed: Feed, page: seq<Item>, able: Item -> bool, m: Mapping, nodeOf: Item -> Option<string>,
                    session: string, tokens: seq<(string, string)>, answers: seq<AckAnswer>)
      returns (ok: bool)
      requires Valid() && Current().handler.Quiet? && page != [] &&
               Current().poll == Working(feed, page, able(page[0]), 0, None, false)
      requires forall k :: 0 <= k < |page| ==> page[k] in Current().known && FeedOf(page[k]) == feed
      requires |tokens| == 2 * |page| && |answers| == |page| && FreshTokens(Current(), tokens)
      modifies this, outbox
      ensures Valid() && Current().poll.Idle? && Current().handler.Quiet? && inFlight == old(inFlight)
      ensures ok ==> Cursor(Current(), feed) == page[|page| - 1].sequence
      ensures ok && feed != Completions ==> forall x :: x in page ==> x.id in Current().acked
    {
      hide Apply, Enabled, IsRun, Inv, CursorKey, Number, FeedOf, FreshTokens;
      assert page[0..] == page && tokens[0..] == tokens;
      var i := 0;
      while i < |page|
        invariant 0 <= i <= |page| && Valid() && Current().handler.Quiet? && inFlight == old(inFlight)
        invariant Current().poll == if i < |page| then Working(feed, page[i..], able(page[i]), 0, None, false) else Idle
        invariant FreshTokens(Current(), tokens[2 * i..]) && Current().known == old(Current().known)
        invariant i > 0 ==> Cursor(Current(), feed) == page[i - 1].sequence
        invariant feed != Completions ==> forall k :: 0 <= k < i ==> page[k].id in Current().acked
      {
        var x, later := page[i], i + 1 < |page| && able(page[i + 1]);
        FreshPair(Current(), tokens[2 * i..]);
        ghost var before := Current();
        var went := PollItem(x, able(x), later, m, nodeOf(x), session, tokens[2 * i], tokens[2 * i + 1], answers[i]);
        if !went {
          return false;
        }
        FreshRest(before, Current(), tokens[2 * i..], x);
        assert tokens[2 * i..][2..] == tokens[2 * (i + 1)..] && page[i..][1..] == page[i + 1..];
        i := i + 1;
      }
      ok := true;
    }
  }

  /** What Agent Mesh made of an acknowledgement, and whether the bridge heard. */
  datatype AckAnswer = Acknowledged | AnswerLost | NotAcked

  /** Random identifiers are new, and all different. */
  ghost predicate FreshTokens(s: State, tokens: seq<(string, string)>) {
    && (forall k :: 0 <= k < |tokens| ==> Random(tokens[k].0) !in s.sent && tokens[k].1 !in s.receipts)
    && (forall k, x :: 0 <= k < |tokens| && x in s.known ==> x.id != tokens[k].1)
    && (forall j, k :: 0 <= j < k < |tokens| ==> tokens[j].0 != tokens[k].0 && tokens[j].1 != tokens[k].1)
  }

  lemma FreshPair(s: State, tokens: seq<(string, string)>)
    requires FreshTokens(s, tokens) && |tokens| >= 2
    ensures FreshTokens(s, [tokens[0], tokens[1]])
  {
  }

  lemma FreshRest(s: State, t: State, tokens: seq<(string, string)>, x: Item)
    requires FreshTokens(s, tokens) && |tokens| >= 2 && t.known == s.known && x in s.known
    requires t.sent.Keys <= s.sent.Keys + {Random(tokens[0].0), Random(tokens[1].0)}
    requires t.receipts.Keys <= s.receipts.Keys + {tokens[0].1, tokens[1].1, x.id}
    ensures FreshTokens(t, tokens[2..])
  {
    var rest := tokens[2..];
    forall k | 0 <= k < |rest| ensures Random(rest[k].0) !in t.sent && rest[k].1 !in t.receipts {
      assert rest[k] == tokens[k + 2];
    }
  }

  lemma PageOfFeed(s: State, feed: Feed, page: seq<Item>)
    requires Page(s, feed, page)
    ensures page != [] && forall k :: 0 <= k < |page| ==> page[k] in s.known && FeedOf(page[k]) == feed
  {
  }

  lemma AdvanceSame(poll: Poll, able: bool)
    requires poll.Working? && poll.batch != []
    ensures forall done, drawn, acked ::
            Advance(poll.(done := done, drawn := drawn, acked := acked), able) == Advance(poll, able)
  {
  }

  lemma CompletionFeed(x: Item)
    ensures FeedOf(x) == Completions <==> x.content.Completion?
  {
  }

  lemma CursorSet(s: Store, feed: Feed, value: nat)
    ensures Number(SetNumber(s, CursorKey(feed), value), CursorKey(feed)) == value
  {
  }

  /** All elements of a set, or a hundred of them. */
  method Some100(keys: set<FrameId>) returns (frames: seq<FrameId>)
    ensures forall f :: f in frames ==> f in keys
    ensures |keys| <= PENDING_LIMIT ==> forall f :: f in keys ==> f in frames
    ensures |frames| <= PENDING_LIMIT
  {
    frames := [];
    var left := keys;
    while left != {} && |frames| < PENDING_LIMIT
      invariant left <= keys && forall f :: f in frames ==> f in keys
      invariant forall f :: f in keys ==> f in left || f in frames
      invariant |frames| + |left| == |keys| && |frames| <= PENDING_LIMIT
      decreases left
    {
      var f :| f in left;
      frames := frames + [f];
      left := left - {f};
    }
  }

  // ---------------------------------------------------------------- the steps, one equation each

  lemma CrashApplied(s: State, sha: string -> string)
    ensures Enabled(s, Crash, sha) && Apply(s, Crash, sha) ==
            s.(poll := Idle, handler := Quiet, crashes := s.crashes + 1)
  {
    HandlerApplied(s, Crash, sha);
  }

  lemma PollStands(s: State, step: Step, sha: string -> string)
    requires Enabled(s, step, sha) && !MovesPoll(step)
    ensures Apply(s, step, sha).poll == s.poll && Apply(s, step, sha).crashes == s.crashes
  {
    hide Apply, Enabled;
    PollMoves(s, step, sha);
    CommandHistory(s, step, sha);
  }

  lemma SilentStore(s: Store, c: Command, m: Mapping, now: int, sha: string -> string)
    requires Answer(s, c, m, now, sha) == None || Answer(s, c, m, now, sha) == Some([])
    ensures Handled(s, c, m, now, sha) == s
  {
    hide Judge;
  }

  lemma DrawApplied(s: State, nodeId: string, sha: string -> string)
    requires s.poll.Working? && s.poll.batch != [] && s.poll.drawn.None? &&
             s.poll.done < |Plan(Head(s), s.poll.capable, sha)|
    ensures Enabled(s, Draw(nodeId), sha)
    ensures var next := Number(s.store, NodeKey(nodeId)) + 1;
            Apply(s, Draw(nodeId), sha) ==
            s.(store := SetNumber(s.store, NodeKey(nodeId), next), poll := s.poll.(drawn := Some(Drawn(nodeId, next))))
  {
    hide Plan, Judge, Page, Complete, SetNumber, NodeKey;
  }

  lemma EnqueueApplied(s: State, part: Part, token: string, freshId: string, session: string, sha: string -> string)
    requires Inv(s, sha) && s.poll.Working? && s.poll.batch != [] && s.poll.drawn.Some?
    requires s.poll.done < |Plan(Head(s), s.poll.capable, sha)| &&
             part == Plan(Head(s), s.poll.capable, sha)[s.poll.done]
    requires Random(token) !in s.sent && freshId !in s.receipts && forall x :: x in s.known ==> x.id != freshId
    ensures Enabled(s, Enqueue(token, freshId, session), sha)
    ensures var t := Apply(s, Enqueue(token, freshId, session), sha);
            && t.store == EnqueueEvent(s.store, part.sourceKey, EventOf(s, part, token, freshId, session), part.receipt)
            && t.poll == s.poll.(done := s.poll.done + 1, drawn := None)
            && t.known == s.known && t.acked == s.acked && t.handler == s.handler
            && t.sent.Keys <= s.sent.Keys + {Random(token)} &&
              t.receipts.Keys <= s.receipts.Keys + {freshId, Head(s).id}
  {
    hide Plan, Judge, Page, Complete, EnqueueEvent, Fits, Consistent, KnownUnique, PollKept, ReceiptsKept, OriginsKept,
      SequencesKept, NothingLost, HandlerKept, ReportsKept, EndsKept;
    EnqueueStores(s, Enqueue(token, freshId, session), sha);
  }

  lemma ReconnectApplied(s: State, sha: string -> string)
    requires s.handler.Quiet?
    ensures Enabled(s, Reconnect, sha) && Apply(s, Reconnect, sha) == s.(poll := Idle)
  {
    hide Plan, Judge, Page, Complete;
  }

  lemma FetchApplied(s: State, feed: Feed, page: seq<Item>, able: bool, sha: string -> string)
    requires s.poll.Idle? && Page(s, feed, page)
    ensures Enabled(s, Fetch(feed, page, able), sha)
    ensures Apply(s, Fetch(feed, page, able), sha) ==
            s.(poll := Working(feed, page, able, 0, None, false), polled := s.polled + (set x | x in page))
  {
    hide Plan, Judge, Page, Complete;
  }

  lemma FetchEmptyApplied(s: State, feed: Feed, next: nat, sha: string -> string)
    requires s.poll.Idle? && Complete(s, feed, [], next)
    ensures Enabled(s, FetchEmpty(feed, next), sha)
    ensures Apply(s, FetchEmpty(feed, next), sha) ==
            if next > Cursor(s, feed) then s.(store := SetNumber(s.store, CursorKey(feed), next)) else s
  {
    hide Plan, Judge, Page, Complete, SetNumber, CursorKey;
  }

  lemma AckUpstreamApplied(s: State, sha: string -> string)
    requires HeadDone(s, sha) && s.poll.feed != Completions && !s.poll.acked
    ensures Enabled(s, AckUpstream, sha)
    ensures Apply(s, AckUpstream, sha) ==
            s.(acked := s.acked + {Head(s).id}, capable := if s.poll.capable then s.capable + {Head(s).id}
               else s.capable, poll := s.poll.(acked := true))
  {
    hide Plan, Judge, Page, Complete, HeadDone;
    assert s.poll.Working? && s.poll.batch != [] by { WorkingHead(s, sha); }
  }

  lemma WorkingHead(s: State, sha: string -> string)
    requires HeadDone(s, sha)
    ensures s.poll.Working? && s.poll.batch != []
  {
    hide Plan;
  }

  lemma SetCursorApplied(s: State, able: bool, sha: string -> string)
    requires HeadDone(s, sha) && (s.poll.feed == Completions || s.poll.acked)
    ensures Enabled(s, SetCursor(able), sha)
    ensures Apply(s, SetCursor(able), sha) ==
            s.(store := SetNumber(s.store, CursorKey(s.poll.feed), Head(s).sequence), poll := Advance(s.poll, able))
  {
    hide Plan, Judge, Page, Complete, HeadDone, Advance, SetNumber, CursorKey;
    assert s.poll.Working? && s.poll.batch != [] by { WorkingHead(s, sha); }
  }

  lemma SkipApplied(s: State, m: Mapping, able: bool, sha: string -> string)
    requires s.poll.Working? && s.poll.batch != [] && Head(s).content.Completion? && s.poll.done == 0 &&
             s.poll.drawn.None?
    requires Head(s).content.session in s.store.routes ==>
             s.store.routes[Head(s).content.session].targetNodeId !in m.nodes
    ensures Enabled(s, SkipCompletion(m, able), sha)
    ensures Apply(s, SkipCompletion(m, able), sha) ==
            s.(store := SetNumber(s.store, CursorKey(s.poll.feed), Head(s).sequence), poll := Advance(s.poll, able),
               skipped := s.skipped + {Head(s).id})
  {
    hide Plan, Judge, Page, Complete, Advance, SetNumber, CursorKey;
  }

  lemma GrowApplied(s: State, x: Item, sha: string -> string)
    requires Enabled(s, Grow(x), sha)
    ensures Apply(s, Grow(x), sha) == s.(known := s.known + {x})
  {
    hide Plan, Judge, Page, Complete, Enabled;
  }
}

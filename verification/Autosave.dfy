/** Saving without being asked: one writer at a time, a timer behind every waiting edit, and failures kept and shown. */
module Autosave {
  import opened Wrappers

  datatype SaveState = Idle | Unsaved | Saving | Saved | Failed

  /** Edits are numbered in the order in which they were accepted. */
  datatype Edit<T> = Edit(number: nat, document: T)

  /** The object's fields, the document its write carries, and what it has done: edits, writes, results. */
  datatype Saver<T> = Saver(
    pending: Option<Edit<T>>,
    handle: Option<nat>,
    writing: Option<Edit<T>>,
    stopped: bool,
    timers: nat,
    shown: SaveState,
    edits: nat,
    started: nat,
    ended: nat,
    stored: seq<Edit<T>>,
    overwrote: bool)

  function Start<T>(): Saver<T> { Saver(None, None, None, false, 0, Idle, 0, 0, 0, [], false) }

  // ---------------------------------------------------------------- one turn of the event loop each

  datatype Event<T> = Change(document: T) | FlushNow | Stop | TimerFires | SaveSucceeds | SaveFails

  function Armed<T>(s: Saver<T>): Saver<T> { s.(handle := Some(s.timers), timers := s.timers + 1) }

  function Written<T>(s: Saver<T>): Saver<T> {
    if s.writing.Some? || s.stopped || s.pending.None? then s
    else s.(pending := None, writing := s.pending, shown := Saving, started := s.started + 1)
  }

  function Changed<T>(s: Saver<T>, document: T): Saver<T> {
    if s.stopped then s
    else Armed(s.(pending := Some(Edit(s.edits + 1, document)), edits := s.edits + 1, shown := Unsaved,
      overwrote := false))
  }

  function Halted<T>(s: Saver<T>): Saver<T> { s.(stopped := true, pending := None, handle := None) }

  /** The save went through: newer work, if any, gets a timer. */
  function Succeeded<T>(s: Saver<T>): Saver<T>
    requires s.writing.Some?
  {
    var t := s.(writing := None, ended := s.ended + 1, stored := s.stored + [s.writing.value]);
    if s.stopped then t
    else
      var u := t.(shown := if s.pending.None? then Saved else Unsaved);
      if s.pending.Some? && s.handle.None? then Armed(u) else u
  }

  /** The save failed: its document is put back, over whatever came in meanwhile. */
  function PutBack<T>(s: Saver<T>): Saver<T>
    requires s.writing.Some?
  {
    var t := s.(writing := None, ended := s.ended + 1);
    if s.stopped then t
    else t.(pending := s.writing, shown := Failed, overwrote := s.overwrote || s.pending.Some?)
  }

  /** A timer fires only while it is armed, and only a running save ends; otherwise nothing happens. */
  function Next<T>(s: Saver<T>, e: Event<T>): Saver<T> {
    match e
    case Change(document) => Changed(s, document)
    case FlushNow => Written(s.(handle := None))
    case Stop => Halted(s)
    case TimerFires => if s.handle.None? then s else Written(s.(handle := None))
    case SaveSucceeds => if s.writing.None? then s else Succeeded(s)
    case SaveFails => if s.writing.None? then s else PutBack(s)
  }

  function Run<T>(events: seq<Event<T>>): Saver<T> {
    if events == [] then Start() else Next(Run(events[..|events| - 1]), events[|events| - 1])
  }

  // ---------------------------------------------------------------- the object

  function Document<T>(e: Option<Edit<T>>): Option<T> { if e.None? then None else Some(e.value.document) }

  class Autosave<T> {
    var pending: Option<T>
    var handle: Option<nat>
    var inFlight: bool
    var stopped: bool
    /** The document of the write in flight, which its continuation still needs. */
    var document: Option<T>
    /** Handles are never given out twice. */
    var timers: nat
    var shown: SaveState
    ghost var history: Saver<T>

    ghost predicate Valid()
      reads this
    {
      && pending == Document(history.pending) && handle == history.handle && inFlight == history.writing.Some?
      && stopped == history.stopped && document == Document(history.writing) && timers == history.timers &&
        shown == history.shown
    }

    constructor ()
      ensures Valid() && history == Start()
    {
      pending, handle, inFlight, stopped, document, timers, shown := None, None, false, false, None, 0, Idle;
      history := Start();
    }

    method Change(newDocument: T)
      requires Valid()
      modifies this
      ensures Valid() && history == Next(old(history), Event.Change(newDocument))
    {
      if stopped {
        return;
      }
      pending := Some(newDocument);
      history := history.(pending := Some(Edit(history.edits + 1, newDocument)), edits := history.edits + 1,
        shown := Unsaved, overwrote := false);
      shown := Unsaved;
      Arm();
    }

    method FlushNow()
      requires Valid()
      modifies this
      ensures Valid() && history == Next(old(history), Event.FlushNow)
    {
      if handle.Some? {
        handle := None;
        history := history.(handle := None);
      }
      Write();
    }

    method Stop()
      requires Valid()
      modifies this
      ensures Valid() && history == Next(old(history), Event.Stop)
    {
      stopped := true;
      pending := None;
      handle := None;
      history := history.(stopped := true, pending := None, handle := None);
    }

    method Arm()
      requires Valid()
      modifies this
      ensures Valid() && history == Armed(old(history))
    {
      handle := Some(timers);
      timers := timers + 1;
      history := Armed(history);
    }

    method TimerFires()
      requires Valid() && handle.Some?
      modifies this
      ensures Valid() && history == Next(old(history), Event.TimerFires)
    {
      handle := None;
      history := history.(handle := None);
      Write();
    }

    /** The write up to its `await`; at most one save is running. */
    method Write()
      requires Valid()
      modifies this
      ensures Valid() && history == Written(old(history))
    {
      if inFlight || stopped || pending.None? {
        return;
      }
      document := pending;
      pending := None;
      inFlight := true;
      shown := Saving;
      history := history.(pending := None, writing := history.pending, shown := Saving, started := history.started + 1);
    }

    /** The write after its save went through. */
    method SaveSucceeds()
      requires Valid() && inFlight
      modifies this
      ensures Valid() && history == Next(old(history), Event.SaveSucceeds)
    {
      document := None;
      inFlight := false;
      history :=
        history.(writing := None, ended := history.ended + 1, stored := history.stored + [history.writing.value]);
      if stopped {
        return;
      }
      shown := if pending.None? then Saved else Unsaved;
      history := history.(shown := shown);
      if pending.Some? && handle.None? {
        Arm();
      }
    }

    /** The write after its save failed; no timer, so that a runtime that is gone is not asked again and again. */
    method SaveFails()
      requires Valid() && inFlight
      modifies this
      ensures Valid() && history == Next(old(history), Event.SaveFails)
      ensures !inFlight && timers == old(timers) && handle == old(handle)
      ensures !stopped ==> pending == old(document) && shown == Failed
    {
      ghost var before := history;
      inFlight := false;
      history := history.(writing := None, ended := history.ended + 1);
      if stopped {
        document := None;
        return;
      }
      pending := document;
      document := None;
      shown := Failed;
      history := history.(pending := before.writing, shown := Failed,
                          overwrote := before.overwrote || before.pending.Some?);
    }
  }

  // ---------------------------------------------------------------- what every event keeps

  predicate Above<T>(stored: seq<Edit<T>>, n: nat) { forall i :: 0 <= i < |stored| ==> stored[i].number < n }

  /** One write at most, and every number in its place: stored before written before pending before the next edit. */
  predicate Ordered<T>(s: Saver<T>) {
    && s.started == s.ended + (if s.writing.Some? then 1 else 0)
    && (forall i, j :: 0 <= i < j < |s.stored| ==> s.stored[i].number < s.stored[j].number)
    && Above(s.stored, s.edits + 1)
    && (s.writing.Some? ==> s.writing.value.number <= s.edits && Above(s.stored, s.writing.value.number))
    && (s.pending.Some? ==> s.pending.value.number <= s.edits && Above(s.stored, s.pending.value.number))
    && (s.writing.Some? && s.pending.Some? ==> s.writing.value.number < s.pending.value.number)
  }

  /** The edit waits, is being written, or was stored. */
  predicate Held<T>(s: Saver<T>, n: nat) {
    || (s.pending.Some? && s.pending.value.number == n) || (s.writing.Some? && s.writing.value.number == n)
    || (s.stored != [] && s.stored[|s.stored| - 1].number == n)
  }

  predicate LatestHeld<T>(s: Saver<T>) {
    !s.stopped ==>
      && (s.edits > 0 ==> (Held(s, s.edits) <==> !s.overwrote))
      && (s.edits == 0 ==> s.pending.None? && s.writing.None? && s.stored == [] && !s.overwrote)
      && (s.overwrote && s.writing.Some? ==> s.pending.None?)
  }

  /** A waiting edit has a timer, a write in flight, or a failure on show; and "saved" means that nothing waits. */
  predicate Attended<T>(s: Saver<T>) {
    !s.stopped ==>
      && (s.pending.Some? ==> s.handle.Some? || s.writing.Some? || s.shown == Failed)
      && (s.shown == Saved ==> s.pending.None? && s.writing.None? && s.stored != [])
  }

  lemma OrderedWrite<T>(s: Saver<T>)
    requires Ordered(s)
    ensures Ordered(Written(s))
  {
  }

  lemma OrderedSuccess<T>(s: Saver<T>)
    requires Ordered(s) && s.writing.Some?
    ensures Ordered(Succeeded(s))
  {
    var stored, last := s.stored + [s.writing.value], s.writing.value.number;
    assert forall i :: 0 <= i < |s.stored| ==> stored[i] == s.stored[i] && stored[i].number < last;
    forall i, j | 0 <= i < j < |stored| ensures stored[i].number < stored[j].number {
      assert stored[i] == s.stored[i];
    }
    assert Above(stored, s.edits + 1) && (s.pending.Some? ==> Above(stored, s.pending.value.number));
  }

  lemma OrderedStep<T>(s: Saver<T>, e: Event<T>)
    requires Ordered(s)
    ensures Ordered(Next(s, e))
  {
    match e
    case Change(document) =>
    case FlushNow => OrderedWrite(s.(handle := None));
    case Stop =>
    case TimerFires => if s.handle.Some? { OrderedWrite(s.(handle := None)); }
    case SaveSucceeds => if s.writing.Some? { OrderedSuccess(s); }
    case SaveFails =>
  }

  lemma HeldStep<T>(s: Saver<T>, e: Event<T>)
    requires Ordered(s) && LatestHeld(s)
    ensures LatestHeld(Next(s, e))
  {
  }

  lemma AttendedStep<T>(s: Saver<T>, e: Event<T>)
    requires Attended(s)
    ensures Attended(Next(s, e))
  {
  }

  lemma {:induction false} RunKeeps<T>(events: seq<Event<T>>)
    ensures Ordered(Run(events)) && LatestHeld(Run(events)) && Attended(Run(events))
  {
    hide Ordered, LatestHeld, Attended, Next;
    if events == [] {
      StartKeeps<T>();
    } else {
      var before, e := Run(events[..|events| - 1]), events[|events| - 1];
      RunKeeps(events[..|events| - 1]);
      OrderedStep(before, e);
      HeldStep(before, e);
      AttendedStep(before, e);
    }
  }

  lemma StartKeeps<T>()
    ensures Ordered(Start<T>()) && LatestHeld(Start<T>()) && Attended(Start<T>())
  {
  }

  // ---------------------------------------------------------------- the promises, over every run

  /** Never two writes in flight, and what is stored only ever gets newer. */
  lemma StoresOnlyNewer<T>(events: seq<Event<T>>)
    ensures var s := Run(events);
            && s.ended <= s.started <= s.ended + 1
            && forall i, j :: 0 <= i < j < |s.stored| ==> s.stored[i].number < s.stored[j].number
  {
    RunKeeps(events);
  }

  /**
   * While not stopped, the latest edit is held exactly when no failed save was put back over a newer edit since it
   * came.
   */
  lemma LatestHeldExactly<T>(events: seq<Event<T>>)
    requires !Run(events).stopped && Run(events).edits > 0
    ensures Held(Run(events), Run(events).edits) <==> !Run(events).overwrote
    ensures Run(events).pending.Some? ==>
            Run(events).handle.Some? || Run(events).writing.Some? || Run(events).shown == Failed
  {
    hide Run, Held;
    RunKeeps(events);
  }

  /** Under the same condition, and only then, "saved" on show means that the latest edit is stored. */
  lemma SavedHonestExactly<T>(events: seq<Event<T>>)
    requires !Run(events).stopped && Run(events).shown == Saved && Run(events).edits > 0
    ensures var s := Run(events);
            s.stored != [] && (s.stored[|s.stored| - 1].number == s.edits <==> !s.overwrote)
  {
    hide Run;
    RunKeeps(events);
  }

  /** A failing save loses the latest edit exactly when an edit came in while it ran. */
  lemma FailureKeepsLatestExactly<T>(events: seq<Event<T>>)
    requires var s := Run(events); !s.stopped && s.writing.Some? && s.edits > 0 && Held(s, s.edits)
    ensures var s := Run(events); Held(Next(s, SaveFails), s.edits) <==> s.pending.None?
  {
    hide Run;
    RunKeeps(events);
  }

  /** The loss is real: an edit made while a save runs that then fails is gone, and the next save shows "saved". */
  lemma FailureLosesNewerEdit<T>(first: T, second: T)
    ensures var s := Run([Change(first), FlushNow, Change(second), SaveFails, TimerFires, SaveSucceeds]);
            s.edits == 2 && s.stored == [Edit(1, first)] && s.pending.None? && s.writing.None? && s.shown == Saved &&
              !Held(s, 2)
  {
    var e1, e2, e3, e4, e5, e6 := Change(first), FlushNow, Change(second), SaveFails, TimerFires, SaveSucceeds;
    var s1 := Next(Start<T>(), e1);
    var s4 := Next(Next(Next(s1, e2), e3), e4);
    assert s4.pending == Some(Edit(1, first)) && s4.handle.Some?;
    assert [e1, e2, e3, e4, e5, e6][..5] == [e1, e2, e3, e4, e5] && [e1, e2, e3, e4, e5][..4] == [e1, e2, e3, e4];
    assert [e1, e2, e3, e4][..3] == [e1, e2, e3] && [e1, e2, e3][..2] == [e1, e2] && [e1, e2][..1] == [e1] &&
           [e1][..0] == [];
    assert Run<T>([]) == Start<T>() && Run([e1]) == s1;
    assert Run([e1, e2, e3]) == Next(Run([e1, e2]), e3);
    assert Run([e1, e2, e3, e4]) == s4;
    assert Run([e1, e2, e3, e4, e5]) == Next(s4, e5);
  }

  // ---------------------------------------------------------------- what each event does, over every run

  lemma RunMore<T>(events: seq<Event<T>>, e: Event<T>)
    ensures Run(events + [e]) == Next(Run(events), e)
  {
    assert (events + [e])[..|events|] == events;
  }

  /**
   * Edits, writes and their ends are counted exactly, a write carries the waiting edit, and only a save that went
   * through stores.
   */
  lemma WritesExactly<T>(events: seq<Event<T>>, e: Event<T>)
    ensures var s, t := Run(events), Run(events + [e]);
            var edits, ends := e.Change? && !s.stopped, (e.SaveSucceeds? || e.SaveFails?) && s.writing.Some?;
            var writes :=
              (e.FlushNow? || (e.TimerFires? && s.handle.Some?)) && !s.stopped && s.writing.None? && s.pending.Some?;
            && t.edits == s.edits + (if edits then 1 else 0)
            && t.started == s.started + (if writes then 1 else 0)
            && t.ended == s.ended + (if ends then 1 else 0)
            && t.writing == (if writes then s.pending else if ends then None else s.writing)
            && t.stored == (if ends && e.SaveSucceeds? then s.stored + [s.writing.value] else s.stored)
            && t.pending == (if edits then Some(Edit(t.edits, e.document)) else if writes || e.Stop? then None
                             else if ends && e.SaveFails? && !s.stopped then s.writing else s.pending)
            && (t.stopped <==> s.stopped || e.Stop?)
  {
    hide Run;
    RunMore(events, e);
  }

  /** A timer is given out exactly for an accepted edit, and for newer work behind a save that went through. */
  lemma TimersExactly<T>(events: seq<Event<T>>, e: Event<T>)
    ensures var s, t := Run(events), Run(events + [e]);
            var arms := !s.stopped &&
              (e.Change? || (e.SaveSucceeds? && s.writing.Some? && s.pending.Some? && s.handle.None?));
            && t.timers == s.timers + (if arms then 1 else 0)
            && t.handle == (if arms then Some(s.timers) else if e.FlushNow? || e.Stop? || e.TimerFires? then None
                            else s.handle)
  {
    hide Run;
    RunMore(events, e);
  }

  /** What is on show after an event follows from what the event did: an edit, a write, or the end of one. */
  lemma ShownExactly<T>(events: seq<Event<T>>, e: Event<T>)
    ensures var s, t := Run(events), Run(events + [e]);
            && (t.edits > s.edits ==> t.shown == Unsaved)
            && (t.started > s.started ==> t.shown == Saving)
            && (t.ended > s.ended && !s.stopped && t.stored == s.stored ==> t.shown == Failed)
            && (t.ended > s.ended && !s.stopped && t.stored != s.stored ==>
                  t.shown == if s.pending.None? then Saved else Unsaved)
            && (t.edits == s.edits && t.started == s.started && (t.ended == s.ended || s.stopped) ==>
                  t.shown == s.shown)
  {
    hide Run;
    RunMore(events, e);
    var s := Run(events);
    if s.writing.Some? { assert |s.stored + [s.writing.value]| == |s.stored| + 1; }
  }

  /** A failed save gives out no timer: handle and timers are as before. */
  lemma FailureArmsNothing<T>(events: seq<Event<T>>)
    ensures Run(events + [SaveFails]).timers == Run(events).timers
    ensures Run(events + [SaveFails]).handle == Run(events).handle
  {
    hide Run;
    TimersExactly(events, SaveFails);
  }

  /** After a failure without a timer no write starts and no timer is given out until the next edit or flush. */
  lemma {:induction false} FailureWaits<T>(events: seq<Event<T>>, more: seq<Event<T>>)
    requires Run(events).writing.Some? && Run(events).handle.None?
    requires forall i :: 0 <= i < |more| ==> !more[i].Change? && !more[i].FlushNow?
    ensures var s, t := Run(events), Run(events + [SaveFails] + more);
            t.started == s.started && t.timers == s.timers && t.handle.None? && t.writing.None?
  {
    hide Run;
    if more == [] {
      assert events + [SaveFails] + more == events + [SaveFails];
      FailureArmsNothing(events);
      WritesExactly(events, SaveFails);
    } else {
      var n := |more| - 1;
      FailureWaits(events, more[..n]);
      var before := events + [SaveFails] + more[..n];
      assert events + [SaveFails] + more == before + [more[n]];
      WritesExactly(before, more[n]);
      TimersExactly(before, more[n]);
    }
  }

  /** A stopped object starts no further write, whatever happens. */
  lemma {:induction false} StoppedForGood<T>(events: seq<Event<T>>, more: seq<Event<T>>)
    requires Run(events).stopped
    ensures Run(events + more).stopped && Run(events + more).started == Run(events).started
  {
    if more == [] {
      assert events + more == events;
    } else {
      assert (events + more)[..|events + more| - 1] == events + more[..|more| - 1];
      StoppedForGood(events, more[..|more| - 1]);
    }
  }

  function Edits<T>(documents: seq<T>): seq<Event<T>> {
    if documents == [] then [] else Edits(documents[..|documents| - 1]) + [Change(documents[|documents| - 1])]
  }

  /** A burst of edits is one save, of its last document. */
  lemma {:induction false} BurstIsOneSave<T>(events: seq<Event<T>>, documents: seq<T>)
    requires documents != [] && !Run(events).stopped && Run(events).writing.None?
    ensures var before, after := Run(events), Run(events + Edits(documents) + [TimerFires]);
            after.started == before.started + 1 && after.stored == before.stored && after.pending.None? &&
            Document(after.writing) == Some(documents[|documents| - 1])
  {
    hide Next;
    var all := events + Edits(documents) + [TimerFires];
    assert all[..|all| - 1] == events + Edits(documents);
    BurstPending(events, documents);
    assert Run(all) == Next(Run(events + Edits(documents)), TimerFires);
    FireWrites(Run(events + Edits(documents)));
  }

  lemma FireWrites<T>(s: Saver<T>)
    requires !s.stopped && s.writing.None? && s.pending.Some? && s.handle.Some?
    ensures Next(s, TimerFires) == s.(pending := None, handle := None, writing := s.pending, shown := Saving,
            started := s.started + 1)
  {
  }

  lemma {:induction false} BurstPending<T>(events: seq<Event<T>>, documents: seq<T>)
    requires documents != [] && !Run(events).stopped && Run(events).writing.None?
    ensures var before, after := Run(events), Run(events + Edits(documents));
            && after.started == before.started && after.stored == before.stored && !after.stopped && after.writing.None?
            && Document(after.pending) == Some(documents[|documents| - 1]) && after.handle.Some?
  {
    var n := |documents| - 1;
    var all := events + Edits(documents);
    assert all[..|all| - 1] == events + Edits(documents[..n]);
    if n == 0 {
      assert events + Edits(documents[..n]) == events;
    } else {
      BurstPending(events, documents[..n]);
    }
  }
}

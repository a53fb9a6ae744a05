/**
 * The top level of a program: how the generator sorts the blocks into event functions and the steps of `main()`,
 * against what the list of blocks means.
 */
module TopLevel {
  import opened Wrappers
  import opened Catalog
  import opened Python
  import opened Generate
  import opened Structure
  import opened Meaning

  // ---------------------------------------------------------------- the steps of main

  lemma {:induction false} PerformAppend(
    a: seq<Block>, b: seq<Block>, bindings: seq<Binding>, oracle: Oracle, t: Trace)
    ensures Perform(a + b, bindings, oracle, t) == Perform(b, bindings, oracle, Perform(a, bindings, oracle, t))
  {
    hide PerformBlock;
    if a == [] {
      assert a + b == b;
    } else {
      assert (a + b)[1..] == a[1..] + b;
      PerformAppend(a[1..], b, bindings, oracle, if a[0].disabled then t else PerformBlock(a[0], bindings, oracle, t));
    }
  }

  lemma {:induction false} StartsPerform(blocks: seq<Block>, bindings: seq<Binding>, oracle: Oracle, t: Trace)
    ensures Perform(AllChildren(Starts(blocks)), bindings, oracle, t) == PerformStarts(blocks, bindings, oracle, t)
  {
    hide Perform;
    if blocks == [] {
      NothingPerforms(bindings, oracle, t);
    } else if !blocks[0].disabled && blocks[0].typ.OnStart? {
      var rest, first := AllChildren(Starts(blocks[1..])), blocks[0].children;
      assert Starts(blocks)[1..] == Starts(blocks[1..]);
      PerformAppend(first, rest, bindings, oracle, t);
      StartsPerform(blocks[1..], bindings, oracle, Perform(first, bindings, oracle, t));
    } else {
      StartsPerform(blocks[1..], bindings, oracle, t);
    }
  }

  lemma NothingPerforms(bindings: seq<Binding>, oracle: Oracle, t: Trace)
    ensures Perform([], bindings, oracle, t) == t
  {
  }

  lemma {:induction false} LoosePerform(blocks: seq<Block>, bindings: seq<Binding>, oracle: Oracle, t: Trace)
    ensures Perform(Loose(blocks), bindings, oracle, t) == PerformLoose(blocks, bindings, oracle, t)
  {
    hide PerformBlock;
    if blocks != [] {
      var b := blocks[0];
      if !b.disabled && !IsEvent(b.typ) {
        assert Loose(blocks)[1..] == Loose(blocks[1..]);
        LoosePerform(blocks[1..], bindings, oracle, PerformBlock(b, bindings, oracle, t));
      } else {
        LoosePerform(blocks[1..], bindings, oracle, t);
      }
    }
  }

  /** The steps of `main()` leave the trace of the program. */
  lemma MainPerforms(blocks: seq<Block>, bindings: seq<Binding>, oracle: Oracle)
    ensures Perform(MainSteps(blocks), bindings, oracle, []) == PerformProgram(blocks, bindings, oracle)
  {
    hide Perform, PerformStarts, PerformLoose;
    PerformAppend(AllChildren(Starts(blocks)), Loose(blocks), bindings, oracle, []);
    StartsPerform(blocks, bindings, oracle, []);
    LoosePerform(blocks, bindings, oracle, PerformStarts(blocks, bindings, oracle, []));
  }

  /** There is a `main()` exactly when an enabled block is neither a timer nor a gesture block. */
  lemma {:induction false} MainExactly(blocks: seq<Block>)
    ensures HasMain(blocks) <==> RunsMain(blocks)
  {
    if blocks != [] {
      MainExactly(blocks[1..]);
      assert blocks == [blocks[0]] + blocks[1..];
    }
  }

  // ---------------------------------------------------------------- the event functions

  /** The places of the rest of a list, seen from the whole list, behind the place of its first block if that counts. */
  ghost function Shifted(b: Block, later: seq<nat>): seq<nat> {
    (if IsHandler(b) then [0] else []) + seq(|later|, k requires 0 <= k < |later| => later[k] + 1)
  }

  lemma ShiftedAt(b: Block, later: seq<nat>)
    ensures var at, d := Shifted(b, later), if IsHandler(b) then 1 else 0;
            && |at| == |later| + d && (d == 1 ==> at[0] == 0)
            && (forall k :: d <= k < |at| ==> at[k] == later[k - d] + 1)
  {
    hide IsHandler;
  }

  lemma ShiftedKeeps(b: Block, later: seq<nat>, i: nat)
    requires i in later
    ensures i + 1 in Shifted(b, later)
  {
    hide IsHandler, Shifted;
    ShiftedAt(b, later);
    var k :| 0 <= k < |later| && later[k] == i;
    assert Shifted(b, later)[k + if IsHandler(b) then 1 else 0] == i + 1;
  }

  lemma ShiftedListed(blocks: seq<Block>, later: seq<nat>)
    requires blocks != [] && ListsHandlers(later, blocks[1..])
    ensures ListsHandlers(Shifted(blocks[0], later), blocks)
  {
    hide IsHandler, Shifted;
    var at, d := Shifted(blocks[0], later), if IsHandler(blocks[0]) then 1 else 0;
    ShiftedAt(blocks[0], later);
    forall k | 0 <= k < |at| ensures at[k] < |blocks| && IsHandler(blocks[at[k]]) {
      if k >= d {
        assert blocks[at[k]] == blocks[1..][later[k - d]];
      }
    }
    forall i | 0 <= i < |blocks| && IsHandler(blocks[i]) ensures i in at {
      if i > 0 {
        assert blocks[1..][i - 1] == blocks[i];
        ShiftedKeeps(blocks[0], later, i - 1);
      }
    }
  }

  /** The blocks at these places. */
  ghost predicate Picks(events: seq<Block>, at: seq<nat>, blocks: seq<Block>) {
    |events| == |at| && forall k :: 0 <= k < |at| ==> at[k] < |blocks| && events[k] == blocks[at[k]]
  }

  lemma ShiftedPicks(events: seq<Block>, later: seq<nat>, blocks: seq<Block>)
    requires blocks != [] && Picks(events, later, blocks[1..])
    ensures Picks((if IsHandler(blocks[0]) then [blocks[0]] else []) + events, Shifted(blocks[0], later), blocks)
  {
    hide IsHandler, Shifted;
    var at, d := Shifted(blocks[0], later), if IsHandler(blocks[0]) then 1 else 0;
    var all := (if IsHandler(blocks[0]) then [blocks[0]] else []) + events;
    ShiftedAt(blocks[0], later);
    forall k | 0 <= k < |at| ensures at[k] < |blocks| && all[k] == blocks[at[k]] {
      if k >= d {
        assert blocks[at[k]] == blocks[1..][later[k - d]];
      }
    }
  }

  /** The event functions stand for exactly the enabled timer and gesture blocks, in order. */
  lemma {:induction false} EventsListed(blocks: seq<Block>) returns (at: seq<nat>)
    ensures ListsHandlers(at, blocks) && Picks(Events(blocks), at, blocks)
  {
    hide ListsHandlers, Shifted, Picks;
    if blocks == [] {
      at := [];
      NoHandlers();
    } else {
      var later := EventsListed(blocks[1..]);
      at := Shifted(blocks[0], later);
      ShiftedListed(blocks, later);
      ShiftedPicks(Events(blocks[1..]), later, blocks);
      var first := if IsHandler(blocks[0]) then [blocks[0]] else [];
      assert Events(blocks) == first + Events(blocks[1..]);
    }
  }

  lemma NoHandlers()
    ensures ListsHandlers([], []) && Picks([], [], [])
  {
  }

  lemma {:induction false} EventsMembers(blocks: seq<Block>)
    ensures forall b :: b in Events(blocks) <==> b in blocks && IsHandler(b)
  {
    if blocks != [] {
      EventsMembers(blocks[1..]);
      assert blocks == [blocks[0]] + blocks[1..];
    }
  }

  // ---------------------------------------------------------------- what is asked of the blocks

  lemma {:induction false} CompilableAppend(a: seq<Block>, b: seq<Block>, bindings: seq<Binding>)
    ensures CompilableChildren(a + b, bindings) <==> CompilableChildren(a, bindings) && CompilableChildren(b, bindings)
  {
    hide Compilable;
    if a == [] {
      assert a + b == b;
    } else {
      assert (a + b)[1..] == a[1..] + b;
      CompilableAppend(a[1..], b, bindings);
    }
  }

  lemma {:induction false} StartsCompilable(blocks: seq<Block>, bindings: seq<Binding>)
    requires forall b :: b in blocks ==> CompilableTop(b, bindings)
    ensures CompilableChildren(AllChildren(Starts(blocks)), bindings) && CompilableChildren(Loose(blocks), bindings)
  {
    hide Compilable, CompilableEvent;
    if blocks != [] {
      assert blocks[0] in blocks;
      StartsCompilable(blocks[1..], bindings);
      if !blocks[0].disabled && blocks[0].typ.OnStart? {
        assert Starts(blocks)[1..] == Starts(blocks[1..]);
        CompilableAppend(blocks[0].children, AllChildren(Starts(blocks[1..])), bindings);
      } else if !blocks[0].disabled && !IsEvent(blocks[0].typ) {
        assert Loose(blocks)[1..] == Loose(blocks[1..]);
      }
    }
  }

  lemma MainCompilable(blocks: seq<Block>, bindings: seq<Binding>)
    requires CompilableProgram(blocks, bindings)
    ensures CompilableChildren(MainSteps(blocks), bindings)
    ensures forall b :: b in Events(blocks) ==> CompilableEvent(b, bindings)
  {
    hide CompilableBindings, SuitedProgram, CompilableChildren, Compilable, CompilableEvent;
    StartsCompilable(blocks, bindings);
    CompilableAppend(AllChildren(Starts(blocks)), Loose(blocks), bindings);
    EventsMembers(blocks);
    forall b | b in Events(blocks) ensures CompilableEvent(b, bindings) {
      assert CompilableTop(b, bindings);
    }
  }
}

/**
 * What the order in which devices were bound to a project does to the generated file: it decides between aliases the
 * locale's comparison ties, and nothing else.
 */
module BindingOrder {
  import opened Wrappers
  import opened Text
  import opened Values
  import opened Catalog
  import opened Python
  import opened PythonText
  import opened Generate
  import opened Structure
  import opened Literals
  import opened Meaning
  import opened Program
  import opened FileText

  predicate Distinct(bindings: seq<Binding>) {
    forall i, j :: 0 <= i < j < |bindings| ==>
      bindings[i].alias != bindings[j].alias && bindings[i].deviceId != bindings[j].deviceId
  }

  /**
   * A consistent comparison of the aliases that are bound: no alias is before itself or before one that is before it,
   * and "not before" is transitive. Two different aliases may tie.
   */
  ghost predicate Collation(bindings: seq<Binding>, before: Before) {
    && (forall a, b :: a in bindings && b in bindings && before(a.alias, b.alias) ==> !before(b.alias, a.alias))
    && (forall a, b, c :: a in bindings && b in bindings && c in bindings && before(a.alias, c.alias) ==>
          before(a.alias, b.alias) || before(b.alias, c.alias))
  }

  predicate Tied(a: Binding, b: Binding, before: Before) {
    a != b && !before(a.alias, b.alias) && !before(b.alias, a.alias)
  }

  ghost predicate SameBindings(x: seq<Binding>, y: seq<Binding>) {
    multiset(x) == multiset(y) && Distinct(x) && Distinct(y)
  }

  lemma SameMembers(x: seq<Binding>, y: seq<Binding>)
    requires SameBindings(x, y)
    ensures |x| == |y| && forall b :: b in x <==> b in y
  {
    assert |multiset(x)| == |x| && |multiset(y)| == |y|;
    forall b ensures b in x <==> b in y {
      assert b in x <==> b in multiset(x);
      assert b in y <==> b in multiset(y);
    }
  }

  // ---------------------------------------------------------------- devices resolve the same

  lemma {:induction false} AliasOfDevice(deviceId: string, bindings: seq<Binding>, b: Binding)
    requires Distinct(bindings) && b in bindings && b.deviceId == deviceId
    ensures AliasByDeviceId(deviceId, bindings) == b.alias
  {
    if bindings[0].deviceId == deviceId {
      var i :| 0 <= i < |bindings| && bindings[i] == b;
      assert i == 0;
    } else {
      assert forall i, j :: 0 <= i < j < |bindings[1..]| ==>
             bindings[1..][i] == bindings[i + 1] && bindings[1..][j] == bindings[j + 1];
      AliasOfDevice(deviceId, bindings[1..], b);
    }
  }

  lemma {:induction false} NoAliasOfDevice(deviceId: string, bindings: seq<Binding>)
    requires forall b :: b in bindings ==> b.deviceId != deviceId
    ensures AliasByDeviceId(deviceId, bindings) == deviceId
  {
    if bindings != [] {
      assert bindings[0] in bindings;
      NoAliasOfDevice(deviceId, bindings[1..]);
    }
  }

  lemma ResolveSame(b: Block, x: seq<Binding>, y: seq<Binding>)
    requires SameBindings(x, y)
    ensures Resolve(b, x) == Resolve(b, y)
  {
    SameMembers(x, y);
    var requested := FieldOf(b, Device);
    if !requested.Str? || requested.text == "" {
      if |x| == 1 { assert x[0] in x && x[0] in y; }
    } else {
      var name := requested.text;
      KnownSame(name, x, y);
      if exists c :: c in x && c.deviceId == name {
        var c :| c in x && c.deviceId == name;
        AliasOfDevice(name, x, c);
        AliasOfDevice(name, y, c);
      } else {
        NoAliasOfDevice(name, x);
        NoAliasOfDevice(name, y);
      }
    }
  }

  lemma KnownMember(name: string, bindings: seq<Binding>)
    ensures IsKnown(name, bindings) <==> exists b :: b in bindings && (b.alias == name || b.deviceId == name)
  {
    if IsKnown(name, bindings) {
      var i :| 0 <= i < |bindings| && (bindings[i].alias == name || bindings[i].deviceId == name);
      assert bindings[i] in bindings;
    }
  }

  lemma KnownSame(name: string, x: seq<Binding>, y: seq<Binding>)
    requires forall b :: b in x <==> b in y
    ensures IsKnown(name, x) == IsKnown(name, y)
  {
    KnownMember(name, x);
    KnownMember(name, y);
  }

  // ---------------------------------------------------------------- blocks emit the same

  lemma {:induction false} ItemsSame(children: seq<Block>, depth: nat, x: seq<Binding>, y: seq<Binding>)
    requires SameBindings(x, y)
    ensures ItemsOut(children, depth, x) == ItemsOut(children, depth, y)
  {
    hide Resolve, SameBindings;
    if children != [] {
      ResolveSame(children[0], x, y);
      ItemsSame(children[1..], depth, x, y);
    }
  }

  lemma {:induction false} ChildrenSame(children: seq<Block>, depth: nat, x: seq<Binding>, y: seq<Binding>)
    requires SameBindings(x, y)
    ensures ChildrenOut(children, depth, x) == ChildrenOut(children, depth, y)
    ensures BodyOut(children, depth, x) == BodyOut(children, depth, y)
    decreases children, 2
  {
    hide StatementOut, SameBindings;
    if children != [] {
      StatementSame(children[0], depth, x, y);
      ChildrenSame(children[1..], depth, x, y);
    }
  }

  lemma {:induction false} StatementSame(b: Block, depth: nat, x: seq<Binding>, y: seq<Binding>)
    requires SameBindings(x, y)
    ensures StatementOut(b, depth, x) == StatementOut(b, depth, y)
    decreases b, 1
  {
    hide Resolve, SameBindings, CommentOut, OwnOut;
    ResolveSame(b, x, y);
    if BlockSpecOf(b.typ).Some? { OwnSame(b, depth, BlockSpecOf(b.typ).value, x, y); }
  }

  lemma EmptyBodySame(depth: nat, x: seq<Binding>, y: seq<Binding>)
    ensures BodyOut([], depth, x) == BodyOut([], depth, y)
  {
  }

  lemma {:induction false} OwnSame(b: Block, depth: nat, spec: BlockSpec, x: seq<Binding>, y: seq<Binding>)
    requires SameBindings(x, y) && BlockSpecOf(b.typ) == Some(spec)
    ensures OwnOut(b, depth, x, spec) == OwnOut(b, depth, y, spec)
    decreases b, 0
  {
    hide Resolve, SameBindings, PythonString, PythonNumber, DeviceArgs, AliasIdentifier, ItemsOut, DefaultOf, EveryName,
         BodyOut;
    ResolveSame(b, x, y);
    EmptyBodySame(depth + 1, x, y);
    if b.typ.If? && b.children != [] {
      ResolveSame(b.children[0], x, y);
      ChildrenSame(b.children[1..], depth + 1, x, y);
    } else {
      ChildrenSame(b.children, depth + 1, x, y);
      ItemsSame(b.children, depth + 1, x, y);
    }
  }

  lemma {:induction false} EventsSame(events: seq<Block>, x: seq<Binding>, y: seq<Binding>)
    requires SameBindings(x, y)
    ensures EventsOut(events, x) == EventsOut(events, y)
  {
    hide BodyOut, SameBindings;
    if events != [] {
      ChildrenSame([events[0]], 0, x, y);
      EventsSame(events[1..], x, y);
    }
  }

  lemma ProgramSame(blocks: seq<Block>, x: seq<Binding>, y: seq<Binding>)
    requires SameBindings(x, y)
    ensures ProgramOut(blocks, x) == ProgramOut(blocks, y)
  {
    hide BodyOut, EventsOut, SameBindings;
    EventsSame(Events(blocks), x, y);
    ChildrenSame(MainSteps(blocks), 1, x, y);
  }

  // ---------------------------------------------------------------- one element before another

  predicate Unique(s: seq<Binding>) { s == [] || (s[0] !in s[1..] && Unique(s[1..])) }

  /** The first of two elements comes earlier. */
  predicate Precedes(a: Binding, b: Binding, s: seq<Binding>) {
    s != [] && (if s[0] == a then b in s[1..] else Precedes(a, b, s[1..]))
  }

  lemma {:induction false} DistinctUnique(bindings: seq<Binding>)
    requires Distinct(bindings)
    ensures Unique(bindings)
  {
    if bindings != [] {
      var rest := bindings[1..];
      assert forall i :: 0 <= i < |rest| ==> rest[i] == bindings[i + 1];
      DistinctUnique(rest);
    }
  }

  lemma {:induction false} PrecedesMembers(a: Binding, b: Binding, s: seq<Binding>)
    requires Precedes(a, b, s)
    ensures a in s && b in s
  {
    if s[0] != a { PrecedesMembers(a, b, s[1..]); }
  }

  lemma {:induction false} PrecedesOne(a: Binding, b: Binding, s: seq<Binding>)
    requires Unique(s) && a in s && b in s && a != b
    ensures Precedes(a, b, s) <==> !Precedes(b, a, s)
  {
    assert s == [s[0]] + s[1..];
    if s[0] != a && s[0] != b { PrecedesOne(a, b, s[1..]); }
    if Precedes(b, a, s[1..]) { PrecedesMembers(b, a, s[1..]); }
    if Precedes(a, b, s[1..]) { PrecedesMembers(a, b, s[1..]); }
  }

  /** A list without repetition is known by which of any two elements comes first. */
  lemma {:induction false} SameOrderSame(s: seq<Binding>, t: seq<Binding>)
    requires Unique(s) && Unique(t) && forall b :: b in s <==> b in t
    requires forall a, b :: a in s && b in s && a != b ==> (Precedes(a, b, s) <==> Precedes(a, b, t))
    ensures s == t
    decreases |s|
  {
    assert t != [] ==> t[0] in t;
    if s != [] {
      assert s[0] in s && t != [];
      if s[0] != t[0] {
        assert Precedes(s[0], t[0], s) by { assert s == [s[0]] + s[1..]; }
        PrecedesMembers(s[0], t[0], t[1..]);
        assert false;
      }
      var s1, t1 := s[1..], t[1..];
      assert s == [s[0]] + s1 && t == [t[0]] + t1;
      forall b ensures b in s1 <==> b in t1 {
        assert b in s <==> b == s[0] || b in s1;
        assert b in t <==> b == t[0] || b in t1;
      }
      forall a, b | a in s1 && b in s1 && a != b ensures Precedes(a, b, s1) <==> Precedes(a, b, t1) {
        assert Precedes(a, b, s) <==> Precedes(a, b, t);
      }
      SameOrderSame(s1, t1);
    }
  }

  // ---------------------------------------------------------------- what sorting does to the order

  ghost predicate NoneBefore(s: seq<Binding>, before: Before) {
    forall a, b :: Precedes(a, b, s) ==> !before(b.alias, a.alias)
  }

  lemma {:induction false} InsertUnique(b: Binding, sorted: seq<Binding>, before: Before)
    requires Unique(sorted) && b !in sorted
    ensures Unique(Insert(b, sorted, before))
  {
    if sorted != [] && before(sorted[0].alias, b.alias) {
      InsertUnique(b, sorted[1..], before);
      InsertMembers(b, sorted[1..], before);
    }
  }

  lemma {:induction false} SortedUnique(bindings: seq<Binding>, before: Before)
    requires Unique(bindings)
    ensures Unique(Sorted(bindings, before))
  {
    if bindings != [] {
      SortedUnique(bindings[1..], before);
      SortedMembers(bindings[1..], before);
      InsertUnique(bindings[0], Sorted(bindings[1..], before), before);
    }
  }

  /** Inserting moves no other element. */
  lemma {:induction false} InsertKeeps(b: Binding, sorted: seq<Binding>, before: Before, c: Binding, d: Binding)
    requires b !in sorted && c in sorted && d in sorted && c != d
    ensures Precedes(c, d, Insert(b, sorted, before)) <==> Precedes(c, d, sorted)
  {
    var r := Insert(b, sorted, before);
    if before(sorted[0].alias, b.alias) {
      assert r[1..] == Insert(b, sorted[1..], before);
      InsertMembers(b, sorted[1..], before);
      if c in sorted[1..] && d in sorted[1..] {
        InsertKeeps(b, sorted[1..], before, c, d);
      } else {
        if Precedes(c, d, r[1..]) { PrecedesMembers(c, d, r[1..]); }
        if Precedes(c, d, sorted[1..]) { PrecedesMembers(c, d, sorted[1..]); }
      }
    } else {
      assert r[1..] == sorted;
    }
  }

  /** The new element comes before the first one that is not before it. */
  lemma {:induction false} InsertPlace(b: Binding, sorted: seq<Binding>, all: seq<Binding>, before: Before, c: Binding)
    requires Collation(all, before) && Unique(sorted) && b !in sorted && NoneBefore(sorted, before)
    requires b in all && forall e :: e in sorted ==> e in all
    requires c in sorted
    ensures Precedes(b, c, Insert(b, sorted, before)) <==> !before(c.alias, b.alias)
    ensures Precedes(c, b, Insert(b, sorted, before)) <==> before(c.alias, b.alias)
  {
    var r := Insert(b, sorted, before);
    assert sorted == [sorted[0]] + sorted[1..];
    if before(sorted[0].alias, b.alias) {
      assert r[1..] == Insert(b, sorted[1..], before);
      InsertMembers(b, sorted[1..], before);
      if c == sorted[0] {
        if Precedes(b, c, r[1..]) { PrecedesMembers(b, c, r[1..]); }
      } else {
        TailNoneBefore(sorted, before);
        InsertPlace(b, sorted[1..], all, before, c);
      }
    } else {
      assert r[1..] == sorted;
      assert c == sorted[0] || Precedes(sorted[0], c, sorted);
      if Precedes(c, b, sorted) { PrecedesMembers(c, b, sorted); }
    }
  }

  lemma TailNoneBefore(s: seq<Binding>, before: Before)
    requires s != [] && Unique(s) && NoneBefore(s, before)
    ensures NoneBefore(s[1..], before)
  {
    forall a, b | Precedes(a, b, s[1..]) ensures !before(b.alias, a.alias) {
      PrecedesMembers(a, b, s[1..]);
      assert Precedes(a, b, s);
    }
  }

  /** Of two bindings the one with the earlier alias comes first, and of two that tie the one bound first. */
  lemma {:induction false} SortedOrder(x: seq<Binding>, all: seq<Binding>, before: Before, a: Binding, b: Binding)
    requires Unique(x) && Collation(all, before) && forall e :: e in x ==> e in all
    requires a in x && b in x && a != b
    ensures Precedes(a, b, Sorted(x, before)) <==>
            before(a.alias, b.alias) || (Tied(a, b, before) && Precedes(a, b, x))
    decreases |x|, 0
  {
    var rest := x[1..];
    var sorted := Sorted(rest, before);
    assert x == [x[0]] + rest;
    SortedUnique(rest, before);
    SortedMembers(rest, before);
    SortedNoneBefore(rest, all, before);
    if x[0] == a {
      InsertPlace(a, sorted, all, before, b);
    } else if x[0] == b {
      InsertPlace(b, sorted, all, before, a);
      if Precedes(a, b, rest) { PrecedesMembers(a, b, rest); }
    } else {
      SortedOrder(rest, all, before, a, b);
      InsertKeeps(x[0], sorted, before, a, b);
    }
  }

  lemma {:induction false} SortedNoneBefore(x: seq<Binding>, all: seq<Binding>, before: Before)
    requires Unique(x) && Collation(all, before) && forall e :: e in x ==> e in all
    ensures NoneBefore(Sorted(x, before), before)
    decreases |x|, 1
  {
    var sorted := Sorted(x, before);
    SortedMembers(x, before);
    SortedUnique(x, before);
    forall a, b | Precedes(a, b, sorted) ensures !before(b.alias, a.alias) {
      PrecedesMembers(a, b, sorted);
      if a == b {
        NeverBeforeItself(a, sorted);
        assert false;
      }
      SortedOrder(x, all, before, a, b);
    }
  }

  lemma {:induction false} NeverBeforeItself(a: Binding, s: seq<Binding>)
    requires Unique(s)
    ensures !Precedes(a, a, s)
  {
    if s != [] && s[0] != a { NeverBeforeItself(a, s[1..]); }
  }

  // ---------------------------------------------------------------- the file shows the sorted bindings

  lemma {:induction false} EscapeInjective(s: string, t: string)
    requires EscapeOnce(s) == EscapeOnce(t)
    ensures s == t
  {
    if s == "" || t == "" {
      assert s == t;
    } else {
      var e := EscapeOnce(s);
      assert EscapeChar(s[0])[0] == e[0] && EscapeChar(t[0])[0] == e[0];
      if e[0] == '\\' {
        assert EscapeChar(s[0])[1] == e[1] && EscapeChar(t[0])[1] == e[1];
      }
      assert s[0] == t[0];
      var n := |EscapeChar(s[0])|;
      assert EscapeOnce(s[1..]) == e[n..] && EscapeOnce(t[1..]) == e[n..];
      EscapeInjective(s[1..], t[1..]);
      assert s == [s[0]] + s[1..] && t == [t[0]] + t[1..];
    }
  }

  lemma StringInjective(a: string, b: string)
    requires PythonString(Plain(a)) == PythonString(Plain(b))
    ensures a == b
  {
    hide ReplaceAll;
    ThreePassesEscapeOnce(a);
    ThreePassesEscapeOnce(b);
    var p := PythonString(Plain(a));
    assert p == "\"" + EscapeOnce(a) + "\"" && p == "\"" + EscapeOnce(b) + "\"";
    assert EscapeOnce(a) == p[1..|p| - 1] && EscapeOnce(b) == p[1..|p| - 1];
    EscapeInjective(a, b);
  }

  lemma {:induction false} IdentifierApart(a: string, b: string, p: string, q: string)
    requires IsIdentifier(a) && IsIdentifier(b) && a + " " + p == b + " " + q
    ensures p == q
  {
    var s := a + " " + p;
    assert s[|a|] == ' ' && s[|b|] == ' ';
    assert forall i :: 0 <= i < |a| ==> s[i] == a[i];
    assert forall i :: 0 <= i < |b| ==> s[i] == b[i];
    assert |a| == |b|;
    assert p == s[|a| + 1..] && q == s[|b| + 1..];
  }

  function AssignLine(b: Binding): Line {
    Line(0, Assign(AliasIdentifier(b.alias), PythonString(Plain(b.deviceId))))
  }

  lemma AssignText(b: Binding)
    ensures RenderLine(AssignLine(b)) ==
            AliasIdentifier(b.alias) + " " + ("= device(" + PythonString(Plain(b.deviceId)) + ")")
  {
    hide AliasIdentifier, PythonString;
    BlankText(AssignLine(b));
    assert " = device(" == " " + "= device(";
  }

  lemma AssignShowsDevice(a: Binding, b: Binding)
    requires RenderLine(AssignLine(a)) == RenderLine(AssignLine(b))
    ensures a.deviceId == b.deviceId
  {
    hide AliasIdentifier, PythonString, IsIdentifier, RenderLine, AssignLine;
    var p, q := PythonString(Plain(a.deviceId)), PythonString(Plain(b.deviceId));
    var s, t := "= device(" + p + ")", "= device(" + q + ")";
    AliasIdentifierIsIdentifier(a.alias);
    AliasIdentifierIsIdentifier(b.alias);
    AssignText(a);
    AssignText(b);
    IdentifierApart(AliasIdentifier(a.alias), AliasIdentifier(b.alias), s, t);
    assert p == s[9..|s| - 1] && q == t[9..|t| - 1];
    StringInjective(a.deviceId, b.deviceId);
  }

  lemma {:induction false} AssignLinesAt(sorted: seq<Binding>)
    ensures |AssignOut(sorted).lines| == |sorted|
    ensures forall i :: 0 <= i < |sorted| ==> AssignOut(sorted).lines[i] == AssignLine(sorted[i])
  {
    hide AliasIdentifier, PythonString;
    if sorted != [] { AssignLinesAt(sorted[1..]); }
  }

  /** Line by line, the file shows the sorted bindings from its fourth line on. */
  lemma FileAssigns(blocks: seq<Block>, x: seq<Binding>, before: Before, i: nat)
    requires i < |x|
    ensures 3 + i < |FileLines(blocks, x, before)|
    ensures FileLines(blocks, x, before)[3 + i] == AssignLine(Sorted(x, before)[i])
  {
    hide ProgramOut, AssignOut, Sorted, Imports, AliasIdentifier, PythonString, TrimBlank;
    var sorted := Sorted(x, before);
    AssignLinesAt(sorted);
    var lines := FileOut(blocks, x, before).lines;
    var kept := FileLines(blocks, x, before);
    assert lines[3 + i] == AssignLine(sorted[i]);
    assert !lines[3 + i].stmt.Blank?;
  }

  /** For the same bindings the file tells the sorted list apart. */
  lemma FileShowsSorted(blocks: seq<Block>, x: seq<Binding>, y: seq<Binding>, before: Before)
    requires SameBindings(x, y) && PythonFile(blocks, x, before) == PythonFile(blocks, y, before)
    ensures Sorted(x, before) == Sorted(y, before)
  {
    hide FileLines, PythonFile, Sorted, AssignLine, RenderLine, Split;
    SameMembers(x, y);
    FileSplits(blocks, x, before);
    FileSplits(blocks, y, before);
    var p, q := RenderLines(FileLines(blocks, x, before)), RenderLines(FileLines(blocks, y, before));
    assert p + [""] == q + [""];
    assert |p| == |q| && p == (p + [""])[..|p|] && q == (q + [""])[..|q|];
    var s, t := Sorted(x, before), Sorted(y, before);
    forall i | 0 <= i < |s| ensures s[i] == t[i] {
      FileAssigns(blocks, x, before, i);
      FileAssigns(blocks, y, before, i);
      assert RenderLine(AssignLine(s[i])) == p[3 + i] && RenderLine(AssignLine(t[i])) == q[3 + i];
      AssignShowsDevice(s[i], t[i]);
      SortedMembers(x, before);
      SortedMembers(y, before);
      assert s[i] in s && t[i] in t;
      DeviceTells(x, s[i], t[i]);
    }
  }

  lemma DeviceTells(x: seq<Binding>, a: Binding, b: Binding)
    requires Distinct(x) && a in x && b in x && a.deviceId == b.deviceId
    ensures a == b
  {
    var i, j :| 0 <= i < |x| && 0 <= j < |x| && x[i] == a && x[j] == b;
    assert !(i < j) && !(j < i);
  }

  // ---------------------------------------------------------------- the exact condition

  /** Bindings whose aliases tie stand in the same order in both lists. */
  ghost predicate TiesAlike(x: seq<Binding>, y: seq<Binding>, before: Before) {
    forall a, b :: a in x && b in x && Tied(a, b, before) ==> (Precedes(a, b, x) <==> Precedes(a, b, y))
  }

  lemma SortedAlike(x: seq<Binding>, y: seq<Binding>, before: Before)
    requires SameBindings(x, y) && Collation(x, before)
    ensures Sorted(x, before) == Sorted(y, before) <==> TiesAlike(x, y, before)
  {
    hide SameBindings, Collation, Sorted, Precedes, Unique;
    SameMembers(x, y);
    assert Distinct(x) && Distinct(y) by { SameDistinct(x, y); }
    DistinctUnique(x);
    DistinctUnique(y);
    SortedUnique(x, before);
    SortedUnique(y, before);
    SortedMembers(x, before);
    SortedMembers(y, before);
    forall a, b | a in x && b in x && a != b
      ensures Precedes(a, b, Sorted(x, before)) <==>
              before(a.alias, b.alias) || (Tied(a, b, before) && Precedes(a, b, x))
      ensures Precedes(a, b, Sorted(y, before)) <==>
              before(a.alias, b.alias) || (Tied(a, b, before) && Precedes(a, b, y))
    {
      SortedOrder(x, x, before, a, b);
      SortedOrder(y, x, before, a, b);
    }
    if TiesAlike(x, y, before) { SameOrderSame(Sorted(x, before), Sorted(y, before)); }
  }

  lemma SameDistinct(x: seq<Binding>, y: seq<Binding>)
    requires SameBindings(x, y)
    ensures Distinct(x) && Distinct(y)
  {
  }

  /**
   * Binding the same devices in another order gives the same file exactly when aliases that tie keep their order, and
   * then the same source map and warnings too.
   */
  lemma OutputIgnoresBindingOrder(blocks: seq<Block>, x: seq<Binding>, y: seq<Binding>, before: Before)
    requires SameBindings(x, y) && Collation(x, before)
    ensures PythonFile(blocks, x, before) == PythonFile(blocks, y, before) <==> TiesAlike(x, y, before)
    ensures TiesAlike(x, y, before) ==> SourceMap(blocks, x, before) == SourceMap(blocks, y, before)
    ensures ProgramOut(blocks, x) == ProgramOut(blocks, y)
  {
    hide ProgramOut, SameBindings, Collation, Sorted, TiesAlike, FileLines;
    ProgramSame(blocks, x, y);
    SortedAlike(x, y, before);
    if PythonFile(blocks, x, before) == PythonFile(blocks, y, before) {
      FileShowsSorted(blocks, x, y, before);
    }
    if TiesAlike(x, y, before) { SortedDecides(blocks, x, y, before); }
  }

  lemma SortedDecides(blocks: seq<Block>, x: seq<Binding>, y: seq<Binding>, before: Before)
    requires ProgramOut(blocks, x) == ProgramOut(blocks, y) && Sorted(x, before) == Sorted(y, before)
    ensures PythonFile(blocks, x, before) == PythonFile(blocks, y, before)
    ensures SourceMap(blocks, x, before) == SourceMap(blocks, y, before)
  {
    hide ProgramOut, Sorted;
  }

  predicate NoTies(x: seq<Binding>, before: Before) {
    forall i, j :: 0 <= i < j < |x| ==> !Tied(x[i], x[j], before)
  }

  /** No order of the bindings matters exactly when no two aliases tie. */
  lemma AnyOrderExactly(blocks: seq<Block>, x: seq<Binding>, before: Before)
    requires Distinct(x) && Collation(x, before)
    ensures NoTies(x, before) <==>
            forall y :: SameBindings(x, y) ==> PythonFile(blocks, y, before) == PythonFile(blocks, x, before)
  {
    hide PythonFile, SameBindings, Collation, Distinct, Precedes;
    if NoTies(x, before) {
      forall y | SameBindings(x, y) ensures PythonFile(blocks, y, before) == PythonFile(blocks, x, before) {
        OutputIgnoresBindingOrder(blocks, x, y, before);
      }
    } else {
      var i, j :| 0 <= i < j < |x| && Tied(x[i], x[j], before);
      var y := Swapped(x, i, j);
      SwapSame(x, i, j);
      SwapUntied(x, i, j, before);
      OutputIgnoresBindingOrder(blocks, x, y, before);
    }
  }

  lemma SwapUntied(x: seq<Binding>, i: nat, j: nat, before: Before)
    requires Distinct(x) && i < j < |x| && Tied(x[i], x[j], before)
    ensures !TiesAlike(x, Swapped(x, i, j), before)
  {
    hide Precedes, Distinct, Unique;
    var y := Swapped(x, i, j);
    SwapDistinct(x, i, j);
    DistinctUnique(x);
    DistinctUnique(y);
    EarlierPrecedes(x, i, j);
    EarlierPrecedes(y, i, j);
    assert y[i] == x[j] && y[j] == x[i];
    assert y[i] in y && y[j] in y && x[i] in x && x[j] in x;
    PrecedesOne(x[i], x[j], y);
  }

  function Swapped(x: seq<Binding>, i: nat, j: nat): (y: seq<Binding>)
    requires i < j < |x|
  {
    x[i := x[j]][j := x[i]]
  }

  lemma SwapSame(x: seq<Binding>, i: nat, j: nat)
    requires Distinct(x) && i < j < |x|
    ensures SameBindings(x, Swapped(x, i, j))
  {
    hide Distinct;
    SwapMultiset(x, i, j);
    SwapDistinct(x, i, j);
  }

  lemma SwapMultiset(x: seq<Binding>, i: nat, j: nat)
    requires i < j < |x|
    ensures multiset(Swapped(x, i, j)) == multiset(x)
  {
    var once := x[i := x[j]];
    assert multiset(once) == multiset(x) - multiset{x[i]} + multiset{x[j]};
    assert multiset(once[j := x[i]]) == multiset(once) - multiset{once[j]} + multiset{x[i]};
    assert x[i] in multiset(x);
  }

  lemma SwapDistinct(x: seq<Binding>, i: nat, j: nat)
    requires Distinct(x) && i < j < |x|
    ensures Distinct(Swapped(x, i, j))
  {
    var y := Swapped(x, i, j);
    forall p, q | 0 <= p < q < |y| ensures y[p].alias != y[q].alias && y[p].deviceId != y[q].deviceId {
      var a, b := if p == i then j else if p == j then i else p, if q == i then j else if q == j then i else q;
      assert y[p] == x[a] && y[q] == x[b] && a != b;
      assert if a < b then x[a].alias != x[b].alias else x[b].alias != x[a].alias;
    }
  }

  lemma {:induction false} EarlierPrecedes(s: seq<Binding>, i: nat, j: nat)
    requires Unique(s) && i < j < |s|
    ensures Precedes(s[i], s[j], s)
  {
    if i == 0 {
      assert s[1..][j - 1] == s[j];
    } else {
      assert s[1..][i - 1] == s[i] && s[1..][j - 1] == s[j];
      EarlierPrecedes(s[1..], i - 1, j - 1);
    }
  }
}

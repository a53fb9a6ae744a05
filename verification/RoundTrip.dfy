/**
 * Writing a block to the editor and reading it back: on every tree it is one normaliser, which is idempotent and leaves
 * exactly the well-formed trees with distinct ids alone.
 */
module RoundTrip {
  import opened Wrappers
  import opened Values
  import opened Catalog
  import opened Generate
  import opened Serialize
  import opened BlockIds

  /** What is read back, but for ids the editor replaces. */
  function Reread(b: Block): Option<Block> {
    var live := LoadState(Serialized(b));
    if live.None? then None else Some(Node(live.value))
  }

  predicate HasInput(t: BlockType, kind: FieldKind) { InputName(t, kind).Some? }

  // ---------------------------------------------------------------- the normaliser, straight from the tree

  function DefaultFor(fields: seq<FieldSpec>, name: FieldName): Value {
    var found := FindField(fields, name);
    if found.Some? then EditorDefault(found.value) else Undefined
  }

  /** Exactly the declared fields, missing ones filled in. */
  function NormalFields(b: Block): map<FieldName, Value> {
    var fields := SpecFields(b.typ);
    map n | n in DataNames(fields) :: ReadValue(if n in b.fields then b.fields[n] else DefaultFor(fields, n))
  }

  predicate AnyReporter(children: seq<Block>) { exists i :: 0 <= i < |children| && IsReporter(children[i].typ) }

  /** The last reporter, normalised; none or one. */
  function NormalLast(children: seq<Block>): Option<seq<Block>>
    decreases children, 0
  {
    if children == [] then Some([])
    else if AnyReporter(children[1..]) then NormalLast(children[1..])
    else if IsReporter(children[0].typ) then
      var n := Normal(children[0]);
      if n.None? then None else Some([n.value])
    else Some([])
  }

  /** The steps in order, normalised; a reporter among them cannot be connected. */
  function NormalSteps(children: seq<Block>, hasValue: bool): Option<seq<Block>>
    decreases children, 0
  {
    if children == [] then Some([])
    else
      var rest := NormalSteps(children[1..], hasValue);
      if IsReporter(children[0].typ) then (if hasValue then rest else None)
      else
        var n := Normal(children[0]);
        if n.None? || rest.None? then None else Some([n.value] + rest.value)
  }

  /** What reading back gives: a reporter first, then the steps, where the block has inputs for them. */
  function Normal(b: Block): Option<Block>
    decreases b, 1
  {
    if BlockSpecOf(b.typ).None? then None
    else
      var hasValue := HasInput(b.typ, ValueInput);
      var value := if hasValue then NormalLast(b.children) else Some([]);
      var steps := if HasInput(b.typ, StatementInput) then NormalSteps(b.children, hasValue) else Some([]);
      if value.None? || steps.None? then None
      else Some(Block(b.id, b.typ, NormalFields(b), value.value + steps.value, b.disabled, b.comment))
  }

  // ---------------------------------------------------------------- rows

  /** Fields come before inputs, and the inputs are a body, or a condition and a body, or none. */
  lemma SpecShape(t: BlockType) returns (data: seq<FieldSpec>, inputs: seq<FieldSpec>)
    ensures SpecFields(t) == data + inputs
    ensures forall i :: 0 <= i < |data| ==> !IsInput(data[i].kind)
    ensures inputs == [] || inputs == [BODY] || inputs == [FieldSpec(Condition, ValueInput, Undefined), BODY]
    ensures InputName(t, StatementInput) == if inputs == [] then None else Some(Body)
    ensures InputName(t, ValueInput) == if |inputs| == 2 then Some(Condition) else None
  {
    hide SpecFields, InputName;
    InputNames(t);
    StatementFields(t);
    ValueFields(t);
    var fields := SpecFields(t);
    var k := if t.If? then 2 else if fields != [] && fields[|fields| - 1] == BODY then 1 else 0;
    data, inputs := fields[..|fields| - k], fields[|fields| - k..];
    assert fields == data + inputs;
    forall i | 0 <= i < |data| ensures !IsInput(data[i].kind) {
      assert data[i] == fields[i] && fields[i] in fields;
    }
    if k == 1 { assert inputs == [BODY]; }
    if k == 2 { assert inputs == [FieldSpec(Condition, ValueInput, Undefined), BODY]; }
  }

  lemma InputNames(t: BlockType)
    ensures InputName(t, StatementInput) ==
            if SpecFields(t) != [] && SpecFields(t)[|SpecFields(t)| - 1] == BODY then Some(Body) else None
    ensures InputName(t, ValueInput) == if t.If? then Some(Condition) else None
  {
    StatementFields(t);
    ValueFields(t);
    hide SpecFields;
    var fields := SpecFields(t);
    var statement, value := FirstOfKind(fields, StatementInput), FirstOfKind(fields, ValueInput);
    if fields != [] && fields[|fields| - 1] == BODY { assert fields[|fields| - 1].kind == StatementInput; }
    if t.If? { assert fields[0].kind == ValueInput; }
  }

  lemma StatementFields(t: BlockType)
    ensures forall i :: 0 <= i < |SpecFields(t)| && SpecFields(t)[i].kind.StatementInput? ==>
              i == |SpecFields(t)| - 1 && SpecFields(t)[i] == BODY
  {
  }

  lemma ValueFields(t: BlockType)
    ensures forall i :: 0 <= i < |SpecFields(t)| && SpecFields(t)[i].kind.ValueInput? ==> t.If?
    ensures t.If? ==> SpecFields(t) == [FieldSpec(Condition, ValueInput, Undefined), BODY]
  {
  }

  lemma NamesDistinct(t: BlockType)
    ensures forall i, j :: 0 <= i < j < |SpecFields(t)| ==> SpecFields(t)[i].name != SpecFields(t)[j].name
  {
  }

  lemma {:induction false} LoadRowsAppend(s: State, a: seq<FieldSpec>, b: seq<FieldSpec>)
    ensures LoadRows(s, a + b) ==
            if LoadRows(s, a).None? || LoadRows(s, b).None? then None
               else Some(LoadRows(s, a).value + LoadRows(s, b).value)
  {
    hide LoadRow;
    if a == [] {
      assert a + b == b;
      if LoadRows(s, b).Some? { assert [] + LoadRows(s, b).value == LoadRows(s, b).value; }
    } else {
      assert (a + b)[1..] == a[1..] + b;
      LoadRowsAppend(s, a[1..], b);
      var first := LoadRow(s, a[0]);
      if first.Some? && LoadRows(s, a[1..]).Some? && LoadRows(s, b).Some? {
        assert [first.value] + (LoadRows(s, a[1..]).value + LoadRows(s, b).value) ==
               ([first.value] + LoadRows(s, a[1..]).value) + LoadRows(s, b).value;
      }
    }
  }

  function DataRow(s: State, f: FieldSpec): LiveInput {
    FieldRow(f.name, if f.name in s.fields then s.fields[f.name] else EditorDefault(f))
  }

  lemma {:induction false} DataRows(s: State, data: seq<FieldSpec>)
    requires forall i :: 0 <= i < |data| ==> !IsInput(data[i].kind)
    ensures LoadRows(s, data).Some? && |LoadRows(s, data).value| == |data|
    ensures forall i :: 0 <= i < |data| ==> LoadRows(s, data).value[i] == DataRow(s, data[i])
  {
    if data != [] { DataRows(s, data[1..]); }
  }

  lemma {:induction false} FieldRowsNoNodes(rows: seq<LiveInput>)
    requires forall i :: 0 <= i < |rows| ==> rows[i].FieldRow?
    ensures SlotNodes(rows) == []
  {
    if rows != [] { FieldRowsNoNodes(rows[1..]); }
  }

  lemma {:induction false} SlotNodesAppend(a: seq<LiveInput>, b: seq<LiveInput>)
    ensures SlotNodes(a + b) == SlotNodes(a) + SlotNodes(b)
  {
    hide InputNodes;
    if a == [] {
      assert a + b == b;
    } else {
      assert (a + b)[1..] == a[1..] + b;
      SlotNodesAppend(a[1..], b);
    }
  }

  /** The fields read from rows with distinct names. */
  lemma {:induction false} RowFieldsAt(rows: seq<LiveInput>)
    requires forall i, j :: 0 <= i < j < |rows| ==> rows[i].name != rows[j].name
    ensures forall i :: 0 <= i < |rows| && rows[i].FieldRow? ==>
              rows[i].name in RowFields(rows) && RowFields(rows)[rows[i].name] == ReadValue(rows[i].value)
    ensures forall n :: n in RowFields(rows) ==> exists i :: 0 <= i < |rows| && rows[i].FieldRow? && rows[i].name == n
  {
    if rows != [] {
      var k := |rows| - 1;
      RowFieldsAt(rows[..k]);
      forall n | n in RowFields(rows) ensures exists i :: 0 <= i < |rows| && rows[i].FieldRow? && rows[i].name == n {
        if n in RowFields(rows[..k]) {
          var i :| 0 <= i < k && rows[..k][i].FieldRow? && rows[..k][i].name == n;
          assert rows[i] == rows[..k][i];
        } else {
          assert rows[k].FieldRow?;
        }
      }
      forall i | 0 <= i < |rows| && rows[i].FieldRow?
        ensures rows[i].name in RowFields(rows) && RowFields(rows)[rows[i].name] == ReadValue(rows[i].value)
      {
        if i < k { assert rows[..k][i] == rows[i]; }
      }
    }
  }

  lemma {:induction false} FindDistinct(fields: seq<FieldSpec>, i: nat)
    requires i < |fields| && forall i, j :: 0 <= i < j < |fields| ==> fields[i].name != fields[j].name
    ensures FindField(fields, fields[i].name) == Some(fields[i])
  {
    if i > 0 {
      assert fields[1..][i - 1] == fields[i];
      assert forall k :: 0 <= k < |fields[1..]| ==> fields[1..][k] == fields[k + 1];
      FindDistinct(fields[1..], i - 1);
    }
  }

  /** Reading the rows of a loaded block gives exactly its declared fields. */
  lemma NormalField(b: Block, fields: seq<FieldSpec>, i: nat)
    requires fields == SpecFields(b.typ) && i < |fields| && !IsInput(fields[i].kind)
    requires forall i, j :: 0 <= i < j < |fields| ==> fields[i].name != fields[j].name
    ensures var n := fields[i].name;
            n in NormalFields(b) &&
            NormalFields(b)[n] == ReadValue(if n in b.fields then b.fields[n] else EditorDefault(fields[i]))
  {
    hide SpecFields, EditorDefault, FindField;
    FindDistinct(fields, i);
    assert fields[i].name in DataNames(fields);
  }

  lemma DeclaredField(b: Block, fields: seq<FieldSpec>, i: nat)
    requires fields == SpecFields(b.typ) && i < |fields| && !IsInput(fields[i].kind)
    ensures fields[i].name in DeclaredFields(b) <==> fields[i].name in b.fields
    ensures fields[i].name in b.fields ==> DeclaredFields(b)[fields[i].name] == b.fields[fields[i].name]
  {
    hide SpecFields;
    assert fields[i].name in DataNames(fields);
  }

  lemma RowsReadBack(b: Block, s: State, rows: seq<LiveInput>)
    requires s.typ == b.typ && s.fields == DeclaredFields(b) && LoadRows(s, SpecFields(b.typ)) == Some(rows)
    ensures RowFields(rows) == NormalFields(b)
  {
    hide LoadState, EditorDefault, SpecFields, LoadRows, RowFields, NormalFields, DeclaredFields, IsInput;
    var fields := SpecFields(b.typ);
    NamesDistinct(b.typ);
    RowNames(s, fields);
    RowFieldsAt(rows);
    NormalNames(b);
    forall n | n in NormalFields(b) ensures n in RowFields(rows) && RowFields(rows)[n] == NormalFields(b)[n] {
      var i :| 0 <= i < |fields| && !IsInput(fields[i].kind) && fields[i].name == n;
      NormalField(b, fields, i);
      DeclaredField(b, fields, i);
      assert rows[i] == DataRow(s, fields[i]) && rows[i].FieldRow?;
    }
    forall n | n in RowFields(rows) ensures n in NormalFields(b) {
      var i :| 0 <= i < |rows| && rows[i].FieldRow? && rows[i].name == n;
      NormalField(b, fields, i);
    }
  }

  lemma NormalNames(b: Block)
    ensures forall n :: n in NormalFields(b) <==>
              exists i :: 0 <= i < |SpecFields(b.typ)| && !IsInput(SpecFields(b.typ)[i].kind) &&
                SpecFields(b.typ)[i].name == n
  {
    hide SpecFields, FindField, EditorDefault, IsInput;
  }

  lemma {:induction false} RowNames(s: State, fields: seq<FieldSpec>)
    requires LoadRows(s, fields).Some?
    ensures var rows := LoadRows(s, fields).value;
            |rows| == |fields| &&
            forall i :: 0 <= i < |fields| ==>
              rows[i].name == fields[i].name && (rows[i].FieldRow? <==> !IsInput(fields[i].kind)) &&
              (rows[i].FieldRow? ==> rows[i] == DataRow(s, fields[i]))
  {
    hide LoadState;
    if fields != [] { RowNames(s, fields[1..]); }
  }

  // ---------------------------------------------------------------- loading what was written

  lemma {:induction false} RowsIgnoreNext(s: State, next: Option<State>, fields: seq<FieldSpec>)
    ensures LoadRows(s.(next := next), fields) == LoadRows(s, fields)
  {
    hide LoadState;
    if fields != [] { RowsIgnoreNext(s, next, fields[1..]); }
  }

  lemma ReporterState(children: seq<Block>)
    ensures AnyReporter(children) <==> ValueState(children).Some?
    ensures ValueState(children).Some? ==>
            IsReporter(ValueState(children).value.typ) && ValueState(children).value.next.None?
  {
    hide DeclaredFields, InputName;
    if children != [] {
      ReporterState(children[1..]);
      assert forall i :: 1 <= i < |children| ==> children[i] == children[1..][i - 1];
    }
  }

  /** The reporter of a value input loads as the normalised last reporter. */
  lemma {:induction false} ValueLoads(children: seq<Block>)
    ensures var state := ValueState(children);
            NormalLast(children) ==
            if state.None? then Some([])
            else if LoadState(state.value).None? then None
            else Some(ChainNodes(LoadState(state.value).value))
    decreases children, 2
  {
    hide Serialized, LoadState, Normal, Node, BlockSpecOf;
    if children != [] {
      ReporterState(children[1..]);
      if AnyReporter(children[1..]) {
        ValueLoads(children[1..]);
      } else if IsReporter(children[0].typ) {
        ReadBackIsNormal(children[0]);
        SerializedTop(children[0]);
        var live := LoadState(Serialized(children[0]));
        if live.Some? {
          LoadedNext(Serialized(children[0]));
          ChainStep(live.value);
          assert [Node(live.value)] + [] == [Node(live.value)];
        }
      }
    }
  }

  lemma SerializedTop(b: Block)
    ensures Serialized(b).typ == b.typ && Serialized(b).next == None && Serialized(b).id == b.id
  {
  }

  lemma LoadedNext(s: State)
    requires s.next.None? && LoadState(s).Some?
    ensures LoadState(s).value.next.None?
  {
  }

  /** The chain of a statement input loads as the normalised steps. */
  lemma {:induction false} ChainLoads(children: seq<Block>, hasValue: bool)
    ensures var state := ChainState(children, hasValue);
            NormalSteps(children, hasValue) ==
            if state.None? then Some([])
            else if IsReporter(state.value.typ) || LoadState(state.value).None? then None
            else Some(ChainNodes(LoadState(state.value).value))
    decreases children, 2
  {
    hide Serialized, LoadState, Normal, Node, BlockSpecOf;
    if children != [] {
      ChainLoads(children[1..], hasValue);
      var b, rest := children[0], ChainState(children[1..], hasValue);
      if !IsReporter(b.typ) {
        ReadBackIsNormal(b);
        SerializedTop(b);
        ChainHeadLoads(Serialized(b), rest);
      } else {
        SerializedTop(b);
      }
    }
  }

  lemma ChainHeadLoads(s: State, rest: Option<State>)
    requires s.next.None? && !IsReporter(s.typ)
    ensures var all := LoadState(s.(next := rest));
            if LoadState(s).None? || (rest.Some? && (IsReporter(rest.value.typ) || LoadState(rest.value).None?)) then
               all.None?
            else
              all.Some? &&
              ChainNodes(all.value) ==
              [Node(LoadState(s).value)] + (if rest.Some? then ChainNodes(LoadState(rest.value).value) else [])
  {
    hide LoadRows, BlockSpecOf, RowFields, SlotNodes;
    RowsIgnoreNext(s, rest, SpecFields(s.typ));
  }

  lemma InputRow(s: State, f: FieldSpec)
    requires IsInput(f.kind)
    ensures LoadRows(s, [f]) == if LoadRow(s, f).None? then None else Some([LoadRow(s, f).value])
  {
    hide LoadRow;
    assert [f][1..] == [];
    assert LoadRows(s, []) == Some([]);
    if LoadRow(s, f).Some? { assert [LoadRow(s, f).value] + [] == [LoadRow(s, f).value]; }
  }

  /** The nodes one input of a written block reads back as. */
  lemma StatementRow(b: Block)
    requires InputName(b.typ, StatementInput) == Some(Body)
    ensures var row := LoadRow(Serialized(b), BODY);
            NormalSteps(b.children, HasInput(b.typ, ValueInput)) ==
            if row.None? then None else Some(InputNodes(row.value))
    decreases b, -1
  {
    hide LoadState, Node, NormalSteps, DeclaredFields, ChainNodes, ChainState, ValueState;
    SerializedParts(b);
    InputNames(b.typ);
    ChainLoads(b.children, HasInput(b.typ, ValueInput));
  }

  lemma ConditionRow(b: Block)
    requires InputName(b.typ, ValueInput) == Some(Condition)
    ensures var row := LoadRow(Serialized(b), FieldSpec(Condition, ValueInput, Undefined));
            NormalLast(b.children) == if row.None? then None else Some(InputNodes(row.value))
    decreases b, -1
  {
    hide LoadState, Node, NormalLast, DeclaredFields, ChainNodes, ChainState, ValueState;
    SerializedParts(b);
    InputNames(b.typ);
    ValueLoads(b.children);
    ReporterState(b.children);
  }

  lemma SlotOne(row: LiveInput)
    ensures SlotNodes([row]) == InputNodes(row)
  {
    assert [row][1..] == [];
    assert SlotNodes([]) == [];
    assert InputNodes(row) + [] == InputNodes(row);
  }

  /** The rows of a written block: they load exactly when the normaliser is defined, with its children. */
  lemma {:induction false} RowsLoad(b: Block)
    requires BlockSpecOf(b.typ).Some?
    ensures var rows := LoadRows(Serialized(b), SpecFields(b.typ));
            (rows.Some? <==> Normal(b).Some?) && (rows.Some? ==> SlotNodes(rows.value) == Normal(b).value.children)
    decreases b, 0
  {
    hide Serialized, LoadRow, NormalSteps, NormalLast, NormalFields, InputNodes, LoadState, InputName, BlockSpecOf;
    var s := Serialized(b);
    var data, inputs := SpecShape(b.typ);
    LoadRowsAppend(s, data, inputs);
    DataRows(s, data);
    var dataRows := LoadRows(s, data).value;
    FieldRowsNoNodes(dataRows);
    if inputs == [] {
      assert LoadRows(s, []) == Some([]);
      SlotNodesAppend(dataRows, []);
      assert SlotNodes([]) == [];
    } else {
      StatementRow(b);
      InputRow(s, BODY);
      var row := LoadRow(s, BODY);
      if inputs == [BODY] {
        if row.Some? {
          SlotNodesAppend(dataRows, [row.value]);
          SlotOne(row.value);
        }
      } else {
        var condition := FieldSpec(Condition, ValueInput, Undefined);
        ConditionRow(b);
        InputRow(s, condition);
        assert inputs == [condition] + [BODY];
        LoadRowsAppend(s, [condition], [BODY]);
        var first := LoadRow(s, condition);
        if row.Some? && first.Some? {
          SlotNodesAppend([first.value], [row.value]);
          SlotNodesAppend(dataRows, [first.value] + [row.value]);
          SlotOne(first.value);
          SlotOne(row.value);
        }
      }
    }
  }

  /** Writing and reading back, whatever the tree, is the normaliser. */
  lemma {:induction false} ReadBackIsNormal(b: Block)
    ensures Reread(b) == Normal(b)
    decreases b, 1
  {
    hide LoadRows, NormalFields, DeclaredFields, SpecFields, InputName, NormalLast, NormalSteps, ValueState, ChainState;
    SerializedParts(b);
    if BlockSpecOf(b.typ).Some? {
      RowsLoad(b);
      var s := Serialized(b);
      var rows := LoadRows(s, SpecFields(b.typ));
      if rows.Some? { RowsReadBack(b, s, rows.value); }
    }
  }

  // ---------------------------------------------------------------- well-formed trees

  predicate WellFormedSteps(children: seq<Block>)
    decreases children, 0
  {
    children == [] || (!IsReporter(children[0].typ) && WellFormed(children[0]) && WellFormedSteps(children[1..]))
  }

  predicate ReporterFirst(b: Block) {
    HasInput(b.typ, ValueInput) && b.children != [] && IsReporter(b.children[0].typ)
  }

  /**
   * A catalog block with exactly its declared fields, at most one reporter and that first where there is a value input,
   * and steps only where there is a statement input.
   */
  predicate WellFormed(b: Block)
    decreases b, 1
  {
    && BlockSpecOf(b.typ).Some?
    && b.fields.Keys == DataNames(SpecFields(b.typ))
    && (forall n :: n in b.fields ==> b.fields[n] != Null)
    && (ReporterFirst(b) ==> WellFormed(b.children[0]))
    && WellFormedSteps(if ReporterFirst(b) then b.children[1..] else b.children)
    && (!HasInput(b.typ, StatementInput) ==> b.children == [] || (ReporterFirst(b) && |b.children| == 1))
  }

  lemma {:induction false} StepsHaveNoReporter(steps: seq<Block>)
    requires WellFormedSteps(steps)
    ensures !AnyReporter(steps)
  {
    hide WellFormed;
    if steps != [] {
      StepsHaveNoReporter(steps[1..]);
      assert forall i :: 1 <= i < |steps| ==> steps[i] == steps[1..][i - 1];
    }
  }

  lemma {:induction false} NormalOfSteps(steps: seq<Block>, hasValue: bool)
    requires WellFormedSteps(steps)
    ensures NormalSteps(steps, hasValue) == Some(steps)
    ensures NormalLast(steps) == Some([])
    decreases steps, 0
  {
    hide WellFormed, Normal;
    StepsHaveNoReporter(steps);
    if steps != [] {
      StepsHaveNoReporter(steps[1..]);
      WellFormedFixed(steps[0]);
      NormalOfSteps(steps[1..], hasValue);
      assert steps == [steps[0]] + steps[1..];
    }
  }

  lemma NormalFieldsFixed(b: Block)
    requires b.fields.Keys == DataNames(SpecFields(b.typ)) && forall n :: n in b.fields ==> b.fields[n] != Null
    ensures NormalFields(b) == b.fields
  {
    hide SpecFields;
  }

  lemma ReporterThenSteps(reporter: Block, steps: seq<Block>)
    requires IsReporter(reporter.typ) && WellFormedSteps(steps) && Normal(reporter) == Some(reporter)
    requires NormalSteps(steps, true) == Some(steps)
    ensures NormalLast([reporter] + steps) == Some([reporter]) && NormalSteps([reporter] + steps, true) == Some(steps)
  {
    hide Normal, WellFormed;
    StepsHaveNoReporter(steps);
    assert ([reporter] + steps)[1..] == steps;
  }

  lemma PlainFixed(b: Block)
    requires BlockSpecOf(b.typ).Some? && NormalFields(b) == b.fields
    requires NormalLast(b.children) == Some([]) && NormalSteps(b.children, HasInput(b.typ, ValueInput)) ==
             Some(b.children)
    requires !HasInput(b.typ, StatementInput) ==> b.children == []
    ensures Normal(b) == Some(b)
  {
    hide NormalFields, HasInput, BlockSpecOf, NormalLast, NormalSteps;
    assert [] + b.children == b.children;
  }

  lemma ReporterFixed(b: Block, steps: seq<Block>)
    requires BlockSpecOf(b.typ).Some? && NormalFields(b) == b.fields && HasInput(b.typ, ValueInput)
    requires b.children != [] && b.children == [b.children[0]] + steps
    requires NormalLast(b.children) == Some([b.children[0]]) && NormalSteps(b.children, true) == Some(steps)
    requires !HasInput(b.typ, StatementInput) ==> steps == []
    ensures Normal(b) == Some(b)
  {
    hide NormalFields, HasInput, BlockSpecOf, NormalLast, NormalSteps;
    assert [b.children[0]] + [] == [b.children[0]];
  }

  /** Reading back what was written is the identity on well-formed trees. */
  lemma {:induction false} WellFormedFixed(b: Block)
    requires WellFormed(b)
    ensures Normal(b) == Some(b)
    decreases b, 1
  {
    hide NormalFields, SpecFields, HasInput, BlockSpecOf, WellFormedSteps, NormalLast, NormalSteps, DataNames, Normal;
    NormalFieldsFixed(b);
    var hasValue := HasInput(b.typ, ValueInput);
    if ReporterFirst(b) {
      var reporter, steps := b.children[0], b.children[1..];
      WellFormedFixed(reporter);
      NormalOfSteps(steps, hasValue);
      ReporterThenSteps(reporter, steps);
      assert b.children == [reporter] + steps;
      ReporterFixed(b, steps);
    } else {
      NormalOfSteps(b.children, hasValue);
      PlainFixed(b);
    }
  }

  lemma {:induction false} StepsNormalised(children: seq<Block>, hasValue: bool)
    requires NormalSteps(children, hasValue).Some?
    ensures WellFormedSteps(NormalSteps(children, hasValue).value)
    decreases children, 0
  {
    hide WellFormed, Normal;
    if children != [] {
      StepsNormalised(children[1..], hasValue);
      if !IsReporter(children[0].typ) {
        NormalisedWellFormed(children[0]);
        var steps := NormalSteps(children, hasValue).value;
        assert steps[1..] == NormalSteps(children[1..], hasValue).value;
      }
    }
  }

  lemma {:induction false} LastNormalised(children: seq<Block>)
    requires NormalLast(children).Some?
    ensures |NormalLast(children).value| <= 1
    ensures forall n :: n in NormalLast(children).value ==> WellFormed(n) && IsReporter(n.typ)
    decreases children, 0
  {
    hide WellFormed, Normal;
    if children != [] {
      if AnyReporter(children[1..]) {
        LastNormalised(children[1..]);
      } else if IsReporter(children[0].typ) {
        NormalisedWellFormed(children[0]);
      }
    }
  }

  lemma NormalFieldsDeclared(b: Block)
    ensures NormalFields(b).Keys == DataNames(SpecFields(b.typ))
    ensures forall n :: n in NormalFields(b) ==> NormalFields(b)[n] != Null
  {
    hide SpecFields;
  }

  /** Whatever is read back is well formed. */
  lemma {:induction false} NormalisedWellFormed(b: Block)
    requires Normal(b).Some?
    ensures WellFormed(Normal(b).value) && Normal(b).value.typ == b.typ
    decreases b, 1
  {
    hide NormalFields, SpecFields, HasInput, BlockSpecOf, NormalSteps, NormalLast;
    var hasValue := HasInput(b.typ, ValueInput);
    NormalFieldsDeclared(b);
    var value := if hasValue then NormalLast(b.children).value else [];
    var steps := if HasInput(b.typ, StatementInput) then NormalSteps(b.children, hasValue).value else [];
    if hasValue { LastNormalised(b.children); }
    if HasInput(b.typ, StatementInput) { StepsNormalised(b.children, hasValue); }
    var n := Normal(b).value;
    assert n.children == value + steps;
    if value == [] {
      assert n.children == steps;
      StepsHaveNoReporter(steps);
    } else {
      assert value[0] in value;
      assert n.children[0] == value[0] && n.children[1..] == steps;
    }
  }

  // ---------------------------------------------------------------- the whole project

  predicate AllWellFormed(blocks: seq<Block>) { forall i :: 0 <= i < |blocks| ==> WellFormed(blocks[i]) }

  function RereadAll(blocks: seq<Block>): Option<seq<Block>> {
    if blocks == [] then Some([])
    else
      var first, rest := Reread(blocks[0]), RereadAll(blocks[1..]);
      if first.None? || rest.None? then None else Some([first.value] + rest.value)
  }

  /** A project's blocks, opened on an empty canvas and read from it. */
  function ReadBackAll(blocks: seq<Block>, draw: Fresh): Option<seq<Block>> {
    var read := RereadAll(blocks);
    if read.None? then None else Some(CreateAll(read.value, {}, draw).0)
  }

  function ReadBack(b: Block, draw: Fresh): Option<Block> {
    var read := Reread(b);
    if read.None? then None else Some(Create(read.value, {}, draw).0)
  }

  lemma {:induction false} StepsCreated(steps: seq<Block>, taken: set<string>, draw: Fresh)
    ensures WellFormedSteps(CreateAll(steps, taken, draw).0) <==> WellFormedSteps(steps)
    decreases steps, 0
  {
    hide WellFormed;
    if steps != [] {
      var first := Create(steps[0], taken, draw);
      var rest := CreateAll(steps[1..], first.1, draw);
      CreatedWellFormed(steps[0], taken, draw);
      StepsCreated(steps[1..], first.1, draw);
      assert ([first.0] + rest.0)[1..] == rest.0;
    }
  }

  lemma {:induction false} CreatedLength(blocks: seq<Block>, taken: set<string>, draw: Fresh)
    ensures |CreateAll(blocks, taken, draw).0| == |blocks|
  {
    if blocks != [] { CreatedLength(blocks[1..], Create(blocks[0], taken, draw).1, draw); }
  }

  lemma CreatedHead(children: seq<Block>, taken: set<string>, draw: Fresh)
    requires children != []
    ensures var first := Create(children[0], taken, draw); var created := CreateAll(children, taken, draw).0;
            created != [] && created[0] == first.0 && created[1..] == CreateAll(children[1..], first.1, draw).0
  {
    hide Create;
  }

  /** Ids play no part in being well formed. */
  lemma {:induction false} CreatedWellFormed(b: Block, taken: set<string>, draw: Fresh)
    ensures WellFormed(Create(b, taken, draw).0) <==> WellFormed(b)
    ensures Create(b, taken, draw).0.typ == b.typ
    decreases b, 1
  {
    hide SpecFields, HasInput, BlockSpecOf, WellFormedSteps, CreateAll, DataNames;
    var id := if b.id != "" && b.id !in taken then b.id else draw(taken);
    var now := taken + {id};
    CreatedLength(b.children, now, draw);
    StepsCreated(b.children, now, draw);
    if b.children != [] {
      var first := Create(b.children[0], now, draw);
      CreatedWellFormed(b.children[0], now, draw);
      StepsCreated(b.children[1..], first.1, draw);
      CreatedHead(b.children, now, draw);
    }
  }

  lemma {:induction false} AllCreated(blocks: seq<Block>, taken: set<string>, draw: Fresh)
    ensures AllWellFormed(CreateAll(blocks, taken, draw).0) <==> AllWellFormed(blocks)
  {
    hide WellFormed, Create;
    if blocks != [] {
      var first := Create(blocks[0], taken, draw);
      var rest := CreateAll(blocks[1..], first.1, draw).0;
      CreatedWellFormed(blocks[0], taken, draw);
      AllCreated(blocks[1..], first.1, draw);
      AllCons(blocks[0], blocks[1..]);
      AllCons(first.0, rest);
      assert blocks == [blocks[0]] + blocks[1..];
    }
  }

  lemma AllCons(b: Block, rest: seq<Block>)
    ensures AllWellFormed([b] + rest) <==> WellFormed(b) && AllWellFormed(rest)
  {
    hide WellFormed;
    var all := [b] + rest;
    assert all[0] == b;
    assert forall i :: 0 <= i < |rest| ==> rest[i] == all[i + 1];
    assert forall i :: 0 < i < |all| ==> all[i] == rest[i - 1];
  }

  /** Reading back, ids aside, gives well-formed trees and is the identity exactly on them. */
  lemma {:induction false} RereadExact(blocks: seq<Block>)
    ensures RereadAll(blocks) == Some(blocks) <==> AllWellFormed(blocks)
    ensures RereadAll(blocks).Some? ==> AllWellFormed(RereadAll(blocks).value)
  {
    hide Reread, WellFormed, Normal;
    if blocks != [] {
      var b, rest := blocks[0], blocks[1..];
      ReadBackIsNormal(b);
      if WellFormed(b) { WellFormedFixed(b); }
      if Normal(b).Some? { NormalisedWellFormed(b); }
      RereadExact(rest);
      assert blocks == [b] + rest;
      AllCons(b, rest);
      if RereadAll(blocks).Some? {
        AllCons(Reread(b).value, RereadAll(rest).value);
        assert RereadAll(blocks).value[1..] == RereadAll(rest).value;
      }
    }
  }

  /**
   * Opening and saving a project leaves it, and so its generated file, alone exactly when every block is well formed
   * and no id is empty or occurs twice anywhere in it; and doing it again changes nothing, whatever ids the editor
   * would draw.
   */
  lemma ProjectRoundTrip(blocks: seq<Block>, draw: Fresh, later: Fresh)
    requires NewIds(draw)
    ensures ReadBackAll(blocks, draw) == Some(blocks) <==> AllWellFormed(blocks) && DistinctIds(blocks)
    ensures ReadBackAll(blocks, draw).Some? ==>
              ReadBackAll(ReadBackAll(blocks, draw).value, later) == ReadBackAll(blocks, draw)
  {
    hide RereadAll, AllWellFormed, CreateAll, Apart;
    RereadExact(blocks);
    if RereadAll(blocks).Some? {
      var read := RereadAll(blocks).value;
      var created := CreateAll(read, {}, draw).0;
      AllCreated(read, {}, draw);
      CreatedApart(read, {}, draw);
      CreateExact(blocks, {}, draw);
      RereadExact(created);
      ApartKept(created, {}, later);
    }
  }

  lemma OneBlock(b: Block, draw: Fresh)
    ensures ReadBackAll([b], draw) == if ReadBack(b, draw).None? then None else Some([ReadBack(b, draw).value])
    ensures AllWellFormed([b]) <==> WellFormed(b)
  {
    hide Reread, WellFormed, Create;
    assert [b][1..] == [] && RereadAll([]) == Some([]);
    assert [b][0] == b;
    if Reread(b).Some? {
      var read := Reread(b).value;
      assert [read] + [] == [read] && [read][1..] == [];
      var first := Create(read, {}, draw);
      assert CreateAll([], first.1, draw).0 == [];
      assert [first.0] + [] == [first.0];
    }
  }

  /** The same for one block: the identity exactly on well-formed trees with distinct ids, and idempotent on all. */
  lemma RoundTripExact(b: Block, draw: Fresh, later: Fresh)
    requires NewIds(draw)
    ensures ReadBack(b, draw) == Some(b) <==> WellFormed(b) && DistinctIds([b])
    ensures ReadBack(b, draw).Some? ==> ReadBack(ReadBack(b, draw).value, later) == ReadBack(b, draw)
  {
    hide ReadBack, ReadBackAll, WellFormed, AllWellFormed, DistinctIds;
    ProjectRoundTrip([b], draw, later);
    OneBlock(b, draw);
    assert [b][0] == b;
    if ReadBack(b, draw).Some? {
      var back := ReadBack(b, draw).value;
      OneBlock(back, later);
      assert ReadBackAll([b], draw) == Some([back]);
      assert [back][0] == back;
      if ReadBack(back, later).Some? { assert [ReadBack(back, later).value][0] == ReadBack(back, later).value; }
    }
  }
}

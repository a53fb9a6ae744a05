/** Stored blocks to the editor's linked form and back. */
module Serialize {
  import opened Wrappers
  import opened Values
  import opened Catalog
  import opened Generate

  // ---------------------------------------------------------------- the editor's load format

  /** A block state: inputs by name, and the block connected below. Absent parts are empty. */
  datatype State = State(
    typ: BlockType,
    id: string,
    enabled: bool,
    fields: map<FieldName, Value>,
    comment: string,
    inputs: map<FieldName, State>,
    next: Option<State>)

  function DataNames(fields: seq<FieldSpec>): (names: set<FieldName>)
    ensures forall n :: n in names <==> exists i :: 0 <= i < |fields| && !IsInput(fields[i].kind) && fields[i].name == n
  {
    set i | 0 <= i < |fields| && !IsInput(fields[i].kind) :: fields[i].name
  }

  function SpecFields(t: BlockType): seq<FieldSpec> {
    if BlockSpecOf(t).Some? then BlockSpecOf(t).value.fields else []
  }

  function InputName(t: BlockType, kind: FieldKind): Option<FieldName> {
    var found := FirstOfKind(SpecFields(t), kind);
    if found.Some? then Some(found.value.name) else None
  }

  function DeclaredFields(node: Block): map<FieldName, Value> {
    map n | n in node.fields && n in DataNames(SpecFields(node.typ)) :: node.fields[n]
  }

  /** The child routed to the value input: the last reporter. */
  function ValueState(children: seq<Block>): Option<State>
    decreases children, 0
  {
    if children == [] then None
    else
      var rest := ValueState(children[1..]);
      if rest.Some? then rest
      else if IsReporter(children[0].typ) then Some(Serialized(children[0]))
      else None
  }

  /** The other children, connected one below the other; reporters stay among them when there is no value input. */
  function ChainState(children: seq<Block>, hasValue: bool): Option<State>
    decreases children, 0
  {
    if children == [] then None
    else
      var rest := ChainState(children[1..], hasValue);
      if hasValue && IsReporter(children[0].typ) then rest
      else Some(Serialized(children[0]).(next := rest))
  }

  function Serialized(node: Block): State
    decreases node, 1
  {
    var value, statement := InputName(node.typ, ValueInput), InputName(node.typ, StatementInput);
    var reporter := ValueState(node.children);
    var chain := ChainState(node.children, value.Some?);
    var inputs := if value.Some? && reporter.Some? then map[value.value := reporter.value] else map[];
    State(node.typ, node.id, !node.disabled, DeclaredFields(node), node.comment,
          if statement.Some? && chain.Some? then inputs[statement.value := chain.value] else inputs, None)
  }

  /** The statements among the children: what the loop over the children leaves for the statement input. */
  function Steps(children: seq<Block>, hasValue: bool): seq<Block> {
    if children == [] then []
    else
      var rest := Steps(children[1..], hasValue);
      if hasValue && IsReporter(children[0].typ) then rest else [children[0]] + rest
  }

  lemma {:induction false} StepsSnoc(children: seq<Block>, last: Block, hasValue: bool)
    ensures Steps(children + [last], hasValue) ==
            Steps(children, hasValue) + (if hasValue && IsReporter(last.typ) then [] else [last])
  {
    if children == [] {
      assert [last][1..] == [];
    } else {
      assert (children + [last])[1..] == children[1..] + [last];
      StepsSnoc(children[1..], last, hasValue);
    }
  }

  lemma {:induction false} ValueStateSnoc(children: seq<Block>, last: Block)
    ensures ValueState(children + [last]) == if IsReporter(last.typ) then Some(Serialized(last))
            else ValueState(children)
  {
    hide Serialized;
    if children == [] {
      assert [last][1..] == [];
    } else {
      assert (children + [last])[1..] == children[1..] + [last];
      ValueStateSnoc(children[1..], last);
    }
  }

  lemma {:induction false} ChainOfSteps(children: seq<Block>, hasValue: bool)
    ensures ChainState(children, hasValue) == ChainState(Steps(children, hasValue), false)
  {
    hide Serialized;
    if children != [] {
      ChainOfSteps(children[1..], hasValue);
      var steps := Steps(children, hasValue);
      if !(hasValue && IsReporter(children[0].typ)) { assert steps[1..] == Steps(children[1..], hasValue); }
    }
  }

  lemma NoChildren(hasValue: bool)
    ensures Steps([], hasValue) == [] && ValueState([]) == None && ChainState([], false) == None
  {
  }

  /** A state and those connected below it, each without what is below. */
  function Walk(state: State): seq<State> {
    [state.(next := None)] + (if state.next.Some? then Walk(state.next.value) else [])
  }

  /** Along the chain stand the steps, one state each, in their order. */
  lemma {:induction false} ChainWalk(children: seq<Block>, hasValue: bool)
    ensures var chain, steps := ChainState(children, hasValue), Steps(children, hasValue);
            && (chain.Some? <==> steps != [])
            && (chain.Some? ==>
                  |Walk(chain.value)| == |steps| &&
                  forall k :: 0 <= k < |steps| ==> Walk(chain.value)[k] == Serialized(steps[k]))
  {
    hide Serialized;
    if children != [] {
      ChainWalk(children[1..], hasValue);
      StateNext(children[0]);
    }
  }

  /** A block is written with its type, id, switch and comment, and with its values of the declared fields. */
  lemma WrittenExactly(node: Block)
    ensures var state := Serialized(node);
            && state.typ == node.typ && state.id == node.id && state.comment == node.comment && state.next == None
            && (state.enabled <==> !node.disabled)
            && (forall n :: n in state.fields <==>
                  n in node.fields && BlockSpecOf(node.typ).Some? &&
                  exists f :: f in BlockSpecOf(node.typ).value.fields && f.name == n && !f.kind.StatementInput? &&
                              !f.kind.ValueInput?)
            && (forall n :: n in state.fields ==> state.fields[n] == node.fields[n])
  {
    var fields := SpecFields(node.typ);
    assert Serialized(node).fields == DeclaredFields(node);
    forall n ensures n in DataNames(fields) <==> exists f :: f in fields && f.name == n && !IsInput(f.kind) {
      if f :| f in fields && f.name == n && !IsInput(f.kind) {
        var i :| 0 <= i < |fields| && fields[i] == f;
      }
    }
  }

  method ToSerialized(node: Block) returns (state: State)
    ensures state == Serialized(node)
    decreases node, 1, 0
  {
    hide Serialized, InputName, DeclaredFields, ChainState, Steps, ValueState, IsReporter;
    var value, statement := InputName(node.typ, ValueInput), InputName(node.typ, StatementInput);
    NoChildren(value.Some?);
    var inputs: map<FieldName, State> := map[];
    var statements: seq<Block> := [];
    for i := 0 to |node.children|
      invariant statements == Steps(node.children[..i], value.Some?)
      invariant forall s :: s in statements ==> s in node.children
      invariant inputs == if value.Some? && ValueState(node.children[..i]).Some?
                          then map[value.value := ValueState(node.children[..i]).value] else map[]
    {
      var child := node.children[i];
      assert node.children[..i + 1] == node.children[..i] + [child];
      StepsSnoc(node.children[..i], child, value.Some?);
      ValueStateSnoc(node.children[..i], child);
      if IsReporter(child.typ) && value.Some? {
        var reporter := ToSerialized(child);
        inputs := inputs[value.value := reporter];
      } else {
        statements := statements + [child];
      }
    }
    assert node.children[..|node.children|] == node.children;
    ChainOfSteps(node.children, value.Some?);
    if statement.Some? && statements != [] {
      var chain := Chain(statements, node);
      inputs := inputs[statement.value := chain];
    } else {
    }
    state := State(node.typ, node.id, !node.disabled, DeclaredFields(node), node.comment, inputs, None);
    SerializedParts(node);
  }

  lemma SerializedParts(node: Block)
    ensures var value, statement := InputName(node.typ, ValueInput), InputName(node.typ, StatementInput);
            var reporter, chain := ValueState(node.children), ChainState(node.children, value.Some?);
            var inputs := if value.Some? && reporter.Some? then map[value.value := reporter.value] else map[];
            Serialized(node) ==
            State(node.typ, node.id, !node.disabled, DeclaredFields(node), node.comment,
                  if statement.Some? && chain.Some? then inputs[statement.value := chain.value] else inputs, None)
  {
  }

  /** Statements stored side by side are connected one after another. */
  method Chain(nodes: seq<Block>, ghost parent: Block) returns (state: State)
    requires nodes != [] && forall n :: n in nodes ==> n in parent.children
    ensures Some(state) == ChainState(nodes, false)
    decreases parent, 0, |nodes|
  {
    hide Serialized;
    assert nodes[0] in nodes;
    state := ToSerialized(nodes[0]);
    if |nodes| > 1 {
      var rest := Chain(nodes[1..], parent);
      state := state.(next := Some(rest));
    } else {
      assert ChainState(nodes[1..], false) == None;
      StateNext(nodes[0]);
    }
  }

  lemma StateNext(node: Block)
    ensures Serialized(node).next == None
  {
  }

  // ---------------------------------------------------------------- the editor

  /** One input row of a block on the canvas. */
  datatype LiveInput =
    | FieldRow(name: FieldName, value: Value)
    | Slot(name: FieldName, target: Option<Live>)

  /** A block on the canvas, with its rows in the order the catalog declares them and the id it was loaded with. */
  datatype Live = Live(typ: BlockType, id: string, inputs: seq<LiveInput>, next: Option<Live>, enabled: bool,
      comment: string)

  /** What the editor puts in a field the state does not give. */
  function EditorDefault(f: FieldSpec): Value {
    if f.kind.NumberField? then (if f.default.Number? then f.default else Number(ZERO))
    else if f.default.Undefined? then Plain("")
    else f.default
  }

  /**
   * The editor's own loading: it knows only catalog types, gives every declared field a value, and connects only
   * statement blocks below one another and only reporters to value inputs. None where it throws.
   */
  function LoadState(s: State): Option<Live>
    decreases s, 1, 0
  {
    if BlockSpecOf(s.typ).None? then None
    else
      var rows := LoadRows(s, SpecFields(s.typ));
      var below := if s.next.None? || IsReporter(s.typ) || IsReporter(s.next.value.typ) then None
        else LoadState(s.next.value);
      if rows.None? || (s.next.Some? && below.None?) then None
      else Some(Live(s.typ, s.id, rows.value, below, s.enabled, s.comment))
  }

  function LoadRows(s: State, fields: seq<FieldSpec>): Option<seq<LiveInput>>
    decreases s, 0, |fields|
  {
    if fields == [] then Some([])
    else
      var first, rest := LoadRow(s, fields[0]), LoadRows(s, fields[1..]);
      if first.None? || rest.None? then None else Some([first.value] + rest.value)
  }

  function LoadRow(s: State, f: FieldSpec): Option<LiveInput>
    decreases s, 0, 0
  {
    if !IsInput(f.kind) then Some(FieldRow(f.name, if f.name in s.fields then s.fields[f.name] else EditorDefault(f)))
    else if f.name !in s.inputs then Some(Slot(f.name, None))
    else if f.kind.ValueInput? != IsReporter(s.inputs[f.name].typ) then None
    else
      var target := LoadState(s.inputs[f.name]);
      if target.None? then None else Some(Slot(f.name, target))
  }

  // ---------------------------------------------------------------- reading the canvas

  function ReadValue(v: Value): Value { if v.Null? then Undefined else v }

  function RowFields(inputs: seq<LiveInput>): map<FieldName, Value> {
    if inputs == [] then map[]
    else
      var init := RowFields(inputs[..|inputs| - 1]);
      var last := inputs[|inputs| - 1];
      if last.FieldRow? then init[last.name := ReadValue(last.value)] else init
  }

  function SlotNodes(inputs: seq<LiveInput>): seq<Block>
    decreases inputs, 3
  {
    if inputs == [] then [] else InputNodes(inputs[0]) + SlotNodes(inputs[1..])
  }

  function InputNodes(input: LiveInput): seq<Block>
    decreases input, 2
  {
    if input.Slot? && input.target.Some? then ChainNodes(input.target.value) else []
  }

  function ChainNodes(live: Live): seq<Block>
    decreases live, 1
  {
    [Node(live)] + (if live.next.Some? then ChainNodes(live.next.value) else [])
  }

  /** The stored form of a block on the canvas. */
  function Node(live: Live): Block
    decreases live, 0
  {
    Block(live.id, live.typ, RowFields(live.inputs), SlotNodes(live.inputs), !live.enabled, live.comment)
  }

  method ToNode(live: Live) returns (node: Block)
    ensures node == Node(live)
    decreases live, 0
  {
    hide ChainNodes;
    var fields: map<FieldName, Value> := map[];
    for i := 0 to |live.inputs|
      invariant fields == RowFields(live.inputs[..i])
    {
      assert live.inputs[..i + 1][..i] == live.inputs[..i];
      if live.inputs[i].FieldRow? {
        fields := fields[live.inputs[i].name := ReadValue(live.inputs[i].value)];
      }
    }
    assert live.inputs[..|live.inputs|] == live.inputs;
    var children: seq<Block> := [];
    for i := 0 to |live.inputs|
      invariant children + SlotNodes(live.inputs[i..]) == SlotNodes(live.inputs)
    {
      var nodes := ReadInput(live.inputs[i]);
      assert live.inputs[i..][1..] == live.inputs[i + 1..];
      assert children + (nodes + SlotNodes(live.inputs[i + 1..])) ==
             (children + nodes) + SlotNodes(live.inputs[i + 1..]);
      children := children + nodes;
    }
    node := Block(live.id, live.typ, fields, children, !live.enabled, live.comment);
  }

  /** The blocks connected to one input, walking the chain below the first. */
  method ReadInput(input: LiveInput) returns (nodes: seq<Block>)
    ensures nodes == InputNodes(input)
    decreases input, 1
  {
    hide ChainNodes;
    nodes := [];
    if input.FieldRow? { return; }
    var current := input.target;
    while current.Some?
      invariant current.Some? ==> current.value < input
      invariant InputNodes(input) == nodes + (if current.Some? then ChainNodes(current.value) else [])
      decreases current
    {
      var one := ToNode(current.value);
      ChainStep(current.value);
      var next := current.value.next;
      assert nodes + ([one] + (if next.Some? then ChainNodes(next.value) else [])) ==
             (nodes + [one]) + (if next.Some? then ChainNodes(next.value) else []);
      nodes := nodes + [one];
      current := next;
    }
  }

  lemma ChainStep(live: Live)
    ensures ChainNodes(live) == [Node(live)] + (if live.next.Some? then ChainNodes(live.next.value) else [])
  {
  }
}

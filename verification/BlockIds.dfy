/**
 * Block ids on a canvas: the editor creates a block before the blocks in its inputs and those before the block below
 * it, and gives it a new id when its own is empty or already taken.
 */
module BlockIds {
  import opened Catalog
  import opened Generate

  /** The editor's random ids: one that is not taken. */
  type Fresh = set<string> -> string

  ghost predicate NewIds(draw: Fresh) { forall taken :: draw(taken) !in taken && draw(taken) != "" }

  // ---------------------------------------------------------------- ids in the order of creation

  function Ids(blocks: seq<Block>): seq<string>
    decreases blocks, 0
  {
    if blocks == [] then [] else IdsOf(blocks[0]) + Ids(blocks[1..])
  }

  function IdsOf(b: Block): seq<string>
    decreases b, 1
  {
    [b.id] + Ids(b.children)
  }

  function IdSet(ids: seq<string>): set<string> { set id | id in ids }

  /** No id is empty and none occurs twice. */
  predicate DistinctIds(blocks: seq<Block>) { Apart(Ids(blocks), {}) }

  /** The ids are none of the taken ones, not empty and different from one another. */
  predicate Apart(ids: seq<string>, taken: set<string>) {
    && (forall i :: 0 <= i < |ids| ==> ids[i] != "" && ids[i] !in taken)
    && (forall i, j :: 0 <= i < j < |ids| ==> ids[i] != ids[j])
  }

  lemma ApartAppend(a: seq<string>, b: seq<string>, taken: set<string>)
    ensures Apart(a + b, taken) <==> Apart(a, taken) && Apart(b, taken + IdSet(a))
  {
    var s := a + b;
    assert forall i :: 0 <= i < |a| ==> s[i] == a[i];
    assert forall i :: 0 <= i < |b| ==> s[|a| + i] == b[i];
    if Apart(a, taken) && Apart(b, taken + IdSet(a)) {
      forall i, j | 0 <= i < j < |s| ensures s[i] != s[j] {
        if i < |a| && |a| <= j { assert a[i] in IdSet(a) && s[j] == b[j - |a|]; }
      }
      forall i | 0 <= i < |s| ensures s[i] != "" && s[i] !in taken {
        if |a| <= i { assert s[i] == b[i - |a|]; }
      }
    }
  }

  lemma IdSetAppend(a: seq<string>, b: seq<string>)
    ensures IdSet(a + b) == IdSet(a) + IdSet(b)
  {
  }

  // ---------------------------------------------------------------- what the editor does to them

  function CreateAll(blocks: seq<Block>, taken: set<string>, draw: Fresh): (r: (seq<Block>, set<string>))
    decreases blocks, 0
  {
    if blocks == [] then ([], taken)
    else
      var first := Create(blocks[0], taken, draw);
      var rest := CreateAll(blocks[1..], first.1, draw);
      ([first.0] + rest.0, rest.1)
  }

  function Create(b: Block, taken: set<string>, draw: Fresh): (r: (Block, set<string>))
    decreases b, 1
  {
    var id := if b.id != "" && b.id !in taken then b.id else draw(taken);
    var inner := CreateAll(b.children, taken + {id}, draw);
    (b.(id := id, children := inner.0), inner.1)
  }

  /** The created blocks have distinct ids, new to the canvas. */
  lemma {:induction false} CreatedApart(blocks: seq<Block>, taken: set<string>, draw: Fresh)
    requires NewIds(draw)
    ensures var r := CreateAll(blocks, taken, draw); Apart(Ids(r.0), taken) && r.1 == taken + IdSet(Ids(r.0))
    decreases blocks, 0
  {
    hide Create, Apart, NewIds, IdSet;
    if blocks == [] {
      NothingApart(taken);
    } else {
      var first := Create(blocks[0], taken, draw);
      var rest := CreateAll(blocks[1..], first.1, draw);
      CreatedOneApart(blocks[0], taken, draw);
      CreatedApart(blocks[1..], first.1, draw);
      assert ([first.0] + rest.0)[1..] == rest.0;
      ApartAppend(IdsOf(first.0), Ids(rest.0), taken);
      IdSetAppend(IdsOf(first.0), Ids(rest.0));
    }
  }

  lemma {:induction false} CreatedOneApart(b: Block, taken: set<string>, draw: Fresh)
    requires NewIds(draw)
    ensures var r := Create(b, taken, draw); Apart(IdsOf(r.0), taken) && r.1 == taken + IdSet(IdsOf(r.0))
    decreases b, 1
  {
    hide CreateAll, Apart, IdSet;
    var id := if b.id != "" && b.id !in taken then b.id else draw(taken);
    var inner := CreateAll(b.children, taken + {id}, draw);
    CreatedApart(b.children, taken + {id}, draw);
    OneApart(id, taken);
    ApartAppend([id], Ids(inner.0), taken);
    IdSetAppend([id], Ids(inner.0));
  }

  lemma NothingApart(taken: set<string>)
    ensures Apart([], taken) && taken == taken + IdSet([])
  {
  }

  lemma OneApart(id: string, taken: set<string>)
    ensures Apart([id], taken) <==> id != "" && id !in taken
    ensures IdSet([id]) == {id}
  {
    assert [id][0] == id;
  }

  /** Blocks with distinct ids, new to the canvas, keep them. */
  lemma {:induction false} ApartKept(blocks: seq<Block>, taken: set<string>, draw: Fresh)
    requires Apart(Ids(blocks), taken)
    ensures CreateAll(blocks, taken, draw) == (blocks, taken + IdSet(Ids(blocks)))
    decreases blocks, 0
  {
    hide Create, Apart, IdSet;
    if blocks == [] {
      NothingApart(taken);
    } else {
      ApartAppend(IdsOf(blocks[0]), Ids(blocks[1..]), taken);
      IdSetAppend(IdsOf(blocks[0]), Ids(blocks[1..]));
      OneKept(blocks[0], taken, draw);
      ApartKept(blocks[1..], taken + IdSet(IdsOf(blocks[0])), draw);
      assert taken + IdSet(IdsOf(blocks[0])) + IdSet(Ids(blocks[1..])) ==
             taken + (IdSet(IdsOf(blocks[0])) + IdSet(Ids(blocks[1..])));
      assert blocks == [blocks[0]] + blocks[1..];
    }
  }

  lemma {:induction false} OneKept(b: Block, taken: set<string>, draw: Fresh)
    requires Apart(IdsOf(b), taken)
    ensures Create(b, taken, draw) == (b, taken + IdSet(IdsOf(b)))
    decreases b, 1
  {
    hide CreateAll, Apart, IdSet;
    ApartAppend([b.id], Ids(b.children), taken);
    IdSetAppend([b.id], Ids(b.children));
    OneApart(b.id, taken);
    ApartKept(b.children, taken + {b.id}, draw);
    assert taken + {b.id} + IdSet(Ids(b.children)) == taken + ({b.id} + IdSet(Ids(b.children)));
  }

  /** Creating leaves blocks alone exactly when their ids are distinct and new to the canvas. */
  lemma CreateExact(blocks: seq<Block>, taken: set<string>, draw: Fresh)
    requires NewIds(draw)
    ensures CreateAll(blocks, taken, draw).0 == blocks <==> Apart(Ids(blocks), taken)
  {
    hide CreateAll, Apart;
    CreatedApart(blocks, taken, draw);
    if Apart(Ids(blocks), taken) { ApartKept(blocks, taken, draw); }
  }
}

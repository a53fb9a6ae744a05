/** Assigning devices to lesson roles: defaults for new roles, and reconciling a tutor's choices on every poll. */
module Roles {
  import opened Wrappers
  import opened Text

  datatype Binding = Binding(role: string, nodeId: string)

  datatype Requirement = Requirement(role: string, candidates: seq<string>)

  // ---------------------------------------------------------------- role families

  predicate IsLineTerminator(c: char) { c == '\n' || c == '\r' || c == '\U{2028}' || c == '\U{2029}' }

  predicate OneLine(s: string) { forall i :: 0 <= i < |s| ==> !IsLineTerminator(s[i]) }

  /** `[1-9][0-9]*` */
  predicate IsOrdinal(s: string) { s != "" && s[0] != '0' && AllDigits(s) }

  /** Where the text after the last underscore starts; 0 when there is none. */
  function AfterUnderscore(s: string): (i: nat)
    ensures i <= |s| && (i > 0 ==> s[i - 1] == '_') && forall k :: i <= k < |s| ==> s[k] != '_'
  {
    if s == "" then 0 else if s[|s| - 1] == '_' then |s| else AfterUnderscore(s[..|s| - 1])
  }

  /** The family of a numbered role, `/^(.*)_([1-9][0-9]*)$/`. */
  function Numbered(role: string): Option<string> {
    var i := AfterUnderscore(role);
    if i > 0 && IsOrdinal(role[i..]) && OneLine(role[..i - 1]) then Some(role[..i - 1]) else None
  }

  /** The pattern matches exactly the texts of its shape, and its first group is unique. */
  lemma NumberedExactly(role: string, family: string)
    ensures Numbered(role) == Some(family) <==>
            OneLine(family) && exists number :: IsOrdinal(number) && role == family + "_" + number
  {
    var i := AfterUnderscore(role);
    if Numbered(role) == Some(family) {
      assert role == family + "_" + role[i..];
    }
    if number :| IsOrdinal(number) && role == family + "_" + number && OneLine(family) {
      var n := |family|;
      assert role[n] == '_';
      forall k | n < k < |role| ensures role[k] != '_' { assert role[k] == number[k - n - 1]; }
      assert i == n + 1 && role[i..] == number && role[..n] == family;
    }
  }

  function RoleFamily(role: string): string {
    var family := Numbered(role);
    if family.Some? then family.value else role
  }

  /** A numbered role belongs to the family in front of its number, any other role to itself. */
  lemma FamilyExactly(role: string, family: string)
    ensures RoleFamily(role) == family <==>
            || (OneLine(family) && exists number :: IsOrdinal(number) && role == family + "_" + number)
            || (family == role &&
                  forall f, number :: OneLine(f) && IsOrdinal(number) ==> role != f + "_" + number)
  {
    hide Numbered, OneLine, IsOrdinal;
    forall f
      ensures Numbered(role) == Some(f) <==>
              OneLine(f) && exists number :: IsOrdinal(number) && role == f + "_" + number
    {
      NumberedExactly(role, f);
    }
  }

  // ---------------------------------------------------------------- what the defaults are

  /** The record of the bindings: the last one of a role counts. */
  function Bound(bindings: seq<Binding>): map<string, string> {
    if bindings == [] then map[]
    else Bound(bindings[..|bindings| - 1])[bindings[|bindings| - 1].role := bindings[|bindings| - 1].nodeId]
  }

  lemma {:induction false} BoundShape(bindings: seq<Binding>)
    ensures forall r :: r in Bound(bindings) <==> exists i :: 0 <= i < |bindings| && bindings[i].role == r
    ensures forall r :: r in Bound(bindings) ==> Binding(r, Bound(bindings)[r]) in bindings
  {
    if bindings != [] {
      var n := |bindings| - 1;
      BoundShape(bindings[..n]);
      assert bindings == bindings[..n] + [bindings[n]];
      forall r ensures r in Bound(bindings) <==> exists i :: 0 <= i < |bindings| && bindings[i].role == r {
        if i :| 0 <= i < |bindings| && bindings[i].role == r && i < n { assert bindings[..n][i].role == r; }
        if r in Bound(bindings[..n]) {
          var i :| 0 <= i < n && bindings[..n][i].role == r;
          assert bindings[i].role == r;
        }
      }
    }
  }

  lemma {:induction false} BoundAppend(a: seq<Binding>, b: seq<Binding>)
    ensures Bound(a + b) == Bound(a) + Bound(b)
  {
    if b == [] {
      assert a + b == a;
    } else {
      var n := |b| - 1;
      assert (a + b)[..|a + b| - 1] == a + b[..n] && (a + b)[|a + b| - 1] == b[n];
      BoundAppend(a, b[..n]);
    }
  }

  function BoundIn(bindings: seq<Binding>, family: string): set<string> {
    set b | b in bindings && RoleFamily(b.role) == family :: b.nodeId
  }

  /** The nodes a family holds, by a binding or by an assignment. */
  function UsedIn(bindings: seq<Binding>, m: map<string, string>, family: string): set<string> {
    BoundIn(bindings, family) + (set r | r in m && RoleFamily(r) == family :: m[r])
  }

  function Unused(candidates: seq<string>, used: set<string>): (free: seq<string>)
    ensures forall n :: n in free <==> n in candidates && n !in used
  {
    if candidates == [] then []
    else (if candidates[0] in used then [] else [candidates[0]]) + Unused(candidates[1..], used)
  }

  /** How many requirements are numbered members of the family. */
  function Count(requirements: seq<Requirement>, family: string): nat {
    if requirements == [] then 0
    else
      Count(requirements[..|requirements| - 1], family) +
      if Numbered(requirements[|requirements| - 1].role) == Some(family) then 1 else 0
  }

  /** The first free candidate, unless there are several for a role that is not part of a numbered bank. */
  function Choice(bindings: seq<Binding>, m: map<string, string>, q: Requirement, count: nat): (node: Option<string>)
    ensures node.Some? ==>
            q.role !in m && node.value in q.candidates && node.value !in UsedIn(bindings, m, RoleFamily(q.role))
  {
    if q.role in m then None
    else
      var free := Unused(q.candidates, UsedIn(bindings, m, RoleFamily(q.role)));
      if |free| == 0 || (|free| > 1 && count < 2) then None else Some(free[0])
  }

  function Placed(bindings: seq<Binding>, m: map<string, string>, q: Requirement,
      all: seq<Requirement>): map<string, string> {
    var node := Choice(bindings, m, q, Count(all, RoleFamily(q.role)));
    if node.None? then m else m[q.role := node.value]
  }

  function Fill(bindings: seq<Binding>, m: map<string, string>, left: seq<Requirement>,
      all: seq<Requirement>): map<string, string>
    decreases |left|
  {
    if left == [] then m else Fill(bindings, Placed(bindings, m, left[0], all), left[1..], all)
  }

  function Assigned(bindings: seq<Binding>, requirements: seq<Requirement>): map<string, string> {
    Fill(bindings, Bound(bindings), requirements, requirements)
  }

  // ---------------------------------------------------------------- the loops

  function UsedOf(used: map<string, set<string>>, family: string): set<string> {
    if family in used then used[family] else {}
  }

  method AutomaticRoleAssignments(bindings: seq<Binding>, requirements: seq<Requirement>)
    returns (assignments: map<string, string>)
    ensures assignments == Assigned(bindings, requirements)
  {
    hide RoleFamily, UsedIn, BoundIn, Count, Fill;
    assignments := map[];
    var used: map<string, set<string>>;
    for i := 0 to |bindings|
      invariant assignments == Bound(bindings[..i])
    {
      assert bindings[..i + 1][..i] == bindings[..i];
      assignments := assignments[bindings[i].role := bindings[i].nodeId];
    }
    assert bindings[..|bindings|] == bindings;
    var counts := CountFamilies(requirements);
    used := NodesByFamily(bindings);
    forall f ensures UsedOf(used, f) == UsedIn(bindings, assignments, f) { BoundUsed(bindings, f); }
    assignments := FillRoles(bindings, requirements, assignments, counts, used);
  }

  /** The nodes of the bindings, by the family of their role. */
  method NodesByFamily(bindings: seq<Binding>) returns (used: map<string, set<string>>)
    ensures forall f :: UsedOf(used, f) == BoundIn(bindings, f)
  {
    hide RoleFamily;
    used := map[];
    for i := 0 to |bindings|
      invariant forall f :: UsedOf(used, f) == BoundIn(bindings[..i], f)
    {
      ghost var before := used;
      var family := RoleFamily(bindings[i].role);
      used := used[family := UsedOf(used, family) + {bindings[i].nodeId}];
      forall f ensures UsedOf(used, f) == BoundIn(bindings[..i + 1], f) {
        BoundOneMore(bindings, i, f);
        assert UsedOf(before, f) == BoundIn(bindings[..i], f);
      }
    }
    assert bindings[..|bindings|] == bindings;
  }

  lemma BoundOneMore(bindings: seq<Binding>, i: nat, family: string)
    requires i < |bindings|
    ensures BoundIn(bindings[..i + 1], family) ==
            BoundIn(bindings[..i], family) + if RoleFamily(bindings[i].role) == family then {bindings[i].nodeId} else {}
  {
    hide RoleFamily;
    assert bindings[..i + 1] == bindings[..i] + [bindings[i]];
  }

  /** The last loop: the map of used nodes stands for what bindings and assignments use. */
  method FillRoles(bindings: seq<Binding>, requirements: seq<Requirement>, bound: map<string, string>,
                   counts: map<string, nat>, before: map<string, set<string>>)
    returns (assignments: map<string, string>)
    requires forall f :: (if f in counts then counts[f] else 0) == Count(requirements, f)
    requires forall f :: UsedOf(before, f) == UsedIn(bindings, bound, f)
    ensures assignments == Fill(bindings, bound, requirements, requirements)
  {
    hide RoleFamily, UsedIn, Count;
    assignments := bound;
    var used := before;
    assert requirements[0..] == requirements;
    for i := 0 to |requirements|
      invariant Fill(bindings, assignments, requirements[i..], requirements) ==
                Fill(bindings, bound, requirements, requirements)
      invariant forall f :: UsedOf(used, f) == UsedIn(bindings, assignments, f)
    {
      var q := requirements[i];
      assert requirements[i..][0] == q && requirements[i..][1..] == requirements[i + 1..];
      if q.role !in assignments {
        var family := RoleFamily(q.role);
        var free := Unused(q.candidates, UsedOf(used, family));
        if |free| == 1 || (|free| > 1 && (if family in counts then counts[family] else 0) >= 2) {
          ghost var held, known := used, assignments;
          assignments := assignments[q.role := free[0]];
          used := used[family := UsedOf(used, family) + {free[0]}];
          forall f ensures UsedOf(used, f) == UsedIn(bindings, assignments, f) {
            UsedPlaced(bindings, known, q.role, free[0], f);
            assert UsedOf(held, f) == UsedIn(bindings, known, f);
          }
        }
      }
    }
  }

  method CountFamilies(requirements: seq<Requirement>) returns (counts: map<string, nat>)
    ensures forall f :: (if f in counts then counts[f] else 0) == Count(requirements, f)
  {
    hide Numbered;
    counts := map[];
    for i := 0 to |requirements|
      invariant forall f :: (if f in counts then counts[f] else 0) == Count(requirements[..i], f)
    {
      assert requirements[..i + 1][..i] == requirements[..i];
      var family := Numbered(requirements[i].role);
      if family.Some? {
        counts := counts[family.value := (if family.value in counts then counts[family.value] else 0) + 1];
      }
    }
    assert requirements[..|requirements|] == requirements;
  }

  lemma BoundUsed(bindings: seq<Binding>, family: string)
    ensures UsedIn(bindings, Bound(bindings), family) == BoundIn(bindings, family)
  {
    hide RoleFamily;
    var m := Bound(bindings);
    BoundShape(bindings);
    forall r | r in m && RoleFamily(r) == family ensures m[r] in BoundIn(bindings, family) {
      assert Binding(r, m[r]) in bindings;
    }
  }

  lemma UsedPlaced(bindings: seq<Binding>, m: map<string, string>, role: string, node: string, family: string)
    requires role !in m
    ensures UsedIn(bindings, m[role := node], family) == UsedIn(bindings, m, family) +
            if RoleFamily(role) == family then {node} else {}
  {
    hide RoleFamily;
    var n := m[role := node];
    forall r | r in m && RoleFamily(r) == family ensures m[r] in UsedIn(bindings, n, family) { assert n[r] == m[r]; }
    if RoleFamily(role) == family { assert n[role] == node; }
  }

  // ---------------------------------------------------------------- what the defaults keep

  /** Existing entries stay; new ones are for requirements, from their candidates, and new to their family. */
  lemma {:induction false} FillPicks(bindings: seq<Binding>, m: map<string, string>, left: seq<Requirement>,
      all: seq<Requirement>)
    ensures var r := Fill(bindings, m, left, all);
            && (forall k :: k in m ==> k in r && r[k] == m[k])
            && (forall k :: k in r && k !in m ==>
                  && (exists i :: 0 <= i < |left| && left[i].role == k && r[k] in left[i].candidates)
                  && r[k] !in UsedIn(bindings, r - {k}, RoleFamily(k)))
    decreases |left|
  {
    hide RoleFamily, Choice, UsedIn, Count;
    if left != [] {
      var next, r := Placed(bindings, m, left[0], all), Fill(bindings, m, left, all);
      FillPicks(bindings, next, left[1..], all);
      forall k | k in r && k !in m
        ensures exists i :: 0 <= i < |left| && left[i].role == k && r[k] in left[i].candidates
        ensures r[k] !in UsedIn(bindings, r - {k}, RoleFamily(k))
      {
        if k in next {
          assert left[0].role == k && r[k] in left[0].candidates;
          PlacedFresh(bindings, m, k, r, next, left[1..], all);
        } else {
          var i :| 0 <= i < |left[1..]| && left[1..][i].role == k && r[k] in left[1..][i].candidates;
          assert left[i + 1] == left[1..][i];
        }
      }
    }
  }

  /** What is placed later in the family differs from what was placed before. */
  lemma PlacedFresh(bindings: seq<Binding>, m: map<string, string>, k: string, r: map<string, string>,
                    next: map<string, string>, left: seq<Requirement>, all: seq<Requirement>)
    requires k !in m && k in next && next == m[k := next[k]] && next[k] !in UsedIn(bindings, m, RoleFamily(k))
    requires forall j :: j in next ==> j in r && r[j] == next[j]
    requires forall j :: j in r && j !in next ==> r[j] !in UsedIn(bindings, r - {j}, RoleFamily(j))
    ensures r[k] !in UsedIn(bindings, r - {k}, RoleFamily(k))
  {
    hide RoleFamily;
    var f := RoleFamily(k);
    forall j | j in r - {k} && RoleFamily(j) == f ensures r[j] != r[k] {
      if j in next {
        assert m[j] in UsedIn(bindings, m, f);
      } else {
        assert (r - {j})[k] in UsedIn(bindings, r - {j}, f);
      }
    }
    forall b | b in bindings && RoleFamily(b.role) == f
      ensures b.nodeId != r[k]
    {
      assert b.nodeId in UsedIn(bindings, m, f);
    }
  }

  /** A family's used nodes only grow, and only by requirements of the family. */
  lemma {:induction false} FillUses(bindings: seq<Binding>, m: map<string, string>, left: seq<Requirement>,
      all: seq<Requirement>, family: string)
    ensures UsedIn(bindings, m, family) <= UsedIn(bindings, Fill(bindings, m, left, all), family)
    ensures (forall i :: 0 <= i < |left| ==> RoleFamily(left[i].role) != family) ==>
              UsedIn(bindings, Fill(bindings, m, left, all), family) == UsedIn(bindings, m, family)
    decreases |left|
  {
    hide RoleFamily, UsedIn, Choice, Count;
    if left != [] {
      var node := Choice(bindings, m, left[0], Count(all, RoleFamily(left[0].role)));
      if node.Some? { UsedPlaced(bindings, m, left[0].role, node.value, family); }
      FillUses(bindings, Placed(bindings, m, left[0], all), left[1..], all, family);
    }
  }

  /** A role left empty had, when its turn came, no free candidate, or several outside a bank. */
  lemma {:induction false} FillSkips(bindings: seq<Binding>, m: map<string, string>, left: seq<Requirement>,
      all: seq<Requirement>, i: nat)
    returns (at: map<string, string>)
    requires i < |left| && left[i].role !in Fill(bindings, m, left, all)
    ensures left[i].role !in at && Choice(bindings, at, left[i], Count(all, RoleFamily(left[i].role))) == None
    ensures at == Fill(bindings, m, left[..i], all)
    ensures Fill(bindings, m, left, all) == Fill(bindings, at, left[i + 1..], all)
    decreases |left|
  {
    hide RoleFamily, UsedIn, Count, Choice;
    FillPicks(bindings, Placed(bindings, m, left[0], all), left[1..], all);
    if i == 0 {
      at := m;
    } else {
      at := FillSkips(bindings, Placed(bindings, m, left[0], all), left[1..], all, i - 1);
      assert left[1..][..i - 1] == left[..i][1..] && left[1..][i..] == left[i + 1..];
    }
  }

  /** Bindings stay (the last one of a role), every new node is a candidate of its role and new to its family. */
  lemma AssignedKeepsAndPicks(bindings: seq<Binding>, requirements: seq<Requirement>)
    ensures var r := Assigned(bindings, requirements);
            && (forall k :: k in Bound(bindings) ==> k in r && r[k] == Bound(bindings)[k])
            && (forall k :: k in r && k !in Bound(bindings) ==>
                  && (exists i ::
                    0 <= i < |requirements| && requirements[i].role == k && r[k] in requirements[i].candidates)
                  && r[k] !in UsedIn(bindings, r - {k}, RoleFamily(k)))
  {
    FillPicks(bindings, Bound(bindings), requirements, requirements);
  }

  /** A role of a numbered bank is left empty exactly when its family uses all of its candidates. */
  lemma BankEmptyExactly(bindings: seq<Binding>, requirements: seq<Requirement>, i: nat)
    requires i < |requirements| && Count(requirements, RoleFamily(requirements[i].role)) >= 2
    requires requirements[i].role !in Bound(bindings)
    requires forall j :: 0 <= j < |requirements| && j != i ==> requirements[j].role != requirements[i].role
    ensures var r, q := Assigned(bindings, requirements), requirements[i];
            q.role !in r <==> forall n :: n in q.candidates ==> n in UsedIn(bindings, r - {q.role}, RoleFamily(q.role))
  {
    hide RoleFamily, UsedIn, Count;
    var r, q := Assigned(bindings, requirements), requirements[i];
    FillPicks(bindings, Bound(bindings), requirements, requirements);
    if q.role !in r {
      var at := FillSkips(bindings, Bound(bindings), requirements, requirements, i);
      FillUses(bindings, at, requirements[i + 1..], requirements, RoleFamily(q.role));
      assert r - {q.role} == r;
      assert Unused(q.candidates, UsedIn(bindings, at, RoleFamily(q.role))) == [];
    }
  }

  // ---------------------------------------------------------------- the defaults, place by place

  /** Two requirements at least are numbered members of the family. */
  ghost predicate Bank(requirements: seq<Requirement>, family: string) {
    exists a, b ::
      0 <= a < b < |requirements| && Numbered(requirements[a].role) == Some(family) &&
      Numbered(requirements[b].role) == Some(family)
  }

  lemma {:induction false} CountsBank(requirements: seq<Requirement>, family: string)
    ensures Count(requirements, family) >= 1 <==>
            exists a :: 0 <= a < |requirements| && Numbered(requirements[a].role) == Some(family)
    ensures Count(requirements, family) >= 2 <==> Bank(requirements, family)
  {
    hide Numbered;
    if requirements != [] {
      var n := |requirements| - 1;
      var init, last := requirements[..n], requirements[n];
      CountsBank(init, family);
      assert forall a :: 0 <= a < n ==> init[a] == requirements[a];
      if Count(init, family) >= 1 && Numbered(last.role) == Some(family) {
        var a :| 0 <= a < n && Numbered(init[a].role) == Some(family);
        assert Numbered(requirements[a].role) == Some(family) && Numbered(requirements[n].role) == Some(family);
      }
      if a, b :| 0 <= a < b < n && Numbered(init[a].role) == Some(family) && Numbered(init[b].role) == Some(family) {
        assert Numbered(requirements[a].role) == Some(family) && Numbered(requirements[b].role) == Some(family);
      }
      if Bank(requirements, family) {
        var a, b :| 0 <= a < b < |requirements| && Numbered(requirements[a].role) == Some(family) &&
                    Numbered(requirements[b].role) == Some(family);
        assert Numbered(init[a].role) == Some(family);
        if b < n { assert Numbered(init[b].role) == Some(family); }
      }
    }
  }

  /** The role has its node before the n-th requirement's turn; `at` says at whose turn a default was given. */
  predicate Settled(r: map<string, string>, at: map<string, nat>, role: string, n: nat) {
    role in r && (role in at ==> at[role] < n)
  }

  /** The nodes a family holds before the n-th requirement's turn. */
  ghost function TakenAt(bindings: seq<Binding>, r: map<string, string>, at: map<string, nat>, n: nat,
      family: string): set<string> {
    (set b | b in bindings && RoleFamily(b.role) == family :: b.nodeId) +
    (set k | k in r && Settled(r, at, k, n) && RoleFamily(k) == family :: r[k])
  }

  /** There is a free candidate, and it is the only one or the family is a bank. */
  ghost predicate Pickable(candidates: seq<string>, taken: set<string>, bank: bool) {
    exists c :: 0 <= c < |candidates| && candidates[c] !in taken &&
      (bank || forall d :: 0 <= d < |candidates| && candidates[d] !in taken ==> d == c)
  }

  /** The node is the first free candidate. */
  ghost predicate FirstFree(candidates: seq<string>, taken: set<string>, node: string) {
    exists c :: 0 <= c < |candidates| && candidates[c] == node && node !in taken &&
      forall d :: 0 <= d < c ==> candidates[d] in taken
  }

  /**
   * At its turn a requirement gives its role a default exactly when the role has no node yet and a candidate can be
   * picked, and then it is the first free one.
   */
  ghost predicate TurnTaken(bindings: seq<Binding>, requirements: seq<Requirement>, r: map<string, string>,
      at: map<string, nat>, n: nat)
    requires n < |requirements|
  {
    var q := requirements[n];
    var taken := TakenAt(bindings, r, at, n, RoleFamily(q.role));
    && (q.role in at && at[q.role] == n <==>
          !Settled(r, at, q.role, n) && Pickable(q.candidates, taken, Bank(requirements, RoleFamily(q.role))))
    && (q.role in at && at[q.role] == n ==> q.role in r && FirstFree(q.candidates, taken, r[q.role]))
  }

  lemma {:induction false} UnusedFirst(candidates: seq<string>, used: set<string>)
    ensures var free := Unused(candidates, used);
            && (|free| > 0 ==> FirstFree(candidates, used, free[0]))
            && (|free| == 1 || |free| > 1 <==> Pickable(candidates, used, true))
            && (|free| == 1 <==> Pickable(candidates, used, false))
  {
    if candidates == [] {
      assert !Pickable(candidates, used, true) && !Pickable(candidates, used, false);
    } else {
      UnusedFirst(candidates[1..], used);
      FirstFreeMore(candidates, used);
      PickableMore(candidates, used);
    }
  }

  lemma FirstFreeMore(candidates: seq<string>, used: set<string>)
    requires candidates != []
    ensures candidates[0] !in used ==> FirstFree(candidates, used, candidates[0])
    ensures candidates[0] in used ==>
              forall node :: FirstFree(candidates[1..], used, node) ==> FirstFree(candidates, used, node)
  {
    forall node | candidates[0] in used && FirstFree(candidates[1..], used, node)
      ensures FirstFree(candidates, used, node)
    {
      var c :| 0 <= c < |candidates[1..]| && candidates[1..][c] == node && forall d :: 0 <= d < c ==>
               candidates[1..][d] in used;
      assert candidates[c + 1] == node;
      forall d | 0 <= d < c + 1 ensures candidates[d] in used {
        if d > 0 { assert candidates[1..][d - 1] == candidates[d]; }
      }
    }
  }

  lemma PickableMore(candidates: seq<string>, used: set<string>)
    requires candidates != []
    ensures Pickable(candidates, used, true) <==> candidates[0] !in used || Pickable(candidates[1..], used, true)
    ensures Pickable(candidates, used, false) <==>
            if candidates[0] in used then Pickable(candidates[1..], used, false)
            else !Pickable(candidates[1..], used, true)
  {
    var rest := candidates[1..];
    assert forall c :: 0 <= c < |rest| ==> rest[c] == candidates[c + 1];
    assert forall c :: 0 < c < |candidates| ==> candidates[c] == rest[c - 1];
  }

  /** The default was given at the turn of a requirement of the role, from its candidates' list. */
  ghost predicate AtTurns(requirements: seq<Requirement>, at: map<string, nat>, from: nat) {
    forall k :: k in at ==> from <= at[k] < |requirements| && requirements[at[k]].role == k
  }

  /** What is used before the n-th turn: all of `m`, when every default is given from that turn on. */
  lemma TakenUsed(bindings: seq<Binding>, m: map<string, string>, r: map<string, string>, at: map<string, nat>,
      n: nat, family: string)
    requires forall k :: k in m ==> k in r && r[k] == m[k] && k !in at
    requires forall k :: k in r && k !in m ==> k in at && n <= at[k]
    ensures TakenAt(bindings, r, at, n, family) == UsedIn(bindings, m, family)
  {
    hide RoleFamily;
    forall k | k in r && Settled(r, at, k, n) && RoleFamily(k) == family
      ensures r[k] in UsedIn(bindings, m, family)
    {
      assert m[k] == r[k];
    }
    forall k | k in m && RoleFamily(k) == family ensures m[k] in TakenAt(bindings, r, at, n, family) {
      assert Settled(r, at, k, n);
    }
  }

  /** The turn of the first requirement left. */
  lemma TurnNow(bindings: seq<Binding>, m: map<string, string>, all: seq<Requirement>, r: map<string, string>,
      at: map<string, nat>, i: nat)
    requires i < |all| && forall k :: k in m ==> k in r && r[k] == m[k] && k !in at
    requires forall k :: k in r && k !in m ==> k in at && i <= at[k]
    requires var node := Choice(bindings, m, all[i], Count(all, RoleFamily(all[i].role)));
             if node.None? then all[i].role in at ==> at[all[i].role] != i
             else all[i].role in at && at[all[i].role] == i && all[i].role in r && r[all[i].role] == node.value
    ensures TurnTaken(bindings, all, r, at, i)
  {
    hide RoleFamily, UsedIn, Count, TakenAt, Bank, Pickable, FirstFree;
    var q := all[i];
    var family := RoleFamily(q.role);
    TakenUsed(bindings, m, r, at, i, family);
    CountsBank(all, family);
    UnusedFirst(q.candidates, UsedIn(bindings, m, family));
  }

  /** The defaults are given turn by turn. */
  lemma {:induction false} FillTurns(bindings: seq<Binding>, m: map<string, string>, all: seq<Requirement>, i: nat)
    returns (at: map<string, nat>)
    requires i <= |all|
    ensures var r := Fill(bindings, m, all[i..], all);
            && r.Keys == m.Keys + at.Keys && m.Keys !! at.Keys && (forall k :: k in m ==> r[k] == m[k])
            && AtTurns(all, at, i) && (forall n :: i <= n < |all| ==> TurnTaken(bindings, all, r, at, n))
    decreases |all| - i
  {
    hide RoleFamily, UsedIn, Count, TurnTaken, Choice;
    if i == |all| {
      at := map[];
      assert all[i..] == [];
    } else {
      var q := all[i];
      var node := Choice(bindings, m, q, Count(all, RoleFamily(q.role)));
      var next := Placed(bindings, m, q, all);
      assert all[i..][0] == q && all[i..][1..] == all[i + 1..];
      var later := FillTurns(bindings, next, all, i + 1);
      var r := Fill(bindings, m, all[i..], all);
      if node.None? {
        at := later;
      } else {
        ChoiceOpen(bindings, m, q, Count(all, RoleFamily(q.role)));
        at := later[q.role := i];
        forall n | i + 1 <= n < |all| ensures TurnTaken(bindings, all, r, at, n) {
          TurnSame(bindings, all, r, later, q.role, i, n);
        }
      }
      TurnNow(bindings, m, all, r, at, i);
    }
  }

  lemma ChoiceOpen(bindings: seq<Binding>, m: map<string, string>, q: Requirement, count: nat)
    requires Choice(bindings, m, q, count).Some?
    ensures q.role !in m
  {
  }

  /** Noting when an earlier default was given changes no later turn. */
  lemma TurnSame(bindings: seq<Binding>, all: seq<Requirement>, r: map<string, string>, before: map<string, nat>,
      role: string, i: nat, n: nat)
    requires i < n < |all| && TurnTaken(bindings, all, r, before, n) && role !in before
    ensures TurnTaken(bindings, all, r, before[role := i], n)
  {
    hide RoleFamily, Bank, Pickable, FirstFree;
    var after := before[role := i];
    assert forall k :: Settled(r, before, k, n) <==> Settled(r, after, k, n);
    assert TakenAt(bindings, r, before, n, RoleFamily(all[n].role)) ==
           TakenAt(bindings, r, after, n, RoleFamily(all[n].role));
  }

  predicate IsBound(bindings: seq<Binding>, role: string) { exists b :: b in bindings && b.role == role }

  /** The node of the role's last binding. */
  predicate LastBound(bindings: seq<Binding>, role: string, node: string) {
    exists i :: 0 <= i < |bindings| && bindings[i] == Binding(role, node) &&
                forall j :: i < j < |bindings| ==> bindings[j].role != role
  }

  lemma LastKept(bindings: seq<Binding>, role: string, node: string)
    requires bindings != [] && LastBound(bindings[..|bindings| - 1], role, node)
    requires bindings[|bindings| - 1].role != role
    ensures LastBound(bindings, role, node)
  {
    var init := bindings[..|bindings| - 1];
    var i :| 0 <= i < |init| && init[i] == Binding(role, node) && forall j :: i < j < |init| ==> init[j].role != role;
    assert bindings[i] == init[i] && forall j :: i < j < |init| ==> bindings[j] == init[j];
  }

  lemma {:induction false} BoundLast(bindings: seq<Binding>)
    ensures forall role :: role in Bound(bindings) <==> IsBound(bindings, role)
    ensures forall role :: role in Bound(bindings) ==> LastBound(bindings, role, Bound(bindings)[role])
  {
    hide LastBound;
    if bindings != [] {
      var n := |bindings| - 1;
      var init, last := bindings[..n], bindings[n];
      BoundLast(init);
      assert bindings == init + [last] && Bound(bindings) == Bound(init)[last.role := last.nodeId];
      forall role | role in Bound(bindings) ensures LastBound(bindings, role, Bound(bindings)[role]) {
        if last.role == role { LastNow(bindings); } else { LastKept(bindings, role, Bound(init)[role]); }
      }
    }
  }

  lemma LastNow(bindings: seq<Binding>)
    requires bindings != []
    ensures LastBound(bindings, bindings[|bindings| - 1].role, bindings[|bindings| - 1].nodeId)
  {
    assert bindings[|bindings| - 1] == Binding(bindings[|bindings| - 1].role, bindings[|bindings| - 1].nodeId);
  }

  /** The whole assignment: every bound role has its last binding's node, and the rest is given turn by turn. */
  lemma AssignedExactly(bindings: seq<Binding>, requirements: seq<Requirement>) returns (at: map<string, nat>)
    ensures var r := Assigned(bindings, requirements);
            && (forall role :: role in r <==> IsBound(bindings, role) || role in at)
            && (forall role :: IsBound(bindings, role) ==> role !in at && LastBound(bindings, role, r[role]))
            && AtTurns(requirements, at, 0)
            && (forall n :: 0 <= n < |requirements| ==> TurnTaken(bindings, requirements, r, at, n))
  {
    hide TurnTaken, Fill, Bound;
    BoundLast(bindings);
    assert requirements[0..] == requirements;
    at := FillTurns(bindings, Bound(bindings), requirements, 0);
  }

  // ---------------------------------------------------------------- reconciliation

  predicate IsRequired(requirements: seq<Requirement>, role: string) {
    exists i :: 0 <= i < |requirements| && requirements[i].role == role
  }

  /** The current choices of the same session, for required roles, under the bindings. */
  function Merged(current: map<string, string>, same: bool, bindings: seq<Binding>,
      requirements: seq<Requirement>): map<string, string> {
    (map r | r in current && same && IsRequired(requirements, r) :: current[r]) + Bound(bindings)
  }

  /** An unbound choice stays while every requirement of its role still offers it. */
  predicate Stays(m: map<string, string>, role: string, bindings: seq<Binding>, requirements: seq<Requirement>)
    requires role in m
  {
    role in Bound(bindings) ||
    forall i :: 0 <= i < |requirements| && requirements[i].role == role ==> m[role] in requirements[i].candidates
  }

  function Current(m: map<string, string>, bindings: seq<Binding>,
      requirements: seq<Requirement>): map<string, string> {
    map r | r in m && Stays(m, r, bindings, requirements) :: m[r]
  }

  function Reconciled(current: map<string, string>, same: bool, bindings: seq<Binding>,
      requirements: seq<Requirement>): map<string, string> {
    Fill(bindings, Current(Merged(current, same, bindings, requirements), bindings, requirements), requirements,
      requirements)
  }

  /** A choice of the same session, for a required role without a binding, that every requirement of the role offers. */
  predicate Kept(current: map<string, string>, same: bool, bindings: seq<Binding>, requirements: seq<Requirement>,
      role: string) {
    && same && role in current && !IsBound(bindings, role)
    && (exists i :: 0 <= i < |requirements| && requirements[i].role == role)
    && (forall i :: 0 <= i < |requirements| && requirements[i].role == role ==>
          current[role] in requirements[i].candidates)
  }

  /**
   * The whole answer: every bound role has its last binding's node, every kept choice stays, and the rest is given turn
   * by turn.
   */
  lemma ReconciledExactly(current: map<string, string>, same: bool, bindings: seq<Binding>,
      requirements: seq<Requirement>)
    returns (at: map<string, nat>)
    ensures var r := Reconciled(current, same, bindings, requirements);
            && (forall role :: role in r <==>
                  IsBound(bindings, role) || Kept(current, same, bindings, requirements, role) || role in at)
            && (forall role :: IsBound(bindings, role) ==> role !in at && LastBound(bindings, role, r[role]))
            && (forall role :: Kept(current, same, bindings, requirements, role) ==>
                  role !in at && r[role] == current[role])
            && AtTurns(requirements, at, 0)
            && (forall n :: 0 <= n < |requirements| ==> TurnTaken(bindings, requirements, r, at, n))
  {
    hide TurnTaken, Fill, Bound, IsBound, LastBound;
    BoundLast(bindings);
    assert requirements[0..] == requirements;
    var m := Current(Merged(current, same, bindings, requirements), bindings, requirements);
    at := FillTurns(bindings, m, requirements, 0);
  }

  /** For another session the answer does not depend on the current choices: it is the automatic assignment. */
  lemma OtherSession(current: map<string, string>, bindings: seq<Binding>, requirements: seq<Requirement>)
    ensures Reconciled(current, false, bindings, requirements) == Assigned(bindings, requirements)
  {
    hide Fill, Bound;
    assert Current(Merged(current, false, bindings, requirements), bindings, requirements) == Bound(bindings);
  }

  /**
   * In the same session an unbound role that is required once keeps its choice exactly when its requirement offers it.
   */
  lemma ChoiceKeptExactly(current: map<string, string>, bindings: seq<Binding>, requirements: seq<Requirement>, i: nat)
    requires i < |requirements| && requirements[i].role in current && !IsBound(bindings, requirements[i].role)
    requires forall j :: 0 <= j < |requirements| && requirements[j].role == requirements[i].role ==> j == i
    ensures var r, role := Reconciled(current, true, bindings, requirements), requirements[i].role;
            role in r && r[role] == current[role] <==> current[role] in requirements[i].candidates
  {
    hide Reconciled, IsBound, LastBound, TakenAt, Pickable, Bank;
    var role := requirements[i].role;
    var at := ReconciledExactly(current, true, bindings, requirements);
    if role in at {
      assert TurnTaken(bindings, requirements, Reconciled(current, true, bindings, requirements), at, at[role]);
    }
    assert Kept(current, true, bindings, requirements, role) <==> current[role] in requirements[i].candidates;
  }

  /** Of a role required twice, a choice that is not offered twice is dropped, and may come back as the default. */
  lemma DroppedChoiceReturns()
    ensures var requirements := [Requirement("drum", ["a"]), Requirement("drum", ["b"])];
            && !Kept(map["drum" := "a"], true, [], requirements, "drum")
            && Reconciled(map["drum" := "a"], true, [], requirements) == map["drum" := "a"]
  {
    hide Reconciled, RoleFamily, Bank;
    var current, requirements := map["drum" := "a"], [Requirement("drum", ["a"]), Requirement("drum", ["b"])];
    var r := Reconciled(current, true, [], requirements);
    var at := ReconciledExactly(current, true, [], requirements);
    assert "a" !in requirements[1].candidates;
    assert TurnTaken([], requirements, r, at, 0);
    assert TakenAt([], r, at, 0, RoleFamily("drum")) == {};
    assert requirements[0].candidates[0] == "a";
    assert Pickable(["a"], {}, Bank(requirements, RoleFamily("drum")));
    assert forall k :: k in r ==> k == "drum";
  }

  method ReconciledRoleSelections(current: map<string, string>, same: bool, bindings: seq<Binding>,
      requirements: seq<Requirement>)
    returns (selections: map<string, string>)
    ensures selections == Reconciled(current, same, bindings, requirements)
  {
    selections := MergeSelections(current, same, bindings, requirements);
    selections := DropStale(selections, bindings, requirements);
    hide Fill, Merged;
    var selected := Entries(selections);
    var defaults := AutomaticRoleAssignments(bindings + selected, requirements);
    SelectedDefaults(bindings, selected, selections, requirements);
    FillPicks(bindings, selections, requirements, requirements);
    selections := AddDefaults(selections, defaults);
  }

  /** `selections[role] ??= nodeId` for every default. */
  method AddDefaults(chosen: map<string, string>, defaults: map<string, string>)
    returns (selections: map<string, string>)
    requires forall r :: r in chosen ==> r in defaults && defaults[r] == chosen[r]
    ensures selections == defaults
  {
    selections := chosen;
    var roles := defaults.Keys;
    while roles != {}
      invariant roles <= defaults.Keys
      invariant forall r :: r in selections ==> r in defaults && selections[r] == defaults[r]
      invariant forall r :: r in defaults && r !in roles ==> r in selections
      decreases roles
    {
      var r :| r in roles;
      if r !in selections {
        selections := selections[r := defaults[r]];
      }
      roles := roles - {r};
    }
  }

  method MergeSelections(current: map<string, string>, same: bool, bindings: seq<Binding>,
      requirements: seq<Requirement>)
    returns (selections: map<string, string>)
    ensures selections == Merged(current, same, bindings, requirements)
  {
    hide IsRequired;
    selections := if same then current else map[];
    var roles := selections.Keys;
    while roles != {}
      invariant roles <= selections.Keys
      invariant selections == map r | r in current && same && (r in roles || IsRequired(requirements, r)) :: current[r]
      decreases roles
    {
      var r :| r in roles;
      if !IsRequired(requirements, r) {
        selections := selections - {r};
      }
      roles := roles - {r};
    }
    selections := Overlay(selections, bindings);
  }

  method Overlay(below: map<string, string>, bindings: seq<Binding>) returns (selections: map<string, string>)
    ensures selections == below + Bound(bindings)
  {
    selections := below;
    for i := 0 to |bindings|
      invariant selections == below + Bound(bindings[..i])
    {
      assert bindings[..i + 1][..i] == bindings[..i];
      selections := selections[bindings[i].role := bindings[i].nodeId];
    }
    assert bindings[..|bindings|] == bindings;
  }

  method DropStale(merged: map<string, string>, bindings: seq<Binding>, requirements: seq<Requirement>)
    returns (selections: map<string, string>)
    ensures selections == Current(merged, bindings, requirements)
  {
    selections := merged;
    BoundShape(bindings);
    for i := 0 to |requirements|
      invariant selections == map r | r in merged && Stays(merged, r, bindings, requirements[..i]) :: merged[r]
    {
      var q := requirements[i];
      forall r | r in merged
        ensures Stays(merged, r, bindings, requirements[..i + 1]) <==>
                Stays(merged, r, bindings, requirements[..i]) &&
                  (r == q.role ==> r in Bound(bindings) || merged[r] in q.candidates)
      {
        StaysOneMore(merged, r, bindings, requirements, i);
      }
      if !(exists k :: 0 <= k < |bindings| && bindings[k].role == q.role) &&
         (q.role !in selections || selections[q.role] !in q.candidates) {
        selections := selections - {q.role};
      }
    }
    assert requirements[..|requirements|] == requirements;
  }

  lemma StaysOneMore(m: map<string, string>, role: string, bindings: seq<Binding>, requirements: seq<Requirement>,
      i: nat)
    requires role in m && i < |requirements|
    ensures Stays(m, role, bindings, requirements[..i + 1]) <==>
            Stays(m, role, bindings, requirements[..i]) &&
            (role == requirements[i].role ==> role in Bound(bindings) || m[role] in requirements[i].candidates)
  {
    assert requirements[..i + 1] == requirements[..i] + [requirements[i]];
    if Stays(m, role, bindings, requirements[..i + 1]) && role !in Bound(bindings) {
      forall k | 0 <= k < i && requirements[..i][k].role == role ensures m[role] in requirements[..i][k].candidates {
        assert requirements[..i + 1][k] == requirements[..i][k];
      }
      if role == requirements[i].role { assert requirements[..i + 1][i] == requirements[i]; }
    }
  }

  /** The entries of a record, in whatever order it has them. */
  method Entries(m: map<string, string>) returns (entries: seq<Binding>)
    ensures forall b :: b in entries <==> b.role in m && b.nodeId == m[b.role]
  {
    entries := [];
    var roles := m.Keys;
    while roles != {}
      invariant roles <= m.Keys
      invariant forall b :: b in entries <==> b.role in m && b.role !in roles && b.nodeId == m[b.role]
      decreases roles
    {
      var r :| r in roles;
      entries := entries + [Binding(r, m[r])];
      roles := roles - {r};
    }
  }

  /** With the selections listed as bindings, the defaults are the selections filled up. */
  lemma SelectedDefaults(bindings: seq<Binding>, entries: seq<Binding>, m: map<string, string>,
      requirements: seq<Requirement>)
    requires forall b :: b in entries <==> b.role in m && b.nodeId == m[b.role]
    requires Bound(bindings).Keys <= m.Keys
    ensures Assigned(bindings + entries, requirements) == Fill(bindings, m, requirements, requirements)
  {
    hide Fill;
    BoundAppend(bindings, entries);
    EntriesBound(entries, m);
    assert Bound(bindings) + m == m;
    SameFill(bindings, entries, m, requirements, requirements);
  }

  lemma EntriesBound(entries: seq<Binding>, m: map<string, string>)
    requires forall b :: b in entries <==> b.role in m && b.nodeId == m[b.role]
    ensures Bound(entries) == m
  {
    BoundShape(entries);
    forall r | r in m ensures r in Bound(entries) && Bound(entries)[r] == m[r] {
      assert Binding(r, m[r]) in entries;
      var i :| 0 <= i < |entries| && entries[i] == Binding(r, m[r]);
      assert entries[i].role == r;
    }
    forall r | r in Bound(entries) ensures r in m { assert Binding(r, Bound(entries)[r]) in entries; }
  }

  lemma {:induction false} SameFill(bindings: seq<Binding>, entries: seq<Binding>, m: map<string, string>,
      left: seq<Requirement>, all: seq<Requirement>)
    requires forall b :: b in entries ==> b.role in m && b.nodeId == m[b.role]
    ensures Fill(bindings + entries, m, left, all) == Fill(bindings, m, left, all)
    decreases |left|
  {
    hide RoleFamily, Count, UsedIn;
    if left != [] {
      SameUsed(bindings, entries, m, RoleFamily(left[0].role));
      SameFill(bindings, entries, Placed(bindings, m, left[0], all), left[1..], all);
    }
  }

  lemma SameUsed(bindings: seq<Binding>, entries: seq<Binding>, m: map<string, string>, family: string)
    requires forall b :: b in entries ==> b.role in m && b.nodeId == m[b.role]
    ensures UsedIn(bindings + entries, m, family) == UsedIn(bindings, m, family)
  {
    hide RoleFamily;
  }

  // ---------------------------------------------------------------- the fixed point

  predicate DistinctRoles(requirements: seq<Requirement>) {
    forall i, j :: 0 <= i < j < |requirements| ==> requirements[i].role != requirements[j].role
  }

  /** A family with two requirements has two numbered ones. */
  predicate WellBanked(requirements: seq<Requirement>) {
    forall i, j ::
      0 <= i < j < |requirements| && RoleFamily(requirements[i].role) == RoleFamily(requirements[j].role) ==>
        Count(requirements, RoleFamily(requirements[i].role)) >= 2
  }

  /** Polling again with its own result changes nothing, whatever the choices and bindings. */
  ghost predicate Settles(requirements: seq<Requirement>) {
    forall current, same, bindings ::
      Reconciled(Reconciled(current, same, bindings, requirements), true, bindings, requirements) ==
      Reconciled(current, same, bindings, requirements)
  }

  predicate SameRoles(a: seq<Requirement>, b: seq<Requirement>) {
    |a| == |b| && forall i :: 0 <= i < |a| ==> a[i].role == b[i].role
  }

  /**
   * Reconciliation reaches a fixed point for all candidates, bindings and choices exactly when the roles are well
   * banked.
   */
  lemma SettlesExactly(shape: seq<Requirement>)
    requires DistinctRoles(shape)
    ensures (forall requirements :: SameRoles(requirements, shape) ==> Settles(requirements)) <==> WellBanked(shape)
  {
    hide Settles, WellBanked, SameRoles;
    if WellBanked(shape) {
      forall requirements | SameRoles(requirements, shape) ensures Settles(requirements) {
        SameShape(requirements, shape);
        WellBankedSettles(requirements);
      }
    } else {
      var i, j := BadPair(shape);
      var requirements := Sample(shape, i, j);
      SampleUnsettled(shape, i, j);
      assert SameRoles(requirements, shape) by { SampleRoles(shape, i, j); }
    }
  }

  lemma BadPair(shape: seq<Requirement>) returns (i: nat, j: nat)
    requires !WellBanked(shape)
    ensures i < j < |shape| && RoleFamily(shape[i].role) == RoleFamily(shape[j].role) &&
            Count(shape, RoleFamily(shape[i].role)) < 2
  {
    hide RoleFamily, Count;
    i, j :| 0 <= i < j < |shape| && RoleFamily(shape[i].role) == RoleFamily(shape[j].role) &&
            !(Count(shape, RoleFamily(shape[i].role)) >= 2);
  }

  lemma {:induction false} SameCount(a: seq<Requirement>, b: seq<Requirement>, family: string)
    requires SameRoles(a, b)
    ensures Count(a, family) == Count(b, family)
  {
    hide Numbered;
    if a != [] { SameCount(a[..|a| - 1], b[..|b| - 1], family); }
  }

  lemma SameShape(a: seq<Requirement>, b: seq<Requirement>)
    requires SameRoles(a, b) && DistinctRoles(b) && WellBanked(b)
    ensures DistinctRoles(a) && WellBanked(a)
  {
    hide RoleFamily, Count;
    forall family ensures Count(a, family) == Count(b, family) { SameCount(a, b, family); }
  }

  // -- well banked roles settle

  lemma WellBankedSettles(requirements: seq<Requirement>)
    requires DistinctRoles(requirements) && WellBanked(requirements)
    ensures Settles(requirements)
  {
    hide Reconciled, DistinctRoles, WellBanked;
    forall current, same, bindings
      ensures Reconciled(Reconciled(current, same, bindings, requirements), true, bindings, requirements) ==
              Reconciled(current, same, bindings, requirements)
    {
      ReconciledTwice(current, same, bindings, requirements);
    }
  }

  lemma ReconciledTwice(current: map<string, string>, same: bool, bindings: seq<Binding>,
      requirements: seq<Requirement>)
    requires DistinctRoles(requirements) && WellBanked(requirements)
    ensures Reconciled(Reconciled(current, same, bindings, requirements), true, bindings, requirements) ==
            Reconciled(current, same, bindings, requirements)
  {
    hide Fill, Current, Merged, WellBanked, DistinctRoles;
    var m := Current(Merged(current, same, bindings, requirements), bindings, requirements);
    var r := Fill(bindings, m, requirements, requirements);
    StillCurrent(current, same, bindings, requirements);
    forall i | 0 <= i < |requirements|
      ensures Choice(bindings, r, requirements[i], Count(requirements, RoleFamily(requirements[i].role))) == None
    {
      NothingToChoose(bindings, m, requirements, i);
    }
    FillNothing(bindings, r, requirements, requirements);
  }

  lemma {:induction false} FillNothing(bindings: seq<Binding>, m: map<string, string>, left: seq<Requirement>,
      all: seq<Requirement>)
    requires forall i :: 0 <= i < |left| ==> Choice(bindings, m, left[i], Count(all, RoleFamily(left[i].role))) == None
    ensures Fill(bindings, m, left, all) == m
    decreases |left|
  {
    hide Choice, Count, RoleFamily;
    if left != [] {
      forall i | 0 <= i < |left[1..]|
        ensures Choice(bindings, m, left[1..][i], Count(all, RoleFamily(left[1..][i].role))) == None
      {
        assert left[1..][i] == left[i + 1];
      }
      FillNothing(bindings, m, left[1..], all);
    }
  }

  /** The result is itself a current selection: bound, kept, or a candidate of its only requirement. */
  lemma StillCurrent(current: map<string, string>, same: bool, bindings: seq<Binding>, requirements: seq<Requirement>)
    requires DistinctRoles(requirements)
    ensures var m := Current(Merged(current, same, bindings, requirements), bindings, requirements);
            var r := Fill(bindings, m, requirements, requirements);
            Current(Merged(r, true, bindings, requirements), bindings, requirements) == r
  {
    hide Fill, UsedIn, RoleFamily, Bound, Current, Merged, Stays, IsRequired;
    var m := Current(Merged(current, same, bindings, requirements), bindings, requirements);
    var r := Fill(bindings, m, requirements, requirements);
    FillPicks(bindings, m, requirements, requirements);
    CurrentShape(current, same, bindings, requirements);
    forall k | k in r && k !in Bound(bindings)
      ensures IsRequired(requirements, k) && Stays(r, k, bindings, requirements)
    {
      if k in m {
        StaysSame(m, r, k, bindings, requirements);
      } else {
        PickStays(r, k, bindings, requirements);
      }
    }
    CurrentItself(r, bindings, requirements);
  }

  lemma CurrentShape(current: map<string, string>, same: bool, bindings: seq<Binding>, requirements: seq<Requirement>)
    ensures var m := Current(Merged(current, same, bindings, requirements), bindings, requirements);
            && (forall k :: k in Bound(bindings) ==> k in m && m[k] == Bound(bindings)[k])
            && (forall k :: k in m && k !in Bound(bindings) ==>
                  IsRequired(requirements, k) && Stays(m, k, bindings, requirements))
  {
    hide Bound, IsRequired;
    var merged := Merged(current, same, bindings, requirements);
    forall k | k in Bound(bindings) ensures Stays(merged, k, bindings, requirements) {
    }
  }

  lemma StaysSame(m: map<string, string>, r: map<string, string>, k: string, bindings: seq<Binding>,
      requirements: seq<Requirement>)
    requires k in m && k in r && m[k] == r[k]
    ensures Stays(m, k, bindings, requirements) <==> Stays(r, k, bindings, requirements)
  {
  }

  lemma PickStays(r: map<string, string>, k: string, bindings: seq<Binding>, requirements: seq<Requirement>)
    requires DistinctRoles(requirements) && k in r
    requires exists i :: 0 <= i < |requirements| && requirements[i].role == k && r[k] in requirements[i].candidates
    ensures IsRequired(requirements, k) && Stays(r, k, bindings, requirements)
  {
  }

  lemma CurrentItself(r: map<string, string>, bindings: seq<Binding>, requirements: seq<Requirement>)
    requires forall k :: k in Bound(bindings) ==> k in r && r[k] == Bound(bindings)[k]
    requires forall k :: k in r && k !in Bound(bindings) ==>
               IsRequired(requirements, k) && Stays(r, k, bindings, requirements)
    ensures Current(Merged(r, true, bindings, requirements), bindings, requirements) == r
  {
    hide Bound, IsRequired;
    assert Merged(r, true, bindings, requirements) == r;
  }

  lemma NothingToChoose(bindings: seq<Binding>, m: map<string, string>, requirements: seq<Requirement>, i: nat)
    requires DistinctRoles(requirements) && WellBanked(requirements) && i < |requirements|
    ensures var r := Fill(bindings, m, requirements, requirements);
            Choice(bindings, r, requirements[i], Count(requirements, RoleFamily(requirements[i].role))) == None
  {
    hide Fill, UsedIn, RoleFamily, Count;
    var r, q := Fill(bindings, m, requirements, requirements), requirements[i];
    var family := RoleFamily(q.role);
    if q.role !in r {
      var at := FillSkips(bindings, m, requirements, requirements, i);
      FillUses(bindings, at, requirements[i + 1..], requirements, family);
      if Count(requirements, family) < 2 {
        var rest := requirements[i + 1..];
        forall j | 0 <= j < |rest| ensures RoleFamily(rest[j].role) != family {
          assert rest[j] == requirements[i + 1 + j];
        }
      } else {
        assert Unused(q.candidates, UsedIn(bindings, at, family)) == [];
        assert forall n :: n in q.candidates ==> n in UsedIn(bindings, r, family);
        NoneFree(q.candidates, UsedIn(bindings, r, family));
      }
    }
  }

  lemma {:induction false} NoneFree(candidates: seq<string>, used: set<string>)
    requires forall n :: n in candidates ==> n in used
    ensures Unused(candidates, used) == []
  {
    if candidates != [] { NoneFree(candidates[1..], used); }
  }

  // -- other roles do not

  /** The first requirement offers two nodes, the second one of them, the others none. */
  function Sample(shape: seq<Requirement>, i: nat, j: nat): seq<Requirement> {
    seq(|shape|, k requires 0 <= k < |shape| =>
      Requirement(shape[k].role, if k == i then ["a", "b"] else if k == j then ["a"] else []))
  }

  lemma SampleRoles(shape: seq<Requirement>, i: nat, j: nat)
    ensures SameRoles(Sample(shape, i, j), shape)
  {
  }

  lemma {:induction false} FillSplit(bindings: seq<Binding>, m: map<string, string>, left: seq<Requirement>,
      all: seq<Requirement>, i: nat)
    requires i < |left|
    ensures Fill(bindings, m, left, all) ==
            Fill(bindings, Placed(bindings, Fill(bindings, m, left[..i], all), left[i], all), left[i + 1..], all)
    decreases i
  {
    hide Placed;
    if i > 0 {
      FillSplit(bindings, Placed(bindings, m, left[0], all), left[1..], all, i - 1);
      assert left[1..][..i - 1] == left[..i][1..] && left[1..][i..] == left[i + 1..] && left[1..][i - 1] == left[i];
    }
  }

  lemma {:induction false} FillIdle(bindings: seq<Binding>, m: map<string, string>, left: seq<Requirement>,
      all: seq<Requirement>)
    requires forall k :: 0 <= k < |left| ==> left[k].candidates == []
    ensures Fill(bindings, m, left, all) == m
    decreases |left|
  {
    hide RoleFamily, Count, UsedIn;
    if left != [] {
      assert left[0].candidates == [];
      FillIdle(bindings, m, left[1..], all);
    }
  }

  lemma SampleUnsettled(shape: seq<Requirement>, i: nat, j: nat)
    requires DistinctRoles(shape) && i < j < |shape|
    requires RoleFamily(shape[i].role) == RoleFamily(shape[j].role) && Count(shape, RoleFamily(shape[i].role)) < 2
    ensures !Settles(Sample(shape, i, j))
  {
    hide Fill, RoleFamily, Count, UsedIn, Settles;
    var all := Sample(shape, i, j);
    var family := RoleFamily(shape[i].role);
    SampleRoles(shape, i, j);
    SameCount(all, shape, family);
    assert all[i].role == shape[i].role && all[j].role == shape[j].role && all[i].role != all[j].role;
    var first := map[all[j].role := "a"];
    assert Reconciled(map[], false, [], all) == first by { FirstPass(all, i, j); }
    SecondPass(all, i, j);
    assert Reconciled(first, true, [], all) != first;
    assert !Settles(all) by { Unsettled(all, map[], false, []); }
  }

  lemma Unsettled(all: seq<Requirement>, current: map<string, string>, same: bool, bindings: seq<Binding>)
    requires Reconciled(Reconciled(current, same, bindings, all), true, bindings, all) != Reconciled(current, same,
             bindings, all)
    ensures !Settles(all)
  {
    hide Reconciled;
  }

  ghost predicate Sampled(all: seq<Requirement>, i: nat, j: nat) {
    && i < j < |all| && all[i].candidates == ["a", "b"] && all[j].candidates == ["a"]
    && (forall k :: 0 <= k < |all| && k != i && k != j ==> all[k].candidates == [])
    && all[i].role != all[j].role && RoleFamily(all[i].role) == RoleFamily(all[j].role)
    && Count(all, RoleFamily(all[i].role)) < 2
  }

  lemma FreeOf(used: set<string>)
    ensures used == {} ==> Unused(["a", "b"], used) == ["a", "b"] && Unused(["a"], used) == ["a"]
    ensures used == {"a"} ==> Unused(["a", "b"], used) == ["b"]
  {
    assert ["a", "b"][1..] == ["b"] && ["b"][1..] == [] && ["a"][1..] == [];
    assert Unused([], used) == [];
    assert Unused(["b"], used) == if "b" in used then [] else ["b"];
  }

  lemma UsedAtStart(family: string)
    ensures UsedIn([], map[], family) == {}
  {
    hide RoleFamily;
  }

  lemma FirstPass(all: seq<Requirement>, i: nat, j: nat)
    requires Sampled(all, i, j)
    ensures Reconciled(map[], false, [], all) == map[all[j].role := "a"]
  {
    hide Fill, RoleFamily, Count, UsedIn;
    var family := RoleFamily(all[i].role);
    var none: map<string, string> := map[];
    assert Current(Merged(none, false, [], all), [], all) == none;
    FillSplit([], none, all, all, j);
    FillSplit([], none, all[..j], all, i);
    FillIdle([], none, all[..j][..i], all);
    UsedAtStart(family);
    FreeOf({});
    assert Placed([], none, all[i], all) == none;
    FillIdle([], none, all[..j][i + 1..], all);
    assert all[..j][i] == all[i];
    assert Fill([], none, all[..j], all) == none;
    assert Placed([], none, all[j], all) == map[all[j].role := "a"];
    FillIdle([], map[all[j].role := "a"], all[j + 1..], all);
  }

  lemma SecondPass(all: seq<Requirement>, i: nat, j: nat)
    requires Sampled(all, i, j)
    requires forall k :: 0 <= k < |all| && all[k].role == all[j].role ==> k == j
    ensures var r := Reconciled(map[all[j].role := "a"], true, [], all); all[i].role in r
  {
    hide Fill, RoleFamily, Count, UsedIn;
    var family := RoleFamily(all[i].role);
    var m := map[all[j].role := "a"];
    assert IsRequired(all, all[j].role) && "a" in all[j].candidates;
    assert Merged(m, true, [], all) == m && Stays(m, all[j].role, [], all);
    assert Current(m, [], all) == m;
    FillSplit([], m, all, all, i);
    FillIdle([], m, all[..i], all);
    UsedAtStart(family);
    UsedPlaced([], map[], all[j].role, "a", family);
    assert m == map[][all[j].role := "a"];
    assert UsedIn([], m, family) == {"a"};
    FreeOf({"a"});
    assert all[i].role in Placed([], m, all[i], all);
    FillPicks([], Placed([], m, all[i], all), all[i + 1..], all);
  }
}

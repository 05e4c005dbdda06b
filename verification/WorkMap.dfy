/** The work map: which root every open task belongs under, found by following parent links. */
module WorkMap {
  import opened Basics

  /**
  A queue item; an absent parent and an empty parent id are both falsy, written "" here. `urgency` is the
  priority of its status, `updated` and `place` the ranks of its update time and its id in the collation.
  */
  datatype Item = Item(id: string, parent: string, urgency: int, updated: int, place: int, detail: string)

  datatype Resolution = Under(root: string) | MissingParent | Cycle

  datatype Orphan = Orphan(item: Item, cyclic: bool)

  datatype WorkMap = WorkMap(groups: seq<seq<Item>>, orphans: seq<Orphan>)

  type Table = map<string, Item>

  /** `new Map(children.map(…))`: of several items with one id the last is kept. */
  function TableOf(children: seq<Item>): Table {
    if children == [] then map[]
    else
      var last := children[|children| - 1];
      TableOf(children[..|children| - 1])[last.id := last]
  }

  // ---- Resolving one child ----

  /** The walk along parent links, with the ids already visited. */
  function Walk(parent: string, visited: set<string>, roots: set<string>, table: Table): Resolution
    decreases table.Keys - visited
  {
    if parent == "" then MissingParent
    else if parent in roots then Under(parent)
    else if parent in visited then Cycle
    else if parent !in table then MissingParent
    else
      assert parent in table.Keys - visited && parent !in table.Keys - (visited + {parent});
      Walk(table[parent].parent, visited + {parent}, roots, table)
  }

  function Resolve(child: Item, roots: set<string>, table: Table): Resolution {
    Walk(child.parent, {child.id}, roots, table)
  }

  method ResolveRoot(child: Item, roots: set<string>, table: Table) returns (r: Resolution)
    ensures r == Resolve(child, roots, table)
  {
    var visited, parent := {child.id}, child.parent;
    while parent != ""
      invariant Walk(parent, visited, roots, table) == Resolve(child, roots, table)
      decreases table.Keys - visited
    {
      if parent in roots {
        return Under(parent);
      }
      if parent in visited {
        return Cycle;
      }
      if parent !in table {
        return MissingParent;
      }
      assert parent in table.Keys - visited && parent !in table.Keys - (visited + {parent});
      visited, parent := visited + {parent}, table[parent].parent;
    }
    r := MissingParent;
  }

  /** The `k`-th ancestor by parent links; "" once the chain has ended. */
  function Link(child: Item, table: Table, k: nat): string {
    if k == 0 then child.parent
    else
      var p := Link(child, table, k - 1);
      if p == "" || p !in table then "" else table[p].parent
  }

  /** The first root on the chain is its `k`-th ancestor. */
  predicate FirstRootAt(child: Item, roots: set<string>, table: Table, k: nat) {
    && Link(child, table, k) != "" && Link(child, table, k) in roots
    && forall j :: 0 <= j < k ==> Link(child, table, j) !in roots
  }

  /** The chain has a `k`-th ancestor, and it is no root. */
  predicate Live(child: Item, roots: set<string>, table: Table, k: nat) {
    Link(child, table, k) != "" && Link(child, table, k) !in roots
  }

  /** The chain goes on forever without meeting a root: it can only be going round in a circle. */
  ghost predicate CirclesForever(child: Item, roots: set<string>, table: Table) {
    forall k: nat :: Live(child, roots, table, k)
  }

  /** The ids visited before the `k`-th ancestor is looked at. */
  function VisitedBefore(child: Item, table: Table, k: nat): set<string> {
    if k == 0 then {child.id} else VisitedBefore(child, table, k - 1) + {Link(child, table, k - 1)}
  }

  /** Nothing decides the walk before its `k`-th ancestor. */
  predicate Undecided(child: Item, roots: set<string>, table: Table, k: nat) {
    forall j :: 0 <= j < k ==>
      var p := Link(child, table, j);
      p != "" && p !in roots && p !in VisitedBefore(child, table, j) && p in table
  }

  lemma NothingVisited(child: Item, table: Table)
    ensures VisitedBefore(child, table, 0) == {child.id} && Link(child, table, 0) == child.parent
  {
  }

  lemma VisitedOneMore(child: Item, table: Table, k: nat)
    requires k > 0
    ensures VisitedBefore(child, table, k) == VisitedBefore(child, table, k - 1) + {Link(child, table, k - 1)}
    ensures var p := Link(child, table, k - 1);
      p != "" && p in table ==> Link(child, table, k) == table[p].parent
  {
  }

  lemma {:induction false} WalkFrom(child: Item, roots: set<string>, table: Table, k: nat)
    requires Undecided(child, roots, table, k)
    ensures Walk(Link(child, table, k), VisitedBefore(child, table, k), roots, table) == Resolve(child, roots, table)
  {
    hide Link, VisitedBefore;
    if k == 0 {
      NothingVisited(child, table);
    } else {
      VisitedOneMore(child, table, k);
      WalkFrom(child, roots, table, k - 1);
    }
  }

  /** Every walk is decided at some ancestor. */
  lemma {:induction false} DecidedSomewhere(child: Item, roots: set<string>, table: Table, k: nat) returns (d: nat)
    requires Undecided(child, roots, table, k)
    ensures Undecided(child, roots, table, d)
    ensures var p := Link(child, table, d); p == "" || p in roots || p in VisitedBefore(child, table, d) || p !in table
    decreases table.Keys - VisitedBefore(child, table, k)
  {
    hide Link;
    var p := Link(child, table, k);
    if p == "" || p in roots || p in VisitedBefore(child, table, k) || p !in table {
      d := k;
    } else {
      assert p in table.Keys - VisitedBefore(child, table, k) && p in VisitedBefore(child, table, k + 1);
      d := DecidedSomewhere(child, roots, table, k + 1);
    }
  }

  /** The row the table holds for the child's own id is the child. */
  predicate IsListed(child: Item, table: Table) {
    child.id in table && table[child.id] == child
  }

  lemma {:induction false} VisitedWasALink(child: Item, table: Table, k: nat, p: string) returns (i: int)
    requires p in VisitedBefore(child, table, k)
    ensures -1 <= i < k && (if i == -1 then p == child.id else Link(child, table, i) == p)
  {
    if k == 0 {
      i := -1;
    } else if p == Link(child, table, k - 1) {
      i := k - 1;
    } else {
      i := VisitedWasALink(child, table, k - 1, p);
    }
  }

  /** After a repetition the chain runs through the same ids again. */
  lemma {:induction false} ChainRepeats(child: Item, table: Table, i: nat, d: nat, n: nat)
    requires i < d && Link(child, table, i) == Link(child, table, d)
    ensures Link(child, table, d + n) == Link(child, table, i + n)
  {
    if n > 0 {
      ChainRepeats(child, table, i, d, n - 1);
    }
  }

  /** A chain that meets one of its own links again before it ends or meets a root never does either. */
  lemma {:induction false} RepetitionCirclesForever(child: Item, roots: set<string>, table: Table,
                                                    i: nat, d: nat, k: nat)
    requires i < d && forall j :: 0 <= j < d ==> Live(child, roots, table, j)
    requires Link(child, table, i) == Link(child, table, d)
    ensures Live(child, roots, table, k)
  {
    hide Link, VisitedBefore;
    if k >= d {
      ChainRepeats(child, table, i, d, k - d);
      RepetitionCirclesForever(child, roots, table, i, d, i + (k - d));
    }
  }

  /** The answer is the first root the parent links reach, or a cycle if they go round forever, and only then. */
  ghost predicate IsExact(child: Item, roots: set<string>, table: Table) {
    && (forall r :: Resolve(child, roots, table) == Under(r) <==>
          exists k: nat :: FirstRootAt(child, roots, table, k) && Link(child, table, k) == r)
    && (Resolve(child, roots, table) == Cycle <==> CirclesForever(child, roots, table))
  }

  /** The walk is decided at its `d`-th ancestor, by finding itself back at the child's own id. */
  predicate BackAtSelf(child: Item, roots: set<string>, table: Table, d: nat) {
    && Undecided(child, roots, table, d)
    && Link(child, table, d) == child.id && child.id != "" && child.id !in roots
  }

  /** Nothing is undecided past the ancestor that decides. */
  lemma OneDecision(child: Item, roots: set<string>, table: Table, d: nat, e: nat)
    requires Undecided(child, roots, table, d) && BackAtSelf(child, roots, table, e)
    requires var p := Link(child, table, d);
      p == "" || p in roots || p in VisitedBefore(child, table, d) || p !in table
    ensures d == e
  {
    OwnIdIsVisited(child, table, e);
  }

  lemma {:induction false} OwnIdIsVisited(child: Item, table: Table, k: nat)
    ensures child.id in VisitedBefore(child, table, k)
  {
    if k > 0 {
      OwnIdIsVisited(child, table, k - 1);
    }
  }

  /**
  When resolution is exact, for every child, root set and table: unless the links come back to the
  child's own id although they do not go round forever from there.
  */
  lemma ResolutionIsExact(child: Item, roots: set<string>, table: Table)
    ensures IsExact(child, roots, table) <==>
      ((exists d: nat :: BackAtSelf(child, roots, table, d)) ==> CirclesForever(child, roots, table))
  {
    hide Link, VisitedBefore;
    var d := DecidedSomewhere(child, roots, table, 0);
    WalkFrom(child, roots, table, d);
    var p := Link(child, table, d);
    forall e: nat | BackAtSelf(child, roots, table, e)
      ensures p == child.id && p != "" && p !in roots
    {
      OneDecision(child, roots, table, d, e);
    }
    if p in VisitedBefore(child, table, d) && p != "" && p !in roots {
      var i := VisitedWasALink(child, table, d, p);
      if i >= 0 {
        forall k: nat
          ensures Live(child, roots, table, k)
        {
          RepetitionCirclesForever(child, roots, table, i, d, k);
        }
      } else {
        assert BackAtSelf(child, roots, table, d);
      }
      AnsweredCycle(child, roots, table);
    } else {
      OwnIdIsVisited(child, table, d);
      DecidedOtherwise(child, roots, table, d);
    }
  }

  /** A walk that ends at a visited id answers "cycle", rightly if the chain has no end and no root. */
  lemma AnsweredCycle(child: Item, roots: set<string>, table: Table)
    requires Resolve(child, roots, table) == Cycle
    ensures IsExact(child, roots, table) <==> CirclesForever(child, roots, table)
  {
    hide Link, Resolve;
    if CirclesForever(child, roots, table) {
      forall k: nat
        ensures !FirstRootAt(child, roots, table, k)
      {
        assert Live(child, roots, table, k);
      }
    }
  }

  lemma DecidedOtherwise(child: Item, roots: set<string>, table: Table, d: nat)
    requires Undecided(child, roots, table, d)
    requires var p := Link(child, table, d);
      p == "" || p in roots || (p !in VisitedBefore(child, table, d) && p !in table)
    ensures IsExact(child, roots, table)
  {
    hide Link, VisitedBefore;
    WalkFrom(child, roots, table, d);
    var p := Link(child, table, d);
    if p == "" {
      ChainEnded(child, roots, table, d);
    } else if p in roots {
      assert FirstRootAt(child, roots, table, d);
      FirstRootIsUnique(child, roots, table, d);
    } else {
      LinkOutside(child, table, d);
      ChainEnded(child, roots, table, d + 1);
    }
  }

  lemma LinkOutside(child: Item, table: Table, d: nat)
    requires Link(child, table, d) !in table
    ensures Link(child, table, d + 1) == ""
  {
  }

  lemma FirstRootIsUnique(child: Item, roots: set<string>, table: Table, d: nat)
    requires FirstRootAt(child, roots, table, d)
    ensures forall k: nat :: FirstRootAt(child, roots, table, k) ==> k == d
    ensures !CirclesForever(child, roots, table)
  {
    assert !Live(child, roots, table, d);
  }

  lemma {:induction false} StaysEnded(child: Item, table: Table, d: nat, k: nat)
    requires Link(child, table, d) == "" && d <= k
    ensures Link(child, table, k) == ""
    decreases k
  {
    if d < k {
      StaysEnded(child, table, d, k - 1);
    }
  }

  lemma ChainEnded(child: Item, roots: set<string>, table: Table, d: nat)
    requires Link(child, table, d) == "" && forall j :: 0 <= j < d ==> Link(child, table, j) !in roots
    ensures forall k: nat :: !FirstRootAt(child, roots, table, k)
    ensures !CirclesForever(child, roots, table)
  {
    assert !Live(child, roots, table, d);
    forall k: nat
      ensures !FirstRootAt(child, roots, table, k)
    {
      if k >= d {
        StaysEnded(child, table, d, k);
      }
    }
  }

  // ---- The condition, as a caller can check it ----

  /** The id at which the walk stops. */
  function StopOf(parent: string, visited: set<string>, roots: set<string>, table: Table): string
    decreases table.Keys - visited
  {
    if parent == "" || parent in roots || parent in visited || parent !in table then parent
    else
      assert parent in table.Keys - visited && parent !in table.Keys - (visited + {parent});
      StopOf(table[parent].parent, visited + {parent}, roots, table)
  }

  /** The walk stops at the child's own id, which is an id and no root's. */
  predicate ComesBack(child: Item, roots: set<string>, table: Table) {
    child.id != "" && child.id !in roots && StopOf(child.parent, {child.id}, roots, table) == child.id
  }

  lemma {:induction false} StopFrom(child: Item, roots: set<string>, table: Table, k: nat)
    requires Undecided(child, roots, table, k)
    ensures StopOf(Link(child, table, k), VisitedBefore(child, table, k), roots, table)
            == StopOf(child.parent, {child.id}, roots, table)
  {
    hide Link, VisitedBefore;
    if k == 0 {
      NothingVisited(child, table);
    } else {
      VisitedOneMore(child, table, k);
      StopFrom(child, roots, table, k - 1);
    }
  }

  lemma ComingBackIsChecked(child: Item, roots: set<string>, table: Table)
    ensures ComesBack(child, roots, table) <==> exists d: nat :: BackAtSelf(child, roots, table, d)
  {
    hide Link, VisitedBefore;
    var d := DecidedSomewhere(child, roots, table, 0);
    WalkFrom(child, roots, table, d);
    StopFrom(child, roots, table, d);
    OwnIdIsVisited(child, table, d);
    forall e: nat | BackAtSelf(child, roots, table, e)
      ensures d == e
    {
      OneDecision(child, roots, table, d, e);
    }
    assert ComesBack(child, roots, table) ==> BackAtSelf(child, roots, table, d);
  }

  /** From its own id the chain goes on as that of the row the table lists under the id. */
  lemma {:induction false} ChainFromSelf(child: Item, roots: set<string>, table: Table, d: nat, k: nat)
    requires BackAtSelf(child, roots, table, d) && child.id in table
    ensures Link(child, table, d + 1 + k) == Link(table[child.id], table, k)
  {
    if k > 0 {
      ChainFromSelf(child, roots, table, d, k - 1);
    }
  }

  lemma CircleFromSelf(child: Item, roots: set<string>, table: Table, d: nat)
    requires BackAtSelf(child, roots, table, d) && child.id in table
    ensures CirclesForever(child, roots, table) <==> CirclesForever(table[child.id], roots, table)
  {
    hide Link, VisitedBefore;
    var last := table[child.id];
    forall k: nat
      ensures Link(child, table, d + 1 + k) == Link(last, table, k)
    {
      ChainFromSelf(child, roots, table, d, k);
    }
    if CirclesForever(last, roots, table) {
      forall k: nat
        ensures Live(child, roots, table, k)
      {
        if k > d {
          assert Live(last, roots, table, k - d - 1);
          assert Link(child, table, d + 1 + (k - d - 1)) == Link(last, table, k - d - 1);
        }
      }
    }
    if CirclesForever(child, roots, table) {
      forall k: nat
        ensures Live(last, roots, table, k)
      {
        assert Live(child, roots, table, d + 1 + k);
      }
    }
  }

  /** A child whose id the table lists with the same parent is resolved exactly. */
  lemma SameParentIsExact(child: Item, roots: set<string>, table: Table)
    requires child.id in table && table[child.id].parent == child.parent
    ensures IsExact(child, roots, table)
  {
    hide VisitedBefore, IsExact;
    ResolutionIsExact(child, roots, table);
    if d: nat :| BackAtSelf(child, roots, table, d) {
      ChainFromSelf(child, roots, table, d, 0);
      forall k: nat
        ensures Live(child, roots, table, k)
      {
        RepetitionCirclesForever(child, roots, table, 0, d + 1, k);
      }
    }
  }

  lemma {:induction false} TableHoldsEveryId(children: seq<Item>, i: nat)
    requires i < |children|
    ensures children[i].id in TableOf(children) && TableOf(children)[children[i].id].id == children[i].id
    decreases |children|
  {
    if i < |children| - 1 {
      TableHoldsEveryId(children[..|children| - 1], i);
    }
  }

  /**
  A child of the list is resolved wrongly exactly when the walk comes back to its own id although the
  row last listed under that id does not itself go round; that row then has another parent.
  */
  lemma WrongExactlyWhenAnotherRowEscapes(children: seq<Item>, i: nat, roots: set<string>)
    requires i < |children|
    ensures var child, table := children[i], TableOf(children);
      && child.id in table
      && (!IsExact(child, roots, table) <==>
            ComesBack(child, roots, table) && Resolve(table[child.id], roots, table) != Cycle)
      && (!IsExact(child, roots, table) ==> table[child.id].parent != child.parent)
  {
    hide TableOf, ComesBack, BackAtSelf, Resolve;
    var child, table := children[i], TableOf(children);
    TableHoldsEveryId(children, i);
    var last := table[child.id];
    SameParentIsExact(last, roots, table);
    ResolutionIsExact(child, roots, table);
    ComingBackIsChecked(child, roots, table);
    if d: nat :| BackAtSelf(child, roots, table, d) {
      CircleFromSelf(child, roots, table, d);
    }
    if last.parent == child.parent {
      SameParentIsExact(child, roots, table);
    }
  }

  /** Every child is its own row, hence resolved exactly, when the children's ids are distinct. */
  lemma {:induction false} DistinctChildrenAreListed(children: seq<Item>, i: nat)
    requires i < |children| && forall j, k :: 0 <= j < k < |children| ==> children[j].id != children[k].id
    ensures IsListed(children[i], TableOf(children))
    decreases |children|
  {
    if i < |children| - 1 {
      DistinctChildrenAreListed(children[..|children| - 1], i);
    }
  }

  lemma DistinctChildrenAreExact(children: seq<Item>, i: nat, roots: set<string>)
    requires i < |children| && forall j, k :: 0 <= j < k < |children| ==> children[j].id != children[k].id
    ensures IsExact(children[i], roots, TableOf(children))
  {
    DistinctChildrenAreListed(children, i);
    SameParentIsExact(children[i], roots, TableOf(children));
  }

  /** The condition is needed: a later item with the same id can hide a root that the links do reach. */
  lemma DuplicateIdHidesARoot()
    ensures var shown, other, again :=
        Item("a", "b", 0, 0, 0, ""), Item("b", "a", 0, 0, 1, ""), Item("a", "r", 0, 0, 0, "");
      var table := map["a" := again, "b" := other];
      && TableOf([shown, other, again]) == table
      && Resolve(shown, {"r"}, table) == Cycle && FirstRootAt(shown, {"r"}, table, 2)
      && !IsExact(shown, {"r"}, table)
  {
    var shown, other, again :=
      Item("a", "b", 0, 0, 0, ""), Item("b", "a", 0, 0, 1, ""), Item("a", "r", 0, 0, 0, "");
    var table := map["a" := again, "b" := other];
    assert TableOf([shown]) == map["a" := shown] by { assert [shown][..0] == []; }
    assert TableOf([shown, other]) == map["a" := shown, "b" := other] by { assert [shown, other][..1] == [shown]; }
    assert [shown, other, again][..2] == [shown, other];
    assert Link(shown, table, 0) == "b" && Link(shown, table, 1) == "a" && Link(shown, table, 2) == "r";
    assert Walk("a", {"a"} + {"b"}, {"r"}, table) == Cycle;
    assert FirstRootAt(shown, {"r"}, table, 2) && Resolve(shown, {"r"}, table) != Under("r");
  }

  // ---- Assembling the map ----

  /** The children that resolve to one root, in order. */
  function Group(children: seq<Item>, root: string, roots: set<string>, table: Table): seq<Item> {
    if children == [] then []
    else
      var c := children[|children| - 1];
      Group(children[..|children| - 1], root, roots, table)
      + (if Resolve(c, roots, table) == Under(root) then [c] else [])
  }

  function Orphans(children: seq<Item>, roots: set<string>, table: Table): seq<Orphan> {
    if children == [] then []
    else
      var c := children[|children| - 1];
      var r := Resolve(c, roots, table);
      Orphans(children[..|children| - 1], roots, table) + (if r.Under? then [] else [Orphan(c, r.Cycle?)])
  }

  function OrphanItems(orphans: seq<Orphan>): seq<Item> {
    seq(|orphans|, i requires 0 <= i < |orphans| => orphans[i].item)
  }

  /** Everything shown under the given roots. */
  function Shown(children: seq<Item>, ids: seq<string>, roots: set<string>, table: Table): multiset<Item> {
    if ids == [] then multiset{}
    else Shown(children, ids[..|ids| - 1], roots, table) + multiset(Group(children, ids[|ids| - 1], roots, table))
  }

  function OrphanBag(children: seq<Item>, roots: set<string>, table: Table): multiset<Item> {
    multiset(OrphanItems(Orphans(children, roots, table)))
  }

  predicate Distinct(ids: seq<string>) {
    forall i, j :: 0 <= i < j < |ids| ==> ids[i] != ids[j]
  }

  function SetOf(ids: seq<string>): set<string> {
    set i | i in ids
  }

  lemma GroupOneMore(children: seq<Item>, c: Item, root: string, roots: set<string>, table: Table)
    ensures Group(children + [c], root, roots, table) ==
      Group(children, root, roots, table) + (if Resolve(c, roots, table) == Under(root) then [c] else [])
  {
    assert (children + [c])[..|children|] == children;
  }

  lemma OrphansOneMore(children: seq<Item>, c: Item, roots: set<string>, table: Table)
    ensures Orphans(children + [c], roots, table) == Orphans(children, roots, table)
      + (if Resolve(c, roots, table).Under? then [] else [Orphan(c, Resolve(c, roots, table).Cycle?)])
  {
    assert (children + [c])[..|children|] == children;
  }

  lemma BagOneMore(items: seq<Item>, c: Item)
    ensures multiset(items + [c]) == multiset(items) + multiset{c}
  {
  }

  lemma OrphanBagOneMore(children: seq<Item>, c: Item, roots: set<string>, table: Table)
    ensures OrphanBag(children + [c], roots, table) ==
      OrphanBag(children, roots, table) + (if Resolve(c, roots, table).Under? then multiset{} else multiset{c})
  {
    hide Orphans, Resolve;
    OrphansOneMore(children, c, roots, table);
    var before := Orphans(children, roots, table);
    if Resolve(c, roots, table).Under? {
      assert before + [] == before;
    } else {
      var o := Orphan(c, Resolve(c, roots, table).Cycle?);
      assert OrphanItems(before + [o]) == OrphanItems(before) + [c];
      BagOneMore(OrphanItems(before), c);
    }
  }

  lemma {:induction false} GroupCount(children: seq<Item>, root: string, roots: set<string>, table: Table, x: Item)
    ensures multiset(Group(children, root, roots, table))[x] ==
      if Resolve(x, roots, table) == Under(root) then multiset(children)[x] else 0
    decreases |children|
  {
    if children != [] {
      hide Group, Resolve;
      var rest, c := children[..|children| - 1], children[|children| - 1];
      assert children == rest + [c];
      GroupCount(rest, root, roots, table, x);
      GroupOneMore(rest, c, root, roots, table);
      BagOneMore(rest, c);
    }
  }

  lemma {:induction false} OrphanCount(children: seq<Item>, roots: set<string>, table: Table, x: Item)
    ensures OrphanBag(children, roots, table)[x] == if Resolve(x, roots, table).Under? then 0 else multiset(children)[x]
    decreases |children|
  {
    if children == [] {
      assert Orphans([], roots, table) == [];
    } else {
      hide OrphanBag, Resolve;
      var rest, c := children[..|children| - 1], children[|children| - 1];
      assert children == rest + [c];
      OrphanCount(rest, roots, table, x);
      OrphanBagOneMore(rest, c, roots, table);
      BagOneMore(rest, c);
    }
  }

  /** How often an item is shown under roots with the given ids. */
  function TimesShown(children: seq<Item>, ids: seq<string>, r: Resolution, x: Item): nat {
    if r.Under? then multiset(children)[x] * multiset(ids)[r.root] else 0
  }

  lemma TimesShownOneMore(children: seq<Item>, ids: seq<string>, last: string, r: Resolution, x: Item)
    ensures TimesShown(children, ids + [last], r, x) ==
      TimesShown(children, ids, r, x) + (if r == Under(last) then multiset(children)[x] else 0)
  {
    if r.Under? {
      assert multiset(ids + [last])[r.root] == multiset(ids)[r.root] + (if r.root == last then 1 else 0);
    }
  }

  /** Every occurrence of a child is shown once for each root that bears the id it resolves to. */
  lemma {:induction false} ShownCount(children: seq<Item>, ids: seq<string>, roots: set<string>, table: Table, x: Item)
    ensures Shown(children, ids, roots, table)[x] == TimesShown(children, ids, Resolve(x, roots, table), x)
    decreases |ids|
  {
    hide Group, Resolve;
    if ids != [] {
      hide TimesShown;
      var rest, last := ids[..|ids| - 1], ids[|ids| - 1];
      ShownCount(children, rest, roots, table, x);
      GroupCount(children, last, roots, table, x);
      TimesShownOneMore(children, rest, last, Resolve(x, roots, table), x);
      assert ids == rest + [last];
    }
  }

  /** Every child appears exactly once in the map if and only if none resolves to an id that two roots share. */
  lemma AppearsOnceExactlyWhen(children: seq<Item>, ids: seq<string>, table: Table)
    ensures Shown(children, ids, SetOf(ids), table) + OrphanBag(children, SetOf(ids), table) == multiset(children)
      <==> forall c :: c in children && Resolve(c, SetOf(ids), table).Under? ==>
             multiset(ids)[Resolve(c, SetOf(ids), table).root] == 1
  {
    hide Shown, OrphanBag, Resolve;
    var roots := SetOf(ids);
    var all := Shown(children, ids, roots, table) + OrphanBag(children, roots, table);
    forall x: Item
      ensures var r := Resolve(x, roots, table);
        all[x] == if r.Under? then multiset(children)[x] * multiset(ids)[r.root] else multiset(children)[x]
    {
      ShownCount(children, ids, roots, table, x);
      OrphanCount(children, roots, table, x);
    }
    if all == multiset(children) {
      forall c | c in children && Resolve(c, roots, table).Under?
        ensures multiset(ids)[Resolve(c, roots, table).root] == 1
      {
        OnlyOneKeeps(multiset(children)[c], multiset(ids)[Resolve(c, roots, table).root]);
      }
    } else {
      var x :| all[x] != multiset(children)[x];
      assert x in children;
    }
  }

  lemma OnlyOneKeeps(m: nat, n: nat)
    requires m > 0 && m * n == m
    ensures n == 1
  {
    assert m * (n - 1) == 0;
  }

  /** So it does when the roots' ids are distinct. */
  lemma EveryChildAppearsOnce(children: seq<Item>, ids: seq<string>, table: Table)
    requires Distinct(ids)
    ensures Shown(children, ids, SetOf(ids), table) + OrphanBag(children, SetOf(ids), table) == multiset(children)
  {
    forall c | c in children && Resolve(c, SetOf(ids), table).Under?
      ensures multiset(ids)[Resolve(c, SetOf(ids), table).root] == 1
    {
      WalkEndsAtARoot(c.parent, {c.id}, SetOf(ids), table);
      DistinctCount(ids, Resolve(c, SetOf(ids), table).root);
    }
    AppearsOnceExactlyWhen(children, ids, table);
  }

  /** The condition is needed: two roots with one id both show the same child. */
  lemma SharedRootIdShowsTwice()
    ensures var child, ids := Item("c", "r", 0, 0, 0, ""), ["r", "r"];
      var table := TableOf([child]);
      && Resolve(child, SetOf(ids), table) == Under("r")
      && Shown([child], ids, SetOf(ids), table)[child] == 2
      && Shown([child], ids, SetOf(ids), table) + OrphanBag([child], SetOf(ids), table) != multiset([child])
  {
    hide Shown, OrphanBag, TableOf;
    var child, ids := Item("c", "r", 0, 0, 0, ""), ["r", "r"];
    var table := TableOf([child]);
    ShownCount([child], ids, SetOf(ids), table, child);
    assert multiset(ids)["r"] == 2 && multiset([child])[child] == 1;
    assert (Shown([child], ids, SetOf(ids), table) + OrphanBag([child], SetOf(ids), table))[child] >= 2;
  }

  lemma {:induction false} WalkEndsAtARoot(parent: string, visited: set<string>, roots: set<string>, table: Table)
    ensures var r := Walk(parent, visited, roots, table); r.Under? ==> r.root in roots
    decreases table.Keys - visited
  {
    if parent != "" && parent !in roots && parent !in visited && parent in table {
      assert parent in table.Keys - visited && parent !in table.Keys - (visited + {parent});
      WalkEndsAtARoot(table[parent].parent, visited + {parent}, roots, table);
    }
  }

  lemma {:induction false} DistinctCount(ids: seq<string>, r: string)
    requires Distinct(ids)
    ensures multiset(ids)[r] == if r in ids then 1 else 0
    decreases |ids|
  {
    if ids != [] {
      var rest, last := ids[..|ids| - 1], ids[|ids| - 1];
      assert ids == rest + [last];
      DistinctCount(rest, r);
    }
  }

  // ---- Display order ----

  /** `compareAssignments`: by priority of status, then latest update first, then id. */
  function Compare(a: Item, b: Item): int {
    if a.urgency != b.urgency then a.urgency - b.urgency
    else if a.updated != b.updated then b.updated - a.updated
    else a.place - b.place
  }

  predicate InOrder(items: seq<Item>) {
    forall i, j :: 0 <= i < j < |items| ==> Compare(items[i], items[j]) <= 0
  }

  /** The item goes behind all that do not come after it, so equal items keep their order. */
  function Placed(items: seq<Item>, c: Item): seq<Item> {
    if items == [] || Compare(items[|items| - 1], c) <= 0 then items + [c]
    else Placed(items[..|items| - 1], c) + [items[|items| - 1]]
  }

  /** `sortAssignments` */
  function Sorted(items: seq<Item>): seq<Item> {
    if items == [] then [] else Placed(Sorted(items[..|items| - 1]), items[|items| - 1])
  }

  predicate NoneAfter(items: seq<Item>, c: Item) {
    forall x :: x in items ==> Compare(x, c) <= 0
  }

  lemma OrderOneMore(items: seq<Item>, c: Item)
    ensures InOrder(items + [c]) <==> InOrder(items) && NoneAfter(items, c)
  {
    hide Compare;
    var more := items + [c];
    if InOrder(more) {
      forall i, j | 0 <= i < j < |items|
        ensures Compare(items[i], items[j]) <= 0
      {
        assert items[i] == more[i] && items[j] == more[j];
      }
      forall x | x in items
        ensures Compare(x, c) <= 0
      {
        var i :| 0 <= i < |items| && items[i] == x;
        assert more[i] == x && more[|items|] == c;
      }
    }
  }

  lemma NoneAfterLast(items: seq<Item>, last: Item, c: Item)
    requires NoneAfter(items, last) && Compare(last, c) <= 0
    ensures NoneAfter(items + [last], c)
  {
  }

  lemma {:induction false} PlacedIsInOrder(items: seq<Item>, c: Item)
    requires InOrder(items)
    ensures InOrder(Placed(items, c)) && multiset(Placed(items, c)) == multiset(items) + multiset{c}
    decreases |items|
  {
    hide InOrder, NoneAfter;
    if items == [] {
      OrderOneMore(items, c);
      assert NoneAfter([], c) by { NobodyAfter(c); }
    } else {
      var rest, last := items[..|items| - 1], items[|items| - 1];
      assert items == rest + [last];
      OrderOneMore(rest, last);
      if Compare(last, c) <= 0 {
        NoneAfterLast(rest, last, c);
        OrderOneMore(items, c);
      } else {
        PlacedIsInOrder(rest, c);
        AlsoBefore(rest, Placed(rest, c), c, last);
        OrderOneMore(Placed(rest, c), last);
      }
    }
  }

  lemma NobodyAfter(c: Item)
    ensures NoneAfter([], c)
  {
  }

  lemma AlsoBefore(rest: seq<Item>, more: seq<Item>, c: Item, last: Item)
    requires NoneAfter(rest, last) && Compare(last, c) > 0 && multiset(more) == multiset(rest) + multiset{c}
    ensures NoneAfter(more, last)
  {
    forall x | x in more
      ensures x in rest || x == c
    {
      assert x in multiset(more);
    }
  }

  /** Sorting loses nothing and puts every pair in order. */
  lemma {:induction false} SortedIsAPermutationInOrder(items: seq<Item>)
    ensures InOrder(Sorted(items)) && multiset(Sorted(items)) == multiset(items)
    decreases |items|
  {
    if items != [] {
      var rest, last := items[..|items| - 1], items[|items| - 1];
      assert items == rest + [last];
      SortedIsAPermutationInOrder(rest);
      PlacedIsInOrder(Sorted(rest), last);
    }
  }

  /** The orphans sorted by their items. */
  function PlacedOrphan(orphans: seq<Orphan>, o: Orphan): seq<Orphan> {
    if orphans == [] || Compare(orphans[|orphans| - 1].item, o.item) <= 0 then orphans + [o]
    else PlacedOrphan(orphans[..|orphans| - 1], o) + [orphans[|orphans| - 1]]
  }

  function SortedOrphans(orphans: seq<Orphan>): seq<Orphan> {
    if orphans == [] then [] else PlacedOrphan(SortedOrphans(orphans[..|orphans| - 1]), orphans[|orphans| - 1])
  }

  lemma {:induction false} OrphanPlacedAsItem(orphans: seq<Orphan>, o: Orphan)
    ensures OrphanItems(PlacedOrphan(orphans, o)) == Placed(OrphanItems(orphans), o.item)
    ensures multiset(PlacedOrphan(orphans, o)) == multiset(orphans) + multiset{o}
    decreases |orphans|
  {
    if orphans != [] {
      var rest, last := orphans[..|orphans| - 1], orphans[|orphans| - 1];
      assert orphans == rest + [last] && OrphanItems(orphans)[..|orphans| - 1] == OrphanItems(rest);
      OrphanPlacedAsItem(rest, o);
    }
  }

  /** Orphans are the same as before, each with its reason, in the order of their items. */
  lemma {:induction false} OrphansSortedAsItems(orphans: seq<Orphan>)
    ensures OrphanItems(SortedOrphans(orphans)) == Sorted(OrphanItems(orphans))
    ensures multiset(SortedOrphans(orphans)) == multiset(orphans)
    decreases |orphans|
  {
    if orphans != [] {
      var rest, last := orphans[..|orphans| - 1], orphans[|orphans| - 1];
      assert orphans == rest + [last] && OrphanItems(orphans)[..|orphans| - 1] == OrphanItems(rest);
      OrphansSortedAsItems(rest);
      OrphanPlacedAsItem(SortedOrphans(rest), last);
    }
  }

  // ---- The whole map ----

  /** All items a map shows, under its roots and as orphans. */
  function Contents(m: WorkMap): multiset<Item> {
    GroupContents(m.groups) + multiset(OrphanItems(m.orphans))
  }

  function GroupContents(groups: seq<seq<Item>>): multiset<Item> {
    if groups == [] then multiset{} else GroupContents(groups[..|groups| - 1]) + multiset(groups[|groups| - 1])
  }

  lemma {:induction false} GroupsShow(groups: seq<seq<Item>>, children: seq<Item>, ids: seq<string>, roots: set<string>,
                                      table: Table)
    requires |groups| == |ids|
    requires forall i :: 0 <= i < |ids| ==> groups[i] == Sorted(Group(children, ids[i], roots, table))
    ensures GroupContents(groups) == Shown(children, ids, roots, table)
    decreases |ids|
  {
    if ids != [] {
      hide Group, Sorted;
      GroupsShow(groups[..|ids| - 1], children, ids[..|ids| - 1], roots, table);
      SortedIsAPermutationInOrder(Group(children, ids[|ids| - 1], roots, table));
    }
  }

  lemma NothingGrouped(roots: set<string>, table: Table)
    ensures Orphans([], roots, table) == [] && forall id :: Group([], id, roots, table) == []
  {
  }

  /** `byParent.get(id) || []` */
  function Listed(byParent: map<string, seq<Item>>, id: string): seq<Item> {
    if id in byParent then byParent[id] else []
  }

  /** The loop over the children: those with a root by that root's id, the rest as orphans. */
  method GroupChildren(children: seq<Item>, rootIds: set<string>, table: Table)
    returns (byParent: map<string, seq<Item>>, orphans: seq<Orphan>)
    ensures orphans == Orphans(children, rootIds, table)
    ensures forall id :: Listed(byParent, id) == Group(children, id, rootIds, table)
  {
    hide Group, Orphans, Resolve;
    byParent, orphans := map[], [];
    NothingGrouped(rootIds, table);
    assert children[..0] == [];
    for i := 0 to |children|
      invariant orphans == Orphans(children[..i], rootIds, table)
      invariant forall id :: Listed(byParent, id) == Group(children[..i], id, rootIds, table)
    {
      var child := children[i];
      assert children[..i + 1] == children[..i] + [child];
      OrphansOneMore(children[..i], child, rootIds, table);
      forall id: string
        ensures Group(children[..i + 1], id, rootIds, table) == Group(children[..i], id, rootIds, table)
          + (if Resolve(child, rootIds, table) == Under(id) then [child] else [])
      {
        GroupOneMore(children[..i], child, id, rootIds, table);
      }
      var resolution := ResolveRoot(child, rootIds, table);
      if !resolution.Under? {
        orphans := orphans + [Orphan(child, resolution.Cycle?)];
      } else {
        byParent := byParent[resolution.root := Listed(byParent, resolution.root) + [child]];
      }
    }
    assert children[..|children|] == children;
  }

  /** `assembleWorkMap` */
  method AssembleWorkMap(roots: seq<Item>, children: seq<Item>) returns (m: WorkMap)
    ensures var ids := seq(|roots|, i requires 0 <= i < |roots| => roots[i].id); var table := TableOf(children);
      && |m.groups| == |roots|
      && (forall i :: 0 <= i < |roots| ==> m.groups[i] == Sorted(Group(children, roots[i].id, SetOf(ids), table)))
      && m.orphans == SortedOrphans(Orphans(children, SetOf(ids), table))
      && (Contents(m) == multiset(children) <==>
            forall c :: c in children && Resolve(c, SetOf(ids), table).Under? ==>
              multiset(ids)[Resolve(c, SetOf(ids), table).root] == 1)
      && (forall i, c :: 0 <= i < |roots| ==>
            (c in m.groups[i] <==> c in children && Resolve(c, SetOf(ids), table) == Under(roots[i].id)))
      && (forall o :: o in m.orphans <==>
            o.item in children && !Resolve(o.item, SetOf(ids), table).Under?
            && (o.cyclic <==> Resolve(o.item, SetOf(ids), table).Cycle?))
    ensures forall i :: 0 <= i < |m.groups| ==> IsDisplayed(m.groups[i])
    ensures IsDisplayed(OrphanItems(m.orphans))
  {
    hide Group, Orphans, Resolve, TableOf, Sorted, SortedOrphans, Shown;
    var ids := seq(|roots|, i requires 0 <= i < |roots| => roots[i].id);
    var rootIds, table := SetOf(ids), TableOf(children);
    var byParent, orphans := GroupChildren(children, rootIds, table);
    var groups: seq<seq<Item>> := [];
    for i := 0 to |roots|
      invariant |groups| == i
      invariant forall j :: 0 <= j < i ==> groups[j] == Sorted(Group(children, roots[j].id, rootIds, table))
    {
      groups := groups + [Sorted(Listed(byParent, roots[i].id))];
    }
    m := WorkMap(groups, SortedOrphans(orphans));
    GroupsShow(groups, children, ids, rootIds, table);
    OrphansSortedAsItems(orphans);
    SortedIsAPermutationInOrder(OrphanItems(orphans));
    AppearsOnceExactlyWhen(children, ids, table);
    forall i | 0 <= i < |roots|
      ensures IsDisplayed(groups[i])
      ensures forall c :: c in groups[i] <==> c in children && Resolve(c, rootIds, table) == Under(roots[i].id)
    {
      GroupInWords(children, roots[i].id, rootIds, table);
    }
    OrphansInWords(children, rootIds, table);
  }

  /** The more urgent first, of the equally urgent the one updated last, and then the one placed first. */
  predicate IsDisplayed(items: seq<Item>) {
    forall j, k :: 0 <= j < k < |items| ==>
      var a, b := items[j], items[k];
      || a.urgency < b.urgency
      || (a.urgency == b.urgency
          && (a.updated > b.updated || (a.updated == b.updated && a.place <= b.place)))
  }

  lemma GroupInWords(children: seq<Item>, root: string, roots: set<string>, table: Table)
    ensures var shown := Sorted(Group(children, root, roots, table));
      && IsDisplayed(shown)
      && forall c :: c in shown <==> c in children && Resolve(c, roots, table) == Under(root)
  {
    hide Group, Resolve, Sorted;
    var group := Group(children, root, roots, table);
    SortedIsAPermutationInOrder(group);
    forall c: Item
      ensures c in Sorted(group) <==> c in children && Resolve(c, roots, table) == Under(root)
    {
      GroupCount(children, root, roots, table, c);
      assert c in Sorted(group) <==> multiset(Sorted(group))[c] > 0;
      assert c in children <==> multiset(children)[c] > 0;
    }
  }

  lemma {:induction false} OrphansListed(children: seq<Item>, roots: set<string>, table: Table, o: Orphan)
    ensures o in Orphans(children, roots, table) <==>
      o.item in children && !Resolve(o.item, roots, table).Under?
      && (o.cyclic <==> Resolve(o.item, roots, table).Cycle?)
    decreases |children|
  {
    if children != [] {
      hide Orphans, Resolve;
      var rest, c := children[..|children| - 1], children[|children| - 1];
      assert children == rest + [c];
      OrphansListed(rest, roots, table, o);
      OrphansOneMore(rest, c, roots, table);
    }
  }

  lemma OrphansInWords(children: seq<Item>, roots: set<string>, table: Table)
    ensures var shown := SortedOrphans(Orphans(children, roots, table));
      && IsDisplayed(OrphanItems(shown))
      && forall o :: o in shown <==>
           o.item in children && !Resolve(o.item, roots, table).Under?
           && (o.cyclic <==> Resolve(o.item, roots, table).Cycle?)
  {
    hide Orphans, Resolve, Sorted, SortedOrphans;
    var orphans := Orphans(children, roots, table);
    OrphansSortedAsItems(orphans);
    SortedIsAPermutationInOrder(OrphanItems(orphans));
    forall o: Orphan
      ensures o in SortedOrphans(orphans) <==>
        o.item in children && !Resolve(o.item, roots, table).Under?
        && (o.cyclic <==> Resolve(o.item, roots, table).Cycle?)
    {
      OrphansListed(children, roots, table, o);
      assert o in SortedOrphans(orphans) <==> multiset(SortedOrphans(orphans))[o] > 0;
      assert o in orphans <==> multiset(orphans)[o] > 0;
    }
  }
}

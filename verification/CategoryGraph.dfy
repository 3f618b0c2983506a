/** The category table as a graph: each row names its parent, and the parents of a good table
    lead every row to a root. */
module CategoryGraph {
  datatype Category = Category(id: string, name: string, parentId: string, sortOrder: int)

  type Table = map<string, Category>

  /** The rows by id; a later row with the same id replaces an earlier one. */
  function ById(cats: seq<Category>): Table {
    if cats == [] then map[] else ById(cats[..|cats| - 1])[cats[|cats| - 1].id := cats[|cats| - 1]]
  }

  ghost predicate UniqueIds(cats: seq<Category>) {
    && (forall i, j | 0 <= i < j < |cats| :: cats[i].id != cats[j].id)
    && (forall i | 0 <= i < |cats| :: cats[i].id != "")
  }

  lemma {:induction false} ByIdRows(cats: seq<Category>)
    ensures forall id | id in ById(cats) :: ById(cats)[id] in cats && ById(cats)[id].id == id
  {
    if cats != [] {
      ByIdRows(cats[..|cats| - 1]);
    }
  }

  lemma LastApart(cats: seq<Category>)
    requires UniqueIds(cats) && cats != []
    ensures UniqueIds(cats[..|cats| - 1])
    ensures forall c | c in cats[..|cats| - 1] :: c.id != cats[|cats| - 1].id
  {
  }

  lemma {:induction false} ByIdIs(cats: seq<Category>)
    requires UniqueIds(cats)
    ensures forall c | c in cats :: c.id in ById(cats) && ById(cats)[c.id] == c
    ensures forall id | id in ById(cats) :: ById(cats)[id] in cats && ById(cats)[id].id == id
    ensures |ById(cats)| == |cats|
  {
    ByIdRows(cats);
    if cats != [] {
      var before, last := cats[..|cats| - 1], cats[|cats| - 1];
      LastApart(cats);
      ByIdIs(before);
      assert last.id !in ById(before);
      forall c | c in cats ensures c.id in ById(cats) && ById(cats)[c.id] == c {
        assert c in before || c == last;
      }
    }
  }

  /** The row is `d` parents below a root. */
  ghost predicate DepthIs(t: Table, id: string, d: nat)
    decreases d
  {
    id in t &&
    if d == 0 then t[id].parentId == "" else t[id].parentId != "" && DepthIs(t, t[id].parentId, d - 1)
  }

  /** The n-th ancestor; the 0-th is the row itself. */
  ghost function Ancestor(t: Table, id: string, d: nat, n: nat): string
    requires DepthIs(t, id, d) && n <= d
    decreases n
  {
    if n == 0 then id else Ancestor(t, t[id].parentId, d - 1, n - 1)
  }

  lemma {:induction false} AncestorDepth(t: Table, id: string, d: nat, n: nat)
    requires DepthIs(t, id, d) && n <= d
    ensures DepthIs(t, Ancestor(t, id, d, n), d - n)
    ensures n < d ==> t[Ancestor(t, id, d, n)].parentId == Ancestor(t, id, d, n + 1)
    decreases n
  {
    if n > 0 {
      AncestorDepth(t, t[id].parentId, d - 1, n - 1);
    }
  }

  lemma {:induction false} DepthUnique(t: Table, id: string, d: nat, e: nat)
    requires DepthIs(t, id, d) && DepthIs(t, id, e)
    ensures d == e
    decreases d
  {
    if d > 0 && e > 0 {
      DepthUnique(t, t[id].parentId, d - 1, e - 1);
    }
  }

  /** A row and its ancestors. */
  ghost function Chain(t: Table, id: string, d: nat): set<string>
    requires DepthIs(t, id, d)
    decreases d
  {
    if d == 0 then {id} else Chain(t, t[id].parentId, d - 1) + {id}
  }

  lemma {:induction false} ChainDepths(t: Table, id: string, d: nat)
    requires DepthIs(t, id, d)
    ensures Chain(t, id, d) <= t.Keys && |Chain(t, id, d)| == d + 1
    ensures forall x | x in Chain(t, id, d) :: DepthAtMost(t, x, d)
    decreases d
  {
    if d == 0 {
      assert DepthIs(t, id, 0);
    } else {
      var p := t[id].parentId;
      ChainDepths(t, p, d - 1);
      if id in Chain(t, p, d - 1) {
        var e: nat :| e <= d - 1 && DepthIs(t, id, e);
        DepthUnique(t, id, d, e);
      }
      forall x | x in Chain(t, id, d) ensures DepthAtMost(t, x, d) {
        if x in Chain(t, p, d - 1) {
          var e: nat :| e <= d - 1 && DepthIs(t, x, e);
          assert DepthIs(t, x, e);
        }
      }
    }
  }

  ghost predicate DepthAtMost(t: Table, id: string, d: nat) {
    exists e: nat | e <= d :: DepthIs(t, id, e)
  }

  /** No chain is longer than the table. */
  lemma DepthBound(t: Table, id: string, d: nat)
    requires DepthIs(t, id, d)
    ensures d < |t|
  {
    ChainDepths(t, id, d);
    SubsetSize(Chain(t, id, d), t.Keys);
  }

  lemma {:induction false} SubsetSize(a: set<string>, b: set<string>)
    requires a <= b
    ensures |a| <= |b|
  {
    if a != {} {
      var x :| x in a;
      SubsetSize(a - {x}, b - {x});
    }
  }

  ghost predicate Rooted(t: Table, id: string) {
    exists d: nat :: DepthIs(t, id, d)
  }

  /** Ids are unique, and every row leads to a root: no cycle and no missing parent. */
  ghost predicate Forest(cats: seq<Category>) {
    UniqueIds(cats) && forall id | id in ById(cats) :: Rooted(ById(cats), id)
  }

  lemma {:induction false} DepthKept(t: Table, u: Table, id: string, d: nat)
    requires DepthIs(t, id, d) && forall x | x in t :: x in u && u[x] == t[x]
    ensures DepthIs(u, id, d)
    decreases d
  {
    if d > 0 {
      DepthKept(t, u, t[id].parentId, d - 1);
    }
  }

  lemma RowAdded(cats: seq<Category>, c: Category)
    requires UniqueIds(cats) && c.id != "" && c.id !in ById(cats)
    ensures UniqueIds(cats + [c]) && ById(cats + [c]) == ById(cats)[c.id := c]
  {
    assert (cats + [c])[..|cats + [c]| - 1] == cats;
    ByIdIs(cats);
    forall i | 0 <= i < |cats| ensures cats[i].id != c.id {
      assert cats[i] in cats;
    }
  }

  /** A new row under an existing parent, or none, keeps the table a forest. */
  lemma ForestGrows(cats: seq<Category>, c: Category)
    requires Forest(cats) && c.id != "" && c.id !in ById(cats)
    requires c.parentId == "" || c.parentId in ById(cats)
    ensures Forest(cats + [c])
  {
    hide ById, UniqueIds;
    var t, u := ById(cats), ById(cats + [c]);
    RowAdded(cats, c);
    forall id | id in u ensures Rooted(u, id) {
      if id in t {
        var d: nat :| DepthIs(t, id, d);
        DepthKept(t, u, id, d);
      } else if c.parentId == "" {
        assert DepthIs(u, id, 0);
      } else {
        var d: nat :| DepthIs(t, c.parentId, d);
        DepthKept(t, u, c.parentId, d);
        assert DepthIs(u, id, d + 1);
      }
    }
  }
}

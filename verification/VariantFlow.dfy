/**
 The variant graph of the dashboard (dashboard/src/lib/variant-flow.ts): a trie of
 layer paths with branch weights, and a layout in which no two nodes overlap.
 */
module VariantFlow {
  import opened Basics

  type LayerId = int

  datatype Variant = Variant(id: int, layers: seq<LayerId>, enabled: bool, weight: int)

  /** A node with its children in the order of their insertion; the roots are the children of a virtual node. */
  datatype Trie = Trie(layer: LayerId, weight: int, variant: Option<Variant>, children: seq<Trie>)

  const NODE_WIDTH := 232.0
  const NODE_HEIGHT := 112.0
  const COLUMN_GAP := 88.0
  const ROW_GAP := 54.0

  // ----- The trie

  function IndexOf(children: seq<Trie>, layer: LayerId): (i: int)
    ensures -1 <= i < |children|
    ensures i >= 0 ==> children[i].layer == layer
    ensures i == -1 ==> forall j | 0 <= j < |children| :: children[j].layer != layer
  {
    if children == [] then -1
    else if children[|children| - 1].layer == layer then |children| - 1
    else IndexOf(children[..|children| - 1], layer)
  }

  predicate DistinctChildren(t: Trie) {
    forall i, j :: 0 <= i < j < |t.children| ==> t.children[i].layer != t.children[j].layer
  }

  ghost predicate WellFormed(t: Trie) {
    DistinctChildren(t) && forall i | 0 <= i < |t.children| :: WellFormed(t.children[i])
  }

  function Find(t: Trie, path: seq<LayerId>): Option<Trie> {
    if path == [] then Some(t)
    else
      var i := IndexOf(t.children, path[0]);
      if i < 0 then None else Find(t.children[i], path[1..])
  }

  function WeightAt(t: Trie, path: seq<LayerId>): int {
    var found := Find(t, path);
    if found.Some? then found.value.weight else 0
  }

  function VariantAt(t: Trie, path: seq<LayerId>): Option<Variant> {
    var found := Find(t, path);
    if found.Some? then found.value.variant else None
  }

  /** The child for a layer, existing or new. */
  function ChildFor(t: Trie, layer: LayerId): Trie {
    var i := IndexOf(t.children, layer);
    if i < 0 then Trie(layer, 0, None, []) else t.children[i]
  }

  function PutChild(t: Trie, child: Trie): Trie {
    var i := IndexOf(t.children, child.layer);
    t.(children := if i < 0 then t.children + [child] else t.children[i := child])
  }

  function EnabledWeight(v: Variant): int {
    if v.enabled then v.weight else 0
  }

  /** Walks down the path, adding the weight to every node on it; the last node gets the variant. */
  function Insert(t: Trie, path: seq<LayerId>, v: Variant): (r: Trie)
    ensures r.layer == t.layer && r.weight == t.weight
    ensures r.variant == if path == [] then Some(v) else t.variant
    decreases |path|
  {
    if path == [] then t.(variant := Some(v))
    else
      var child := ChildFor(t, path[0]);
      PutChild(t, Insert(child.(weight := child.weight + EnabledWeight(v)), path[1..], v))
  }

  lemma PutChildFinds(t: Trie, child: Trie, layer: LayerId)
    requires DistinctChildren(t)
    ensures DistinctChildren(PutChild(t, child))
    ensures var i := IndexOf(PutChild(t, child).children, layer);
            if layer == child.layer then i >= 0 && PutChild(t, child).children[i] == child
            else i == IndexOf(t.children, layer) && (i >= 0 ==> PutChild(t, child).children[i] == t.children[i])
  {
    var put := PutChild(t, child);
    var at := IndexOf(t.children, child.layer);
    var i := IndexOf(put.children, layer);
    var j := IndexOf(t.children, layer);
    if layer == child.layer {
      if at < 0 {
        assert put.children[|t.children|].layer == layer;
      } else {
        assert put.children[at].layer == layer;
      }
    } else {
      if i >= 0 {
        assert i < |t.children| && t.children[i] == put.children[i];
      }
      if j >= 0 {
        assert put.children[j] == t.children[j];
      }
    }
  }

  lemma PutWellFormed(t: Trie, child: Trie)
    requires WellFormed(t) && WellFormed(child)
    ensures WellFormed(PutChild(t, child))
  {
    PutChildFinds(t, child, child.layer);
    var put := PutChild(t, child);
    forall i | 0 <= i < |put.children| ensures WellFormed(put.children[i]) {
    }
  }

  lemma HeavierWellFormed(t: Trie, weight: int)
    requires WellFormed(t)
    ensures WellFormed(t.(weight := weight))
  {
  }

  lemma {:induction false} InsertWellFormed(t: Trie, path: seq<LayerId>, v: Variant)
    requires WellFormed(t)
    ensures WellFormed(Insert(t, path, v))
    decreases |path|
  {
    if path != [] {
      var child := ChildFor(t, path[0]);
      var heavier := child.(weight := child.weight + EnabledWeight(v));
      HeavierWellFormed(child, heavier.weight);
      InsertWellFormed(heavier, path[1..], v);
      PutWellFormed(t, Insert(heavier, path[1..], v));
    }
  }

  lemma FindIgnoresWeight(t: Trie, weight: int, q: seq<LayerId>)
    requires q != []
    ensures Find(t.(weight := weight), q) == Find(t, q)
  {
  }

  /** Looking below the root starts at the child of the first layer. */
  lemma FindInChild(t: Trie, q: seq<LayerId>)
    requires q != []
    ensures WeightAt(t, q) == WeightAt(ChildFor(t, q[0]), q[1..])
    ensures VariantAt(t, q) == VariantAt(ChildFor(t, q[0]), q[1..])
    ensures Find(t, q).Some? <==> IndexOf(t.children, q[0]) >= 0 && Find(ChildFor(t, q[0]), q[1..]).Some?
  {
    if IndexOf(t.children, q[0]) < 0 {
      assert IndexOf([], if |q| > 1 then q[1] else 0) == -1;
    }
  }

  /** The child that an insertion descends into, with its weight added. */
  function Heavier(t: Trie, layer: LayerId, v: Variant): Trie {
    var child := ChildFor(t, layer);
    child.(weight := child.weight + EnabledWeight(v))
  }

  lemma InsertDescends(t: Trie, p: seq<LayerId>, v: Variant, q: seq<LayerId>)
    requires WellFormed(t) && q != [] && p != []
    ensures q[0] == p[0] ==> Find(Insert(t, p, v), q) == Find(Insert(Heavier(t, p[0], v), p[1..], v), q[1..])
    ensures q[0] != p[0] ==> Find(Insert(t, p, v), q) == Find(t, q)
  {
    PutChildFinds(t, Insert(Heavier(t, p[0], v), p[1..], v), q[0]);
  }

  /** One insertion adds its weight to every prefix of its path, creates those that are missing, and nothing else. */
  lemma {:induction false} InsertFinds(t: Trie, p: seq<LayerId>, v: Variant, q: seq<LayerId>)
    requires WellFormed(t) && q != []
    ensures WeightAt(Insert(t, p, v), q) == WeightAt(t, q) + (if q <= p then EnabledWeight(v) else 0)
    ensures Find(Insert(t, p, v), q).Some? <==> Find(t, q).Some? || q <= p
    ensures VariantAt(Insert(t, p, v), q) == if q == p then Some(v) else VariantAt(t, q)
    decreases |p|, 1
  {
    if p == [] {
      assert Find(Insert(t, p, v), q) == Find(t, q);
    } else {
      InsertDescends(t, p, v, q);
      if q[0] == p[0] {
        FindInChild(t, q);
        PrefixTail(q, p);
        InsertFindsBelow(t, p, v, q[1..]);
      }
    }
  }

  lemma {:induction false} InsertFindsBelow(t: Trie, p: seq<LayerId>, v: Variant, rest: seq<LayerId>)
    requires WellFormed(t) && p != []
    ensures
      var child, below := ChildFor(t, p[0]), Insert(Heavier(t, p[0], v), p[1..], v);
      && WeightAt(below, rest) == WeightAt(child, rest) + (if rest <= p[1..] then EnabledWeight(v) else 0)
      && (Find(below, rest).Some? <==>
            (IndexOf(t.children, p[0]) >= 0 && Find(child, rest).Some?) || rest <= p[1..])
      && VariantAt(below, rest) == if rest == p[1..] then Some(v) else VariantAt(child, rest)
    decreases |p|, 0
  {
    if rest != [] {
      var heavier := Heavier(t, p[0], v);
      assert WellFormed(heavier);
      InsertFinds(heavier, p[1..], v, rest);
      FindIgnoresWeight(ChildFor(t, p[0]), heavier.weight, rest);
      if IndexOf(t.children, p[0]) < 0 {
        NothingBelowNew(t, [p[0]] + rest);
        assert ([p[0]] + rest)[1..] == rest;
      }
    }
  }

  lemma PrefixTail(q: seq<LayerId>, p: seq<LayerId>)
    requires q != [] && p != [] && q[0] == p[0]
    ensures q <= p <==> q[1..] <= p[1..]
    ensures q == p <==> q[1..] == p[1..]
  {
    assert q == [q[0]] + q[1..] && p == [p[0]] + p[1..];
  }

  lemma NothingBelowNew(t: Trie, q: seq<LayerId>)
    requires |q| > 1 && IndexOf(t.children, q[0]) < 0
    ensures Find(ChildFor(t, q[0]), q[1..]).None?
  {
    assert IndexOf([], q[1]) == -1;
  }

  // ----- The trie of all visible variants

  /** The enabled weight of the variants below a path. */
  function BranchWeight(variants: seq<Variant>, q: seq<LayerId>): int {
    if variants == [] then 0
    else
      var v := variants[|variants| - 1];
      BranchWeight(variants[..|variants| - 1], q) + if q <= v.layers then EnabledWeight(v) else 0
  }

  /** Enabling a variant adds its weight to every prefix of its layers, and to nothing else. */
  lemma {:induction false} EnablingAddsWeight(variants: seq<Variant>, i: nat, q: seq<LayerId>)
    requires i < |variants|
    ensures BranchWeight(variants[i := variants[i].(enabled := true)], q) ==
            BranchWeight(variants[i := variants[i].(enabled := false)], q) + if q <= variants[i].layers then variants[i].weight else 0
  {
    var n := |variants| - 1;
    var on, off := variants[i := variants[i].(enabled := true)], variants[i := variants[i].(enabled := false)];
    if i == n {
      assert on[..n] == variants[..n] == off[..n];
    } else {
      assert on[..n] == variants[..n][i := variants[i].(enabled := true)];
      assert off[..n] == variants[..n][i := variants[i].(enabled := false)];
      EnablingAddsWeight(variants[..n], i, q);
    }
  }

  /** Disabled variants weigh nothing. */
  lemma {:induction false} DisabledWeighNothing(variants: seq<Variant>, q: seq<LayerId>)
    requires forall i | 0 <= i < |variants| :: !variants[i].enabled
    ensures BranchWeight(variants, q) == 0
  {
    if variants != [] {
      DisabledWeighNothing(variants[..|variants| - 1], q);
    }
  }

  /** The last variant that ends at a path. */
  function LastAt(variants: seq<Variant>, q: seq<LayerId>): Option<Variant> {
    if variants == [] then None
    else
      var v := variants[|variants| - 1];
      if v.layers == q then Some(v) else LastAt(variants[..|variants| - 1], q)
  }

  /** The trie holds exactly the prefixes of the variants, with their weights and final variants. */
  ghost predicate Represents(t: Trie, variants: seq<Variant>) {
    WellFormed(t) &&
    forall q: seq<LayerId> | q != [] ::
      && WeightAt(t, q) == BranchWeight(variants, q)
      && (Find(t, q).Some? <==> exists i :: 0 <= i < |variants| && q <= variants[i].layers)
      && VariantAt(t, q) == LastAt(variants, q)
  }

  lemma InsertRepresents(t: Trie, variants: seq<Variant>, v: Variant)
    requires Represents(t, variants)
    ensures Represents(if v.layers == [] then t else Insert(t, v.layers, v), variants + [v])
  {
    var now, longer := if v.layers == [] then t else Insert(t, v.layers, v), variants + [v];
    assert longer[..|variants|] == variants;
    InsertWellFormed(t, v.layers, v);
    forall q: seq<LayerId> | q != []
      ensures WeightAt(now, q) == BranchWeight(longer, q)
      ensures Find(now, q).Some? <==> exists i :: 0 <= i < |longer| && q <= longer[i].layers
      ensures VariantAt(now, q) == LastAt(longer, q)
    {
      PrefixAppend(variants, v, q);
      if v.layers != [] {
        InsertFinds(t, v.layers, v, q);
      }
    }
  }

  lemma PrefixAppend(variants: seq<Variant>, v: Variant, q: seq<LayerId>)
    ensures (exists i :: 0 <= i < |variants + [v]| && q <= (variants + [v])[i].layers) <==>
            (exists i :: 0 <= i < |variants| && q <= variants[i].layers) || q <= v.layers
  {
    var longer := variants + [v];
    if i :| 0 <= i < |variants| && q <= variants[i].layers {
      assert longer[i] == variants[i];
    }
    if q <= v.layers {
      assert longer[|variants|] == v;
    }
  }

  /** Variants that the options leave visible; `matches` is the outcome of the text search. */
  function Visible(variants: seq<Variant>, enabledOnly: bool, matches: Variant -> bool): (r: seq<Variant>) {
    if variants == [] then []
    else
      var v := variants[|variants| - 1];
      Visible(variants[..|variants| - 1], enabledOnly, matches) +
      if (enabledOnly && !v.enabled) || !matches(v) then [] else [v]
  }

  method BuildTrie(variants: seq<Variant>, enabledOnly: bool, matches: Variant -> bool) returns (roots: Trie)
    ensures Represents(roots, Visible(variants, enabledOnly, matches))
  {
    roots := Trie(0, 0, None, []);
    EmptyRepresents();
    for i := 0 to |variants|
      invariant Represents(roots, Visible(variants[..i], enabledOnly, matches))
    {
      var v := variants[i];
      ghost var before := Visible(variants[..i], enabledOnly, matches);
      assert variants[..i + 1][..i] == variants[..i] && before + [] == before;
      if !(enabledOnly && !v.enabled) && matches(v) {
        InsertRepresents(roots, before, v);
        if v.layers != [] {
          roots := Insert(roots, v.layers, v);
        }
      }
    }
    assert variants[..|variants|] == variants;
  }

  lemma EmptyRepresents()
    ensures Represents(Trie(0, 0, None, []), [])
  {
    var t := Trie(0, 0, None, []);
    forall q: seq<LayerId> | q != [] ensures Find(t, q).None? {
      assert IndexOf([], q[0]) == -1;
    }
  }

  // ----- Layout

  /** Rows taken by a node: the leaves below it. */
  function Leaves(t: Trie): (r: nat)
    ensures r >= 1
    decreases t, |t.children| + 1
  {
    if |t.children| == 0 then 1 else LeavesOf(t, |t.children|)
  }

  /** Rows taken by the first n children. */
  function LeavesOf(t: Trie, n: nat): (r: nat)
    requires n <= |t.children|
    ensures r >= n
    decreases t, n
  {
    if n == 0 then 0 else LeavesOf(t, n - 1) + Leaves(t.children[n - 1])
  }

  function RowY(leafIndex: int): real {
    leafIndex as real * (NODE_HEIGHT + ROW_GAP)
  }

  /** A leaf lies in its row, any other node midway between its first and its last child. */
  function Y(t: Trie, leafIndex: int): real
    decreases t
  {
    if |t.children| == 0 then RowY(leafIndex)
    else
      var last := |t.children| - 1;
      (Y(t.children[0], leafIndex) + Y(t.children[last], leafIndex + LeavesOf(t, last))) / 2.0
  }

  lemma {:induction false} YInside(t: Trie, leafIndex: int)
    ensures RowY(leafIndex) <= Y(t, leafIndex) <= RowY(leafIndex + Leaves(t) - 1)
    decreases t
  {
    if |t.children| > 0 {
      var last := |t.children| - 1;
      YInside(t.children[0], leafIndex);
      YInside(t.children[last], leafIndex + LeavesOf(t, last));
      FirstLeaves(t, |t.children|);
    }
  }

  lemma {:induction false} FirstLeaves(t: Trie, n: nat)
    requires 1 <= n <= |t.children|
    ensures Leaves(t.children[0]) <= LeavesOf(t, n)
  {
    if n > 1 {
      FirstLeaves(t, n - 1);
    }
  }

  // ----- The nodes drawn

  datatype Box = Box(path: seq<LayerId>, depth: nat, firstRow: int, rows: nat, y: real, weight: int, variant: Option<Variant>)

  function X(depth: nat): real {
    depth as real * (NODE_WIDTH + COLUMN_GAP)
  }

  /** The node of child n - 1. */
  function Here(t: Trie, n: nat, depth: nat, leafIndex: int, path: seq<LayerId>): Box
    requires 0 < n <= |t.children|
  {
    var child, row := t.children[n - 1], leafIndex + LeavesOf(t, n - 1);
    Box(path + [child.layer], depth, row, Leaves(child), Y(child, row), child.weight, child.variant)
  }

  /** The nodes below the first n children in the order of the visit; unknown layers hide what is below them. */
  function Boxes(t: Trie, n: nat, depth: nat, leafIndex: int, path: seq<LayerId>, known: set<LayerId>): seq<Box>
    requires n <= |t.children|
    decreases t, n
  {
    if n == 0 then []
    else
      var child := t.children[n - 1];
      var row := leafIndex + LeavesOf(t, n - 1);
      Boxes(t, n - 1, depth, leafIndex, path, known) +
      if child.layer in known
      then
        [Here(t, n, depth, leafIndex, path)] +
        Boxes(child, |child.children|, depth + 1, row, path + [child.layer], known)
      else []
  }

  /** The rows of a box are its own: it lies within them, and within those of its ancestors. */
  ghost predicate Within(b: Box, depth: nat, firstRow: int, endRow: int) {
    && b.depth >= depth && firstRow <= b.firstRow && b.firstRow + b.rows <= endRow
    && RowY(b.firstRow) <= b.y <= RowY(b.firstRow + b.rows - 1)
  }

  lemma {:induction false} BoxesWithin(t: Trie, n: nat, depth: nat, leafIndex: int, path: seq<LayerId>, known: set<LayerId>)
    requires n <= |t.children|
    ensures forall b | b in Boxes(t, n, depth, leafIndex, path, known) ::
              Within(b, depth, leafIndex, leafIndex + LeavesOf(t, n))
    decreases t, n
  {
    if n > 0 {
      var child, row := t.children[n - 1], leafIndex + LeavesOf(t, n - 1);
      BoxesWithin(t, n - 1, depth, leafIndex, path, known);
      if child.layer in known {
        BoxesWithin(child, |child.children|, depth + 1, row, path + [child.layer], known);
        YInside(child, row);
      }
    }
  }

  /** Later nodes of the same depth start in later rows. */
  ghost predicate RowsApart(boxes: seq<Box>) {
    forall i, j :: 0 <= i < j < |boxes| && boxes[i].depth == boxes[j].depth ==>
      boxes[i].firstRow + boxes[i].rows <= boxes[j].firstRow
  }

  lemma {:induction false} BoxesApart(t: Trie, n: nat, depth: nat, leafIndex: int, path: seq<LayerId>, known: set<LayerId>)
    requires n <= |t.children|
    ensures RowsApart(Boxes(t, n, depth, leafIndex, path, known))
    decreases t, n
  {
    if n > 0 {
      var child, row := t.children[n - 1], leafIndex + LeavesOf(t, n - 1);
      BoxesApart(t, n - 1, depth, leafIndex, path, known);
      BoxesWithin(t, n - 1, depth, leafIndex, path, known);
      if child.layer in known {
        var here := Here(t, n, depth, leafIndex, path);
        var below := Boxes(child, |child.children|, depth + 1, row, path + [child.layer], known);
        BoxesApart(child, |child.children|, depth + 1, row, path + [child.layer], known);
        BoxesWithin(child, |child.children|, depth + 1, row, path + [child.layer], known);
        ApartAppend(Boxes(t, n - 1, depth, leafIndex, path, known), here, below, depth, row);
      }
    }
  }

  lemma ApartAppend(before: seq<Box>, here: Box, below: seq<Box>, depth: nat, row: int)
    requires RowsApart(before) && RowsApart(below) && here.depth == depth && here.firstRow == row
    requires forall b | b in before :: b.firstRow + b.rows <= row
    requires forall b | b in below :: b.depth > depth && row <= b.firstRow
    ensures RowsApart(before + ([here] + below))
  {
    var all := before + ([here] + below);
    forall i, j | 0 <= i < j < |all| && all[i].depth == all[j].depth
      ensures all[i].firstRow + all[i].rows <= all[j].firstRow
    {
      if j < |before| {
        assert all[i] == before[i] && all[j] == before[j];
      } else if i < |before| {
        assert all[i] in before;
        assert j > |before| ==> all[j] == below[j - |before| - 1] && all[j] in below;
      } else {
        assert all[j] == below[j - |before| - 1] && all[j] in below;
        assert i > |before| ==> all[i] == below[i - |before| - 1];
      }
    }
  }

  /** What is drawn of a box. */
  datatype Drawn = Drawn(path: seq<LayerId>, x: real, y: real, weight: int, variant: Option<Variant>)

  function Draw(b: Box): Drawn {
    Drawn(b.path, X(b.depth), b.y, b.weight, b.variant)
  }

  predicate Apart(a: Drawn, b: Drawn) {
    || a.x + NODE_WIDTH <= b.x || b.x + NODE_WIDTH <= a.x
    || a.y + NODE_HEIGHT <= b.y || b.y + NODE_HEIGHT <= a.y
  }

  /** No two nodes overlap; in one column they are at least a row apart, and columns leave their gap. */
  lemma NoOverlap(t: Trie, known: set<LayerId>, i: nat, j: nat)
    requires i < j < |Boxes(t, |t.children|, 0, 0, [], known)|
    ensures
      var boxes := Boxes(t, |t.children|, 0, 0, [], known);
      && Apart(Draw(boxes[i]), Draw(boxes[j]))
      && (boxes[i].depth == boxes[j].depth ==> boxes[j].y >= boxes[i].y + NODE_HEIGHT + ROW_GAP)
      && (boxes[i].depth < boxes[j].depth ==> X(boxes[j].depth) >= X(boxes[i].depth) + NODE_WIDTH + COLUMN_GAP)
  {
    var boxes := Boxes(t, |t.children|, 0, 0, [], known);
    BoxesWithin(t, |t.children|, 0, 0, [], known);
    BoxesApart(t, |t.children|, 0, 0, [], known);
    assert boxes[i] in boxes && boxes[j] in boxes;
    ColumnsApart(boxes[i].depth, boxes[j].depth);
    RowGap(boxes[i].firstRow + boxes[i].rows, boxes[j].firstRow);
  }

  lemma ColumnsApart(a: nat, b: nat)
    ensures a < b ==> X(b) >= X(a) + NODE_WIDTH + COLUMN_GAP
    ensures b < a ==> X(a) >= X(b) + NODE_WIDTH + COLUMN_GAP
  {
  }

  lemma RowGap(a: int, b: int)
    ensures a <= b ==> RowY(a - 1) + NODE_HEIGHT + ROW_GAP <= RowY(b)
  {
  }

  // ----- Nodes and paths

  /** The box shows the node that its path leads to, below one of the first n children. */
  ghost predicate Shows(b: Box, t: Trie, n: nat, depth: nat, path: seq<LayerId>) {
    && |path| < |b.path| && b.path[..|path|] == path && b.depth + 1 == depth + |b.path| - |path|
    && var rest := b.path[|path|..];
       0 <= IndexOf(t.children, rest[0]) < n && Find(t, rest).Some? &&
       b.weight == WeightAt(t, rest) && b.variant == VariantAt(t, rest)
  }

  lemma IndexOfChild(t: Trie, i: nat)
    requires DistinctChildren(t) && i < |t.children|
    ensures IndexOf(t.children, t.children[i].layer) == i
  {
    var k := IndexOf(t.children, t.children[i].layer);
    assert k >= 0 && t.children[k].layer == t.children[i].layer;
  }

  lemma ShowsDeeper(b: Box, t: Trie, n: nat, depth: nat, path: seq<LayerId>)
    requires DistinctChildren(t) && 0 < n <= |t.children|
    requires var child := t.children[n - 1]; Shows(b, child, |child.children|, depth + 1, path + [child.layer])
    ensures Shows(b, t, n, depth, path) && |b.path| > |path| + 1 && b.path[|path|] == t.children[n - 1].layer
  {
    var child := t.children[n - 1];
    var longer := path + [child.layer];
    IndexOfChild(t, n - 1);
    var rest := b.path[|path|..];
    assert b.path[..|longer|][|path|] == child.layer;
    assert rest[0] == child.layer && rest[1..] == b.path[|longer|..];
    assert b.path[..|path|] == b.path[..|longer|][..|path|] == path;
  }

  lemma {:induction false} BoxesShow(t: Trie, n: nat, depth: nat, leafIndex: int, path: seq<LayerId>, known: set<LayerId>)
    requires WellFormed(t) && n <= |t.children|
    ensures forall b | b in Boxes(t, n, depth, leafIndex, path, known) :: Shows(b, t, n, depth, path)
    decreases t, n
  {
    if n > 0 {
      var child, row := t.children[n - 1], leafIndex + LeavesOf(t, n - 1);
      BoxesShow(t, n - 1, depth, leafIndex, path, known);
      if child.layer in known {
        var here := Here(t, n, depth, leafIndex, path);
        HereShows(t, n, depth, path, here);
        BoxesShow(child, |child.children|, depth + 1, row, path + [child.layer], known);
        forall b | b in Boxes(child, |child.children|, depth + 1, row, path + [child.layer], known)
          ensures Shows(b, t, n, depth, path)
        {
          ShowsDeeper(b, t, n, depth, path);
        }
      }
    }
  }

  lemma HereShows(t: Trie, n: nat, depth: nat, path: seq<LayerId>, here: Box)
    requires DistinctChildren(t) && 0 < n <= |t.children|
    requires var child := t.children[n - 1];
             here.path == path + [child.layer] && here.depth == depth &&
             here.weight == child.weight && here.variant == child.variant
    ensures Shows(here, t, n, depth, path)
  {
    IndexOfChild(t, n - 1);
    var rest := here.path[|path|..];
    assert rest == [t.children[n - 1].layer] && rest[1..] == [];
    assert here.path[..|path|] == path;
  }

  ghost predicate DistinctPaths(boxes: seq<Box>) {
    forall i, j :: 0 <= i < j < |boxes| ==> boxes[i].path != boxes[j].path
  }

  lemma DistinctAppend(before: seq<Box>, here: Box, below: seq<Box>)
    requires DistinctPaths(before) && DistinctPaths(below)
    requires forall b | b in before :: b.path != here.path && forall c | c in below :: b.path != c.path
    requires forall c | c in below :: c.path != here.path
    ensures DistinctPaths(before + ([here] + below))
  {
    var all := before + ([here] + below);
    forall i, j | 0 <= i < j < |all| ensures all[i].path != all[j].path {
      if j < |before| {
        assert all[i] == before[i] && all[j] == before[j];
      } else if i < |before| {
        assert all[i] in before;
        assert j > |before| ==> all[j] == below[j - |before| - 1] && all[j] in below;
      } else {
        assert all[j] == below[j - |before| - 1] && all[j] in below;
        assert i > |before| ==> all[i] == below[i - |before| - 1];
      }
    }
  }

  lemma {:induction false} BoxesDistinct(t: Trie, n: nat, depth: nat, leafIndex: int, path: seq<LayerId>, known: set<LayerId>)
    requires WellFormed(t) && n <= |t.children|
    ensures DistinctPaths(Boxes(t, n, depth, leafIndex, path, known))
    decreases t, n
  {
    if n > 0 {
      var child, row := t.children[n - 1], leafIndex + LeavesOf(t, n - 1);
      BoxesDistinct(t, n - 1, depth, leafIndex, path, known);
      if child.layer in known {
        var before := Boxes(t, n - 1, depth, leafIndex, path, known);
        var here := Here(t, n, depth, leafIndex, path);
        var below := Boxes(child, |child.children|, depth + 1, row, path + [child.layer], known);
        BoxesDistinct(child, |child.children|, depth + 1, row, path + [child.layer], known);
        BoxesShow(t, n - 1, depth, leafIndex, path, known);
        BoxesShow(child, |child.children|, depth + 1, row, path + [child.layer], known);
        IndexOfChild(t, n - 1);
        forall b | b in before ensures b.path[|path|..][0] != child.layer {
        }
        forall c | c in below ensures |c.path| > |path| + 1 && c.path[|path|] == child.layer {
          ShowsDeeper(c, t, n, depth, path);
        }
        DistinctAppend(before, here, below);
      }
    }
  }

  predicate AllKnown(q: seq<LayerId>, known: set<LayerId>) {
    forall i | 0 <= i < |q| :: q[i] in known
  }

  /** Every node whose layers are all known is drawn. */
  lemma {:induction false} BoxFor(
      t: Trie, n: nat, depth: nat, leafIndex: int, path: seq<LayerId>, known: set<LayerId>, q: seq<LayerId>)
    requires WellFormed(t) && n <= |t.children| && q != [] && Find(t, q).Some? && IndexOf(t.children, q[0]) < n
    requires AllKnown(q, known)
    ensures exists b :: b in Boxes(t, n, depth, leafIndex, path, known) && b.path == path + q
    decreases t, n
  {
    BoxesContain(t, n, depth, leafIndex, path, known);
    if IndexOf(t.children, q[0]) < n - 1 {
      BoxFor(t, n - 1, depth, leafIndex, path, known, q);
    } else if |q| == 1 {
      assert q == [q[0]] && t.children[n - 1].layer == q[0];
    } else {
      BoxBelow(t, n, depth, leafIndex, path, known, q);
    }
  }

  lemma {:induction false} BoxBelow(
      t: Trie, n: nat, depth: nat, leafIndex: int, path: seq<LayerId>, known: set<LayerId>, q: seq<LayerId>)
    requires WellFormed(t) && 0 < n <= |t.children| && |q| > 1 && Find(t, q).Some?
    requires IndexOf(t.children, q[0]) == n - 1 && AllKnown(q, known)
    ensures exists b :: b in Boxes(t, n, depth, leafIndex, path, known) && b.path == path + q
    decreases t, n, 0
  {
    var child, row := t.children[n - 1], leafIndex + LeavesOf(t, n - 1);
    var below, rest := Boxes(child, |child.children|, depth + 1, row, path + [child.layer], known), q[1..];
    FoundBelow(t, n, q);
    BoxFor(child, |child.children|, depth + 1, row, path + [child.layer], known, rest);
    var b :| b in below && b.path == path + [child.layer] + rest;
    BoxesContain(t, n, depth, leafIndex, path, known);
    assert path + [child.layer] + rest == path + q;
  }

  lemma FoundBelow(t: Trie, n: nat, q: seq<LayerId>)
    requires WellFormed(t) && 0 < n <= |t.children| && |q| > 1 && Find(t, q).Some? && IndexOf(t.children, q[0]) == n - 1
    ensures var child := t.children[n - 1];
            child.layer == q[0] && Find(child, q[1..]).Some? && IndexOf(child.children, q[1]) >= 0
  {
    assert q[1..][0] == q[1];
  }

  lemma BoxesContain(t: Trie, n: nat, depth: nat, leafIndex: int, path: seq<LayerId>, known: set<LayerId>)
    requires 0 < n <= |t.children|
    ensures
      var child, row := t.children[n - 1], leafIndex + LeavesOf(t, n - 1);
      var boxes := Boxes(t, n, depth, leafIndex, path, known);
      && (forall b | b in Boxes(t, n - 1, depth, leafIndex, path, known) :: b in boxes)
      && (child.layer in known ==>
            Here(t, n, depth, leafIndex, path) in boxes &&
            forall b | b in Boxes(child, |child.children|, depth + 1, row, path + [child.layer], known) :: b in boxes)
  {
  }

  /**
   The drawing of the visible variants: no path twice, every node is a
   prefix of a variant, and it carries the enabled weight of the variants below it.
   */
  lemma NodesShowThePrefixes(t: Trie, variants: seq<Variant>, known: set<LayerId>)
    requires Represents(t, variants)
    ensures
      var boxes := Boxes(t, |t.children|, 0, 0, [], known);
      && DistinctPaths(boxes)
      && (forall b | b in boxes ::
            b.path != [] && b.depth == |b.path| - 1 && b.weight == BranchWeight(variants, b.path) &&
            b.variant == LastAt(variants, b.path) &&
            exists i :: 0 <= i < |variants| && b.path <= variants[i].layers)
  {
    var boxes := Boxes(t, |t.children|, 0, 0, [], known);
    BoxesDistinct(t, |t.children|, 0, 0, [], known);
    BoxesShow(t, |t.children|, 0, 0, [], known);
    forall b | b in boxes
      ensures b.path != [] && b.depth == |b.path| - 1 && b.weight == BranchWeight(variants, b.path)
      ensures b.variant == LastAt(variants, b.path)
      ensures exists i :: 0 <= i < |variants| && b.path <= variants[i].layers
    {
      assert b.path[0..] == b.path;
    }
  }

  /** Every prefix of a visible variant whose layers are known is drawn. */
  lemma EveryPrefixIsDrawn(t: Trie, variants: seq<Variant>, known: set<LayerId>, q: seq<LayerId>, i: nat)
    requires Represents(t, variants) && i < |variants|
    requires q != [] && q <= variants[i].layers && AllKnown(q, known)
    ensures exists b :: b in Boxes(t, |t.children|, 0, 0, [], known) && b.path == q
  {
    BoxFor(t, |t.children|, 0, 0, [], known, q);
    assert [] + q == q;
  }

  // ----- The two recursions of the source

  /** A trie node after `position`. */
  datatype Placed = Placed(layer: LayerId, weight: int, variant: Option<Variant>, y: real, children: seq<Placed>)

  function DrawAll(boxes: seq<Box>): (r: seq<Drawn>)
    ensures |r| == |boxes| && forall i | 0 <= i < |boxes| :: r[i] == Draw(boxes[i])
  {
    seq(|boxes|, i requires 0 <= i < |boxes| => Draw(boxes[i]))
  }

  lemma DrawConcat(a: seq<Box>, b: seq<Box>)
    ensures DrawAll(a + b) == DrawAll(a) + DrawAll(b)
  {
  }

  ghost predicate IsPlaced(p: Placed, t: Trie, leafIndex: int)
    decreases t
  {
    && p.layer == t.layer && p.weight == t.weight && p.variant == t.variant && p.y == Y(t, leafIndex)
    && ChildrenPlaced(p.children, t, leafIndex) && |p.children| == |t.children|
  }

  ghost predicate ChildrenPlaced(placed: seq<Placed>, t: Trie, leafIndex: int)
    decreases t, 0
  {
    |placed| <= |t.children| &&
    forall i | 0 <= i < |placed| :: IsPlaced(placed[i], t.children[i], leafIndex + LeavesOf(t, i))
  }

  lemma PlacedAppend(placed: seq<Placed>, child: Placed, t: Trie, leafIndex: int, i: nat)
    requires ChildrenPlaced(placed, t, leafIndex) && i == |placed| < |t.children|
    requires IsPlaced(child, t.children[i], leafIndex + LeavesOf(t, i))
    ensures ChildrenPlaced(placed + [child], t, leafIndex)
  {
  }

  lemma LeavesAdd(t: Trie, i: nat)
    requires i < |t.children|
    ensures LeavesOf(t, i + 1) == LeavesOf(t, i) + Leaves(t.children[i])
  {
  }

  class Layout {
    var leafIndex: nat
    var nodes: seq<Drawn>

    constructor ()
      ensures leafIndex == 0 && nodes == []
    {
      leafIndex, nodes := 0, [];
    }

    /** Leaves take the next row of the shared counter; the others are centred on their children. */
    method Position(t: Trie) returns (placed: Placed)
      modifies this`leafIndex
      ensures IsPlaced(placed, t, old(leafIndex)) && leafIndex == old(leafIndex) + Leaves(t)
      decreases t, 1
    {
      if |t.children| == 0 {
        placed := Placed(t.layer, t.weight, t.variant, leafIndex as real * (NODE_HEIGHT + ROW_GAP), []);
        leafIndex := leafIndex + 1;
        return;
      }
      var children := PositionAll(t);
      var y := (children[0].y + children[|children| - 1].y) / 2.0;
      placed := Placed(t.layer, t.weight, t.variant, y, children);
    }

    method PositionAll(t: Trie) returns (placed: seq<Placed>)
      modifies this`leafIndex
      ensures |placed| == |t.children| && ChildrenPlaced(placed, t, old(leafIndex))
      ensures leafIndex == old(leafIndex) + LeavesOf(t, |t.children|)
      decreases t, 0
    {
      placed := [];
      for i := 0 to |t.children|
        invariant |placed| == i && ChildrenPlaced(placed, t, old(leafIndex))
        invariant leafIndex == old(leafIndex) + LeavesOf(t, i)
      {
        LeavesAdd(t, i);
        var child := Position(t.children[i]);
        PlacedAppend(placed, child, t, old(leafIndex), i);
        placed := placed + [child];
      }
    }

    static lemma InOneGo(a: seq<Drawn>, b: seq<Drawn>, c: seq<Drawn>)
      ensures (a + b) + c == a + (b + c)
    {
    }

    /** Pushes the nodes below a placed node in the order of its children. */
    method VisitChildren(children: seq<Placed>, depth: nat, path: seq<LayerId>, known: set<LayerId>,
                         ghost t: Trie, ghost row: int)
      requires ChildrenPlaced(children, t, row) && |children| == |t.children|
      modifies this`nodes
      ensures nodes == old(nodes) + DrawAll(Boxes(t, |t.children|, depth, row, path, known))
      decreases t, 0
    {
      ghost var drawn: seq<Drawn> := [];
      for i := 0 to |children|
        invariant drawn == DrawAll(Boxes(t, i, depth, row, path, known)) && nodes == old(nodes) + drawn
      {
        ghost var next := row + LeavesOf(t, i);
        ghost var child := Drawing(t.children[i], depth, next, path, known);
        Visit(children[i], depth, path, known, t.children[i], next);
        DrawStep(t, i, depth, row, path, known);
        InOneGo(old(nodes), drawn, child);
        drawn := drawn + child;
      }
    }

    /** Pushes one node and what is below it; a layer that is not known ends the visit of its branch. */
    method Visit(node: Placed, depth: nat, path: seq<LayerId>, known: set<LayerId>, ghost t: Trie, ghost row: int)
      requires IsPlaced(node, t, row)
      modifies this`nodes
      ensures nodes == old(nodes) + Drawing(t, depth, row, path, known)
      decreases t, 1
    {
      if node.layer !in known {
        return;
      }
      var here := path + [node.layer];
      nodes := nodes + [Drawn(here, depth as real * (NODE_WIDTH + COLUMN_GAP), node.y, node.weight, node.variant)];
      VisitChildren(node.children, depth + 1, here, known, t, row);
    }
  }

  /** One node and what is below it. */
  function Drawing(t: Trie, depth: nat, row: int, path: seq<LayerId>, known: set<LayerId>): seq<Drawn> {
    if t.layer !in known then []
    else
      [Drawn(path + [t.layer], X(depth), Y(t, row), t.weight, t.variant)] +
      DrawAll(Boxes(t, |t.children|, depth + 1, row, path + [t.layer], known))
  }

  /** The drawing of one more child. */
  lemma DrawStep(t: Trie, i: nat, depth: nat, row: int, path: seq<LayerId>, known: set<LayerId>)
    requires i < |t.children|
    ensures DrawAll(Boxes(t, i + 1, depth, row, path, known)) ==
            DrawAll(Boxes(t, i, depth, row, path, known)) +
            Drawing(t.children[i], depth, row + LeavesOf(t, i), path, known)
  {
    var child, next := t.children[i], row + LeavesOf(t, i);
    var before := Boxes(t, i, depth, row, path, known);
    BoxesStep(t, i, depth, row, path, known);
    if child.layer in known {
      var below := Boxes(child, |child.children|, depth + 1, next, path + [child.layer], known);
      DrawnAfter(before, Here(t, i + 1, depth, row, path), below);
    } else {
      assert before + [] == before;
    }
  }

  lemma BoxesStep(t: Trie, i: nat, depth: nat, row: int, path: seq<LayerId>, known: set<LayerId>)
    requires i < |t.children|
    ensures
      var child := t.children[i];
      Boxes(t, i + 1, depth, row, path, known) ==
      Boxes(t, i, depth, row, path, known) +
      if child.layer in known
      then
        [Here(t, i + 1, depth, row, path)] +
        Boxes(child, |child.children|, depth + 1, row + LeavesOf(t, i), path + [child.layer], known)
      else []
  {
  }

  lemma DrawnAfter(before: seq<Box>, here: Box, below: seq<Box>)
    ensures DrawAll(before + ([here] + below)) == DrawAll(before) + ([Draw(here)] + DrawAll(below))
  {
    DrawConcat([here], below);
    DrawConcat(before, [here] + below);
    assert DrawAll([here]) == [Draw(here)];
  }

  /** The whole drawing: the visible variants as a trie, every node of known layers once, none over another. */
  method BuildVariantFlow(variants: seq<Variant>, enabledOnly: bool, matches: Variant -> bool, known: set<LayerId>)
    returns (nodes: seq<Drawn>, ghost roots: Trie)
    ensures Represents(roots, Visible(variants, enabledOnly, matches))
    ensures nodes == DrawAll(Boxes(roots, |roots.children|, 0, 0, [], known))
    ensures forall i, j :: 0 <= i < j < |nodes| ==> Apart(nodes[i], nodes[j]) && nodes[i].path != nodes[j].path
  {
    var trie := BuildTrie(variants, enabledOnly, matches);
    roots := trie;
    var layout := new Layout();
    var placed := layout.PositionAll(trie);
    layout.VisitChildren(placed, 0, [], known, trie, 0);
    nodes := layout.nodes;
    DrawnApart(trie, known);
  }

  lemma DrawnApart(t: Trie, known: set<LayerId>)
    requires WellFormed(t)
    ensures
      var nodes := DrawAll(Boxes(t, |t.children|, 0, 0, [], known));
      forall i, j :: 0 <= i < j < |nodes| ==> Apart(nodes[i], nodes[j]) && nodes[i].path != nodes[j].path
  {
    var boxes := Boxes(t, |t.children|, 0, 0, [], known);
    var nodes := DrawAll(boxes);
    BoxesDistinct(t, |t.children|, 0, 0, [], known);
    forall i, j | 0 <= i < j < |nodes| ensures Apart(nodes[i], nodes[j]) && nodes[i].path != nodes[j].path {
      NoOverlap(t, known, i, j);
      assert nodes[i] == Draw(boxes[i]) && nodes[j] == Draw(boxes[j]);
    }
  }
}

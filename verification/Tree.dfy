/** The tree of keys the engine is given for a registry: nodes that own their children, and the path of
    each node. Names are compared without regard to case, so a path is kept in lower case. */
module Tree {
  import opened Chars
  import opened Seqs

  datatype Value = Value(kind: nat, data: string)

  datatype Node = Node(children: map<string, nat>, values: map<string, Value>)

  const EMPTY: Node := Node(map[], map[])

  /** A root and the names below it. */
  datatype Path = Path(root: nat, parts: seq<string>)
  {
    function Down(k: string): Path { Path(root, parts + [k]) }

    function Up(): Path
      requires parts != []
    {
      Path(root, parts[..|parts| - 1])
    }

    function Leaf(): string
      requires parts != []
    {
      parts[|parts| - 1]
    }

    function Then(more: seq<string>): Path { Path(root, parts + more) }

    predicate Under(top: Path) { root == top.root && top.parts <= parts }
  }

  /** Where every node is, and what is at every path. */
  datatype Shape = Shape(at: map<Path, nat>, of: map<nat, Path>)

  const ROOT: nat := 0
  const DENIED: nat := 1

  predicate Matching(nodes: map<nat, Node>, s: Shape) {
    && s.of.Keys == nodes.Keys
    && (forall i <- nodes :: s.of[i] in s.at && s.at[s.of[i]] == i)
    && (forall p <- s.at :: s.at[p] in nodes && s.of[s.at[p]] == p)
  }

  predicate Rooted(s: Shape) {
    && Path(ROOT, []) in s.at && s.at[Path(ROOT, [])] == ROOT
    && Path(DENIED, []) in s.at && s.at[Path(DENIED, [])] == DENIED
  }

  /** Every node but a root is a child of the node one name up ... */
  predicate Owned(nodes: map<nat, Node>, s: Shape)
    requires Matching(nodes, s)
  {
    forall p <- s.at :: p.parts != [] ==> HasOwner(nodes, s, p)
  }

  predicate HasOwner(nodes: map<nat, Node>, s: Shape, p: Path)
    requires Matching(nodes, s) && p in s.at && p.parts != []
  {
    p.Up() in s.at && p.Leaf() in nodes[s.at[p.Up()]].children && nodes[s.at[p.Up()]].children[p.Leaf()] == s.at[p]
  }

  /** ... and there are no other children. */
  predicate Owning(nodes: map<nat, Node>, s: Shape)
    requires Matching(nodes, s)
  {
    forall i <- nodes, k <- nodes[i].children ::
      s.of[i].Down(k) in s.at && s.at[s.of[i].Down(k)] == nodes[i].children[k]
  }

  ghost predicate IsTree(nodes: map<nat, Node>, s: Shape) {
    Matching(nodes, s) && Rooted(s) && Owned(nodes, s) && Owning(nodes, s)
  }

  /** What the tree says: every key there is, with its values. */
  function View(nodes: map<nat, Node>, s: Shape): map<Path, map<string, Value>>
    requires Matching(nodes, s)
  {
    map p | p in s.at :: nodes[s.at[p]].values
  }

  lemma DownUp(p: Path, k: string)
    ensures p.Down(k).Up() == p && p.Down(k).Leaf() == k
  {
  }

  lemma UpDown(p: Path)
    requires p.parts != []
    ensures p.Up().Down(p.Leaf()) == p
  {
  }

  /** A node's children are the keys one name below it. */
  lemma ChildIs(nodes: map<nat, Node>, s: Shape, i: nat, k: string)
    requires IsTree(nodes, s) && i in nodes
    ensures k in nodes[i].children <==> s.of[i].Down(k) in s.at
    ensures k in nodes[i].children ==> nodes[i].children[k] == s.at[s.of[i].Down(k)]
  {
  }

  // ------------------------------------------------------------------------------------------
  // A new child
  // ------------------------------------------------------------------------------------------

  function WithChild(nodes: map<nat, Node>, i: nat, k: string, made: nat): map<nat, Node>
    requires i in nodes
  {
    nodes[i := nodes[i].(children := nodes[i].children[k := made])][made := EMPTY]
  }

  function ShapeWithChild(s: Shape, i: nat, k: string, made: nat): Shape
    requires i in s.of
  {
    var p := s.of[i].Down(k);
    Shape(s.at[p := made], s.of[made := p])
  }

  lemma ChildMatches(nodes: map<nat, Node>, s: Shape, i: nat, k: string, made: nat)
    requires IsTree(nodes, s) && i in nodes && k !in nodes[i].children && made !in nodes
    ensures var nodes', s' := WithChild(nodes, i, k, made), ShapeWithChild(s, i, k, made);
            && Matching(nodes', s') && Rooted(s')
            && View(nodes', s') == View(nodes, s)[s.of[i].Down(k) := map[]]
  {
    hide Owned, Owning;
    ChildIs(nodes, s, i, k);
    ChildMatching(nodes, s, i, k, made);
    ChildView(nodes, s, i, k, made);
  }

  lemma ChildMatching(nodes: map<nat, Node>, s: Shape, i: nat, k: string, made: nat)
    requires Matching(nodes, s) && Rooted(s) && i in nodes && made !in nodes && s.of[i].Down(k) !in s.at
    ensures Matching(WithChild(nodes, i, k, made), ShapeWithChild(s, i, k, made))
    ensures Rooted(ShapeWithChild(s, i, k, made))
  {
  }

  lemma ChildView(nodes: map<nat, Node>, s: Shape, i: nat, k: string, made: nat)
    requires Matching(nodes, s) && i in nodes && made !in nodes && s.of[i].Down(k) !in s.at
    requires Matching(WithChild(nodes, i, k, made), ShapeWithChild(s, i, k, made))
    ensures View(WithChild(nodes, i, k, made), ShapeWithChild(s, i, k, made))
              == View(nodes, s)[s.of[i].Down(k) := map[]]
  {
    hide Path.Down;
  }

  lemma ChildOwned(nodes: map<nat, Node>, s: Shape, i: nat, k: string, made: nat)
    requires IsTree(nodes, s) && i in nodes && k !in nodes[i].children && made !in nodes
    requires Matching(WithChild(nodes, i, k, made), ShapeWithChild(s, i, k, made))
    ensures Owned(WithChild(nodes, i, k, made), ShapeWithChild(s, i, k, made))
  {
    hide Owning, Rooted, View, HasOwner;
    ChildIs(nodes, s, i, k);
    var s' := ShapeWithChild(s, i, k, made);
    forall p <- s'.at | p.parts != [] ensures HasOwner(WithChild(nodes, i, k, made), s', p) {
      if p == s.of[i].Down(k) {
        NewHasOwner(nodes, s, i, k, made);
      } else {
        OldHasOwner(nodes, s, i, k, made, p);
      }
    }
  }

  lemma NewHasOwner(nodes: map<nat, Node>, s: Shape, i: nat, k: string, made: nat)
    requires Matching(nodes, s) && i in nodes && made !in nodes && s.of[i].Down(k) !in s.at
    requires Matching(WithChild(nodes, i, k, made), ShapeWithChild(s, i, k, made))
    ensures HasOwner(WithChild(nodes, i, k, made), ShapeWithChild(s, i, k, made), s.of[i].Down(k))
  {
  }

  lemma OldHasOwner(nodes: map<nat, Node>, s: Shape, i: nat, k: string, made: nat, p: Path)
    requires Matching(nodes, s) && i in nodes && k !in nodes[i].children && made !in nodes && s.of[i].Down(k) !in s.at
    requires Matching(WithChild(nodes, i, k, made), ShapeWithChild(s, i, k, made))
    requires p in s.at && p.parts != [] && HasOwner(nodes, s, p)
    ensures HasOwner(WithChild(nodes, i, k, made), ShapeWithChild(s, i, k, made), p)
  {
  }

  lemma WithChildIs(nodes: map<nat, Node>, s: Shape, i: nat, k: string, made: nat)
    requires i in nodes && i in s.of
    ensures WithChild(nodes, i, k, made).Keys == nodes.Keys + {made}
    ensures ShapeWithChild(s, i, k, made).of == s.of[made := s.of[i].Down(k)]
  {
  }

  lemma ChildOwning(nodes: map<nat, Node>, s: Shape, i: nat, k: string, made: nat)
    requires IsTree(nodes, s) && i in nodes && k !in nodes[i].children && made !in nodes
    requires Matching(WithChild(nodes, i, k, made), ShapeWithChild(s, i, k, made))
    ensures Owning(WithChild(nodes, i, k, made), ShapeWithChild(s, i, k, made))
  {
    hide Owned, Rooted, View;
    ChildIs(nodes, s, i, k);
    var nodes', s' := WithChild(nodes, i, k, made), ShapeWithChild(s, i, k, made);
    forall j <- nodes', c <- nodes'[j].children
      ensures s'.of[j].Down(c) in s'.at && s'.at[s'.of[j].Down(c)] == nodes'[j].children[c]
    {
      if j in nodes && c in nodes[j].children {
        assert s.of[j].Down(c) in s.at;
      }
    }
  }

  lemma ChildAdded(nodes: map<nat, Node>, s: Shape, i: nat, k: string, made: nat)
    requires IsTree(nodes, s) && i in nodes && k !in nodes[i].children && made !in nodes
    ensures var nodes', s' := WithChild(nodes, i, k, made), ShapeWithChild(s, i, k, made);
            && IsTree(nodes', s')
            && View(nodes', s') == View(nodes, s)[s.of[i].Down(k) := map[]]
  {
    ChildMatches(nodes, s, i, k, made);
    ChildOwned(nodes, s, i, k, made);
    ChildOwning(nodes, s, i, k, made);
  }

  // ------------------------------------------------------------------------------------------
  // A value
  // ------------------------------------------------------------------------------------------

  function WithValue(nodes: map<nat, Node>, i: nat, name: string, v: Value): map<nat, Node>
    requires i in nodes
  {
    nodes[i := nodes[i].(values := nodes[i].values[Lowered(name) := v])]
  }

  lemma ValueSet(nodes: map<nat, Node>, s: Shape, i: nat, name: string, v: Value)
    requires IsTree(nodes, s) && i in nodes
    ensures var nodes' := WithValue(nodes, i, name, v);
            && IsTree(nodes', s)
            && View(nodes', s) == View(nodes, s)[s.of[i] := View(nodes, s)[s.of[i]][Lowered(name) := v]]
  {
  }

  // ------------------------------------------------------------------------------------------
  // A subtree taken away
  // ------------------------------------------------------------------------------------------

  /** The nodes at and under `top`. */
  function Subtree(nodes: map<nat, Node>, s: Shape, top: Path): set<nat>
    requires Matching(nodes, s)
  {
    set i | i in nodes && s.of[i].Under(top)
  }

  function Without(nodes: map<nat, Node>, s: Shape, top: Path): map<nat, Node>
    requires Matching(nodes, s) && top.parts != [] && top.Up() in s.at
  {
    var up := s.at[top.Up()];
    map i | i in nodes && !s.of[i].Under(top) ::
      if i == up then nodes[i].(children := nodes[i].children - {top.Leaf()}) else nodes[i]
  }

  function ShapeWithout(s: Shape, top: Path): Shape {
    Shape(map p | p in s.at && !p.Under(top) :: s.at[p], map i | i in s.of && !s.of[i].Under(top) :: s.of[i])
  }

  lemma UnderUp(p: Path, top: Path)
    requires p.parts != [] && p.Up().Under(top)
    ensures p.Under(top)
  {
  }

  lemma UnderDown(p: Path, k: string, top: Path)
    requires p.Down(k).Under(top)
    ensures p.Under(top) || p.Down(k) == top
  {
  }

  lemma TakenMatches(nodes: map<nat, Node>, s: Shape, top: Path)
    requires IsTree(nodes, s) && top in s.at && top.parts != []
    ensures top.Up() in s.at
    ensures var nodes', s' := Without(nodes, s, top), ShapeWithout(s, top);
            && Matching(nodes', s') && Rooted(s')
            && nodes'.Keys == nodes.Keys - Subtree(nodes, s, top)
            && View(nodes', s') == map p | p in View(nodes, s) && !p.Under(top) :: View(nodes, s)[p]
  {
    hide Owning;
    assert top.Up() in s.at;
    TakenMatching(nodes, s, top);
    TakenView(nodes, s, top);
  }

  lemma TakenMatching(nodes: map<nat, Node>, s: Shape, top: Path)
    requires Matching(nodes, s) && Rooted(s) && top.parts != [] && top.Up() in s.at
    ensures var nodes', s' := Without(nodes, s, top), ShapeWithout(s, top);
            Matching(nodes', s') && Rooted(s') && nodes'.Keys == nodes.Keys - Subtree(nodes, s, top)
  {
  }

  lemma TakenView(nodes: map<nat, Node>, s: Shape, top: Path)
    requires Matching(nodes, s) && top.parts != [] && top.Up() in s.at
    requires Matching(Without(nodes, s, top), ShapeWithout(s, top))
    ensures View(Without(nodes, s, top), ShapeWithout(s, top))
         == map p | p in View(nodes, s) && !p.Under(top) :: View(nodes, s)[p]
  {
    hide Path.Under, Path.Up, Path.Leaf;
  }

  lemma TakenOwned(nodes: map<nat, Node>, s: Shape, top: Path)
    requires IsTree(nodes, s) && top in s.at && top.parts != [] && top.Up() in s.at
    requires Matching(Without(nodes, s, top), ShapeWithout(s, top))
    ensures Owned(Without(nodes, s, top), ShapeWithout(s, top))
  {
    hide Owning, View, Subtree, Rooted;
    var nodes', s' := Without(nodes, s, top), ShapeWithout(s, top);
    forall p <- s'.at | p.parts != [] ensures HasOwner(nodes', s', p) {
      assert HasOwner(nodes, s, p);
      if p.Up().Under(top) {
        UnderUp(p, top);
      }
      UpDown(p);
      UpDown(top);
    }
  }

  lemma TakenOwning(nodes: map<nat, Node>, s: Shape, top: Path)
    requires IsTree(nodes, s) && top in s.at && top.parts != [] && top.Up() in s.at
    requires Matching(Without(nodes, s, top), ShapeWithout(s, top))
    ensures Owning(Without(nodes, s, top), ShapeWithout(s, top))
  {
    hide Owned, View, Subtree, Rooted;
    var nodes', s' := Without(nodes, s, top), ShapeWithout(s, top);
    forall j <- nodes', c <- nodes'[j].children
      ensures s'.of[j].Down(c) in s'.at && s'.at[s'.of[j].Down(c)] == nodes'[j].children[c]
    {
      var p := s.of[j].Down(c);
      assert p in s.at && s.at[p] == nodes[j].children[c];
      DownUp(s.of[j], c);
      if p.Under(top) {
        UnderDown(s.of[j], c, top);
      }
    }
  }

  lemma SubtreeTaken(nodes: map<nat, Node>, s: Shape, top: Path)
    requires IsTree(nodes, s) && top in s.at && top.parts != []
    ensures top.Up() in s.at
    ensures var nodes', s' := Without(nodes, s, top), ShapeWithout(s, top);
            && IsTree(nodes', s')
            && nodes'.Keys == nodes.Keys - Subtree(nodes, s, top)
            && View(nodes', s') == map p | p in View(nodes, s) && !p.Under(top) :: View(nodes, s)[p]
  {
    TakenMatches(nodes, s, top);
    TakenOwned(nodes, s, top);
    TakenOwning(nodes, s, top);
  }

  // ------------------------------------------------------------------------------------------
  // Paths as text
  // ------------------------------------------------------------------------------------------

  /** The names in a path, in lower case; empty ones are skipped. */
  function Parts(path: string): seq<string>
    decreases |path|, 1
  {
    var next := Until(path, 0, {'\\'});
    FirstPart(path, next) + LaterParts(path, next)
  }

  function FirstPart(path: string, next: nat): seq<string>
    requires next <= |path|
  {
    if next == 0 then [] else [Lowered(path[..next])]
  }

  function LaterParts(path: string, next: nat): seq<string>
    requires next <= |path|
    decreases |path|, 0
  {
    if next == |path| then [] else Parts(path[next + 1..])
  }

  /** A path in two pieces leads where the second leads from where the first does. */
  lemma {:induction false} PartsJoin(p: string, q: string)
    ensures Parts(p + "\\" + q) == Parts(p) + Parts(q)
    decreases |p|
  {
    hide Lowered;
    var next := Until(p, 0, {'\\'});
    var all := p + "\\" + q;
    assert all[next] == if next < |p| then p[next] else '\\';
    UntilIs(all, 0, {'\\'}, next);
    assert all[..next] == p[..next];
    if next == |p| {
      assert all[next + 1..] == q;
    } else {
      assert all[next + 1..] == p[next + 1..] + "\\" + q;
      PartsJoin(p[next + 1..], q);
      Assoc(FirstPart(p, next), Parts(p[next + 1..]), Parts(q));
    }
  }

  /** One name. */
  lemma PartsOfName(name: string)
    requires '\\' !in name
    ensures Parts(name) == if name == "" then [] else [Lowered(name)]
  {
    UntilIs(name, 0, {'\\'}, |name|);
    assert name[..|name|] == name;
  }

  /** What a path makes of the keys there are: every name on the way that is missing is added, empty. */
  function Grown(view: map<Path, map<string, Value>>, p: Path, parts: seq<string>): map<Path, map<string, Value>>
    decreases |parts|
  {
    if parts == [] then view
    else
      var q := p.Down(parts[0]);
      Grown(if q in view then view else view[q := map[]], q, parts[1..])
  }

  /** Growing adds the path's own prefixes, empty, and changes nothing that was there. */
  lemma {:induction false} GrownIs(view: map<Path, map<string, Value>>, p: Path, parts: seq<string>)
    ensures var v := Grown(view, p, parts);
            && (forall q <- view :: q in v && v[q] == view[q])
            && (forall q <- v :: q in view || (v[q] == map[] && q.Under(p) && p.Then(parts).Under(q) && q != p))
            && (parts != [] ==> p.Then(parts) in v)
    decreases |parts|
  {
    if parts != [] {
      var q := p.Down(parts[0]);
      var w := if q in view then view else view[q := map[]];
      GrownIs(w, q, parts[1..]);
      assert q.parts + parts[1..] == p.parts + parts;
      if |parts| == 1 {
        assert Grown(w, q, parts[1..]) == w && p.Then(parts) == q;
      }
    }
  }
}

/** The registry the engine is given: a tree of keys in memory, and a table of open handles. */
module Registry {
  import opened Wrappers
  import opened Chars
  import opened Seqs
  import opened Tags
  import opened Tree

  const HANDLE_BASE: nat := 0x4956_0000
  const CURRENT_USER: nat := 0x8000_0001
  const LOCAL_MACHINE: nat := 0x8000_0002

  predicate IsPredefined(key: nat) { key / 0x8000_0000 % 2 == 1 }

  datatype Status = Success | FileNotFound | InvalidHandle | InvalidParameter | MoreData

  /** Where the last name of a path begins. */
  function LeafFrom(path: string): (cut: nat)
    ensures cut <= |path| && '\\' !in path[cut..] && (cut > 0 ==> path[cut - 1] == '\\')
  {
    if path == "" then 0
    else if path[|path| - 1] == '\\' then |path|
    else
      var cut := LeafFrom(path[..|path| - 1]);
      assert path[cut..] == path[..|path| - 1][cut..] + [path[|path| - 1]];
      cut
  }

  function LeafOf(path: string): string { path[LeafFrom(path)..] }

  function ParentOf(path: string): string {
    if LeafFrom(path) == 0 then "" else path[..LeafFrom(path) - 1]
  }

  lemma PartsOfPath(path: string)
    ensures Parts(path) == Parts(ParentOf(path)) + if LeafOf(path) == "" then [] else [Lowered(LeafOf(path))]
  {
    hide Parts, Lowered;
    PartsOfName(LeafOf(path));
    if LeafFrom(path) > 0 {
      assert path == ParentOf(path) + "\\" + LeafOf(path);
      PartsJoin(ParentOf(path), LeafOf(path));
    } else {
      assert LeafOf(path) == path;
      NoParts();
    }
  }

  lemma NoParts()
    ensures Parts("") == []
  {
  }

  // ------------------------------------------------------------------------------------------
  // What the operations mean, on keys and values alone
  // ------------------------------------------------------------------------------------------

  type Contents = map<Path, map<string, Value>>

  /** One value written at a path from a root, and the keys on the way. */
  function Wrote(view: Contents, at: Path, path: string, name: string, v: Value): Contents
    requires at in view
  {
    var grown, p := Grown(view, at, Parts(path)), at.Then(Parts(path));
    GrownHas(view, at, Parts(path));
    grown[p := grown[p][Lowered(name) := v]]
  }

  function Removed(view: Contents, top: Path): Contents {
    map p | p in view && !p.Under(top) :: view[p]
  }

  /** A path names a key that can be removed: there is a name after the last backslash, and the key is there. */
  predicate Removes(view: Contents, path: string) { LeafOf(path) != "" && Path(ROOT, Parts(path)) in view }

  /** The value of a name under a key. */
  function Reading(view: Contents, p: Path, name: string): Option<Value> {
    if p in view && Lowered(name) in view[p] then Option.Some(view[p][Lowered(name)]) else None
  }

  lemma GrownHas(view: Contents, p: Path, parts: seq<string>)
    requires p in view
    ensures p.Then(parts) in Grown(view, p, parts)
  {
    GrownIs(view, p, parts);
    if parts == [] {
      ThenNothing(p);
    }
  }

  /** Reading after writing: the one value written, under the one key, whatever the case of either name,
      and every other value as it was. */
  lemma ReadOverWrite(view: Contents, at: Path, path: string, name: string, v: Value, q: Path, other: string)
    requires at in view
    ensures Reading(Wrote(view, at, path, name, v), q, other)
         == if q == at.Then(Parts(path)) && SameName(other, name) then Option.Some(v) else Reading(view, q, other)
  {
    hide Parts, Lowered, Grown;
    GrownHas(view, at, Parts(path));
    GrownIs(view, at, Parts(path));
    if at.Then(Parts(path)) in view {
    } else {
      assert Parts(path) != [] by {
        if Parts(path) == [] {
          ThenNothing(at);
        }
      }
    }
  }

  // ------------------------------------------------------------------------------------------
  // The registry itself
  // ------------------------------------------------------------------------------------------

  const NEW_NODES: map<nat, Node> := map[ROOT := EMPTY, DENIED := EMPTY]
  const NEW_SHAPE: Shape := Shape(map[Path(ROOT, []) := ROOT, Path(DENIED, []) := DENIED],
                                 map[ROOT := Path(ROOT, []), DENIED := Path(DENIED, [])])

  lemma NewTree()
    ensures IsTree(NEW_NODES, NEW_SHAPE) && NEW_SHAPE.of.Keys == NEW_NODES.Keys
    ensures View(NEW_NODES, NEW_SHAPE) == map[Path(ROOT, []) := map[], Path(DENIED, []) := map[]]
  {
    assert forall p <- NEW_SHAPE.at :: p.parts == [];
  }

  /** A tree, no node yet to be made in it, and every handle open on one of its nodes. */
  ghost predicate Sane(nodes: map<nat, Node>, nextNode: nat, handles: map<nat, nat>, nextHandle: nat, shape: Shape) {
    && IsTree(nodes, shape) && shape.of.Keys == nodes.Keys
    && (forall h <- handles :: handles[h] in nodes && h <= HANDLE_BASE + nextHandle)
    && (forall i <- nodes :: i < nextNode)
  }

  lemma ChildIsSane(nodes: map<nat, Node>, nextNode: nat, handles: map<nat, nat>, nextHandle: nat, shape: Shape,
                    i: nat, k: string)
    requires Sane(nodes, nextNode, handles, nextHandle, shape) && i in nodes && k !in nodes[i].children
    ensures i in shape.of
    ensures var nodes', shape' := WithChild(nodes, i, k, nextNode), ShapeWithChild(shape, i, k, nextNode);
            && Sane(nodes', nextNode + 1, handles, nextHandle, shape')
            && nextNode in nodes' && shape'.of[nextNode] == shape.of[i].Down(k)
            && View(nodes', shape') == View(nodes, shape)[shape.of[i].Down(k) := map[]]
            && OpenOn(handles, shape'.of) == OpenOn(handles, shape.of)
  {
    hide IsTree, Matching, View, Path.Down, WithChild, ShapeWithChild;
    ChildAdded(nodes, shape, i, k, nextNode);
    WithChildIs(nodes, shape, i, k, nextNode);
  }

  ghost function OpenOn(handles: map<nat, nat>, of: map<nat, Path>): map<nat, Path> {
    map h | h in handles && handles[h] in of :: of[handles[h]]
  }

  class VirtualRegistry {
    var nodes: map<nat, Node>
    var nextNode: nat
    var handles: map<nat, nat>
    var nextHandle: nat
    ghost var shape: Shape

    ghost predicate Valid()
      reads this
    {
      Sane(nodes, nextNode, handles, nextHandle, shape)
    }

    /** The keys there are and their values. */
    ghost function Keys(): map<Path, map<string, Value>>
      requires Valid()
      reads this
    {
      View(nodes, shape)
    }

    /** The keys that handles are open on. */
    ghost function Open(): map<nat, Path>
      requires Valid()
      reads this
    {
      OpenOn(handles, shape.of)
    }

    constructor ()
      ensures Valid() && Open() == map[]
      ensures Keys() == map[Path(ROOT, []) := map[], Path(DENIED, []) := map[]]
    {
      hide IsTree, Matching, View;
      NewTree();
      nodes := NEW_NODES;
      nextNode := 2;
      handles := map[];
      nextHandle := 1;
      shape := NEW_SHAPE;
    }

    method AddChild(i: nat, k: string) returns (made: nat)
      requires Valid() && i in nodes && k !in nodes[i].children
      modifies this
      ensures Valid() && handles == old(handles) && nextHandle == old(nextHandle)
      ensures made in nodes && shape.of[made] == old(shape.of[i]).Down(k)
      ensures Keys() == old(Keys())[old(shape.of[i]).Down(k) := map[]]
      ensures Open() == old(Open())
    {
      hide Sane, View, OpenOn, WithChild, ShapeWithChild, Path.Down;
      ChildIsSane(nodes, nextNode, handles, nextHandle, shape, i, k);
      made := nextNode;
      nodes, nextNode, shape :=
        WithChild(nodes, i, k, made), nextNode + 1, ShapeWithChild(shape, i, k, made);
    }

    /** VRegKey::child: the key a path leads to from another, made on the way if it has to be. */
    method Child(from: nat, path: string, create: bool) returns (r: Option<nat>)
      requires Valid() && from in nodes
      modifies this
      ensures Valid() && handles == old(handles) && nextHandle == old(nextHandle) && Open() == old(Open())
      ensures r.Some? <==> create || old(shape.of[from]).Then(Parts(path)) in old(Keys())
      ensures r.Some? ==> r.value in nodes && shape.of[r.value] == old(shape.of[from]).Then(Parts(path))
      ensures !create ==> nodes == old(nodes) && shape == old(shape)
      ensures Keys() == if create then Grown(old(Keys()), old(shape.of[from]), Parts(path)) else old(Keys())
    {
      hide IsTree, Parts, Matching;
      var node, pos := from, 0;
      assert path[0..] == path;
      while true
        invariant pos <= |path| && Valid() && node in nodes
        invariant handles == old(handles) && nextHandle == old(nextHandle) && Open() == old(Open())
        invariant shape.of[node].Then(Parts(path[pos..])) == old(shape.of[from]).Then(Parts(path))
        invariant !create ==> nodes == old(nodes) && shape == old(shape)
        invariant create ==>
                    Grown(Keys(), shape.of[node], Parts(path[pos..]))
                      == Grown(old(Keys()), old(shape.of[from]), Parts(path))
        decreases |path| - pos
      {
        var next := FindAny(path, pos, {'\\'});
        PartsFrom(path, pos);
        var part := Lowered(path[pos..next]);
        if path[pos..next] != "" {
          ghost var rest := if next == |path| then [] else Parts(path[next + 1..]);
          ghost var here := shape.of[node];
          assert Parts(path[pos..]) == [part] + rest;
          ThenDown(here, part, rest);
          GrownDown(Keys(), here, part, rest);
          ChildIs(nodes, shape, node, part);
          KeyIs(nodes, shape, here.Down(part));
          if part !in nodes[node].children {
            if !create {
              NothingBelow(nodes, shape, here.Down(part), rest);
              return None;
            }
            node := AddChild(node, part);
          } else {
            node := nodes[node].children[part];
          }
        }
        if next == |path| {
          NodeIs(nodes, shape, node);
          ThenNothing(shape.of[node]);
          return Some(node);
        }
        pos := next + 1;
      }
    }

    /** set_string: one value, and the keys on the way to it. */
    method SetString(path: string, name: string, text: string)
      requires Valid()
      modifies this
      ensures Valid() && handles == old(handles) && nextHandle == old(nextHandle) && Open() == old(Open())
      ensures Path(ROOT, []) in old(Keys()) && Keys() == Wrote(old(Keys()), Path(ROOT, []), path, name, Sz(text))
    {
      hide IsTree, Matching, Parts, Grown;
      RootsAre(nodes, shape);
      NodeIs(nodes, shape, ROOT);
      var node := Child(ROOT, path, true);
      WriteValue(node.value, name, Sz(text));
    }

    method WriteValue(node: nat, name: string, v: Value)
      requires Valid() && node in nodes
      modifies this
      ensures Valid() && handles == old(handles) && nextHandle == old(nextHandle) && Open() == old(Open())
      ensures shape == old(shape) && shape.of[node] in old(Keys())
      ensures Keys() == old(Keys())[shape.of[node] := old(Keys())[shape.of[node]][Lowered(name) := v]]
    {
      hide IsTree, Matching;
      NodeIs(nodes, shape, node);
      ValueSet(nodes, shape, node, name, v);
      nodes := WithValue(nodes, node, name, v);
    }

    /** forget_handles: every handle into the subtree at `node` is dropped, and no other. */
    method ForgetHandles(node: nat) returns (going: set<nat>)
      requires Valid() && node in nodes
      modifies this`handles
      ensures Valid()
      ensures going == set i | i in nodes && shape.of[i].Under(shape.of[node])
      ensures handles
           == map h | h in old(handles) && !shape.of[old(handles)[h]].Under(shape.of[node]) :: old(handles)[h]
    {
      hide IsTree, Matching;
      ghost var top := shape.of[node];
      ghost var under := set i | i in nodes && shape.of[i].Under(top);
      going := {};
      var pending: seq<nat> := [node];
      while pending != []
        invariant handles == old(handles)
        invariant going <= under && (forall i <- pending :: i in under)
        invariant node in going || node in pending
        invariant forall i <- going, k <- nodes[i].children ::
                    nodes[i].children[k] in going || nodes[i].children[k] in pending
        decreases under - going, |pending|
      {
        var current := pending[|pending| - 1];
        ghost var were := pending;
        pending := pending[..|pending| - 1];
        assert current in were && forall i <- were :: i in pending || i == current;
        if current !in going {
          going := going + {current};
          var names := nodes[current].children.Keys;
          while names != {}
            invariant handles == old(handles)
            invariant names <= nodes[current].children.Keys
            invariant forall i <- were :: i in pending || i == current
            invariant forall i <- pending :: i in under
            invariant forall k <- nodes[current].children.Keys - names :: nodes[current].children[k] in pending
            decreases names
          {
            var k :| k in names;
            names := names - {k};
            ChildIsUnder(nodes, shape, current, k, top);
            pending := pending + [nodes[current].children[k]];
          }
        }
      }
      AllUnder(nodes, shape, node, going);
      handles := map h | h in handles && handles[h] !in going :: handles[h];
    }

    /** The key is erased from its parent, and its whole subtree goes with it. */
    method TakeSubtree(owner: nat, k: string, going: set<nat>)
      requires Valid() && owner in nodes && k in nodes[owner].children
      requires going == set i | i in nodes && shape.of[i].Under(shape.of[owner].Down(k))
      requires forall h <- handles :: handles[h] !in going
      modifies this
      ensures Valid() && nextHandle == old(nextHandle) && Open() == old(Open())
      ensures Keys() == Removed(old(Keys()), old(shape.of[owner]).Down(k))
    {
      hide Owned, Owning, View, Rooted;
      ghost var top := shape.of[owner].Down(k);
      ChildIs(nodes, shape, owner, k);
      DownUp(shape.of[owner], k);
      SubtreeTaken(nodes, shape, top);
      ghost var s, all := shape, nodes;
      shape := ShapeWithout(shape, top);
      nodes := map i | i in nodes && i !in going ::
        if i == owner then nodes[i].(children := nodes[i].children - {k}) else nodes[i];
      assert nodes == Without(all, s, top);
    }

    method FindLeaf(path: string) returns (cut: nat)
      ensures cut == LeafFrom(path)
    {
      cut := |path|;
      assert path[..|path|] == path;
      while cut > 0 && path[cut - 1] != '\\'
        invariant cut <= |path| && LeafFrom(path) == LeafFrom(path[..cut])
      {
        assert path[..cut][..cut - 1] == path[..cut - 1];
        cut := cut - 1;
      }
    }

    /** remove_key: the key at the path and everything under it, with the handles open on them; every other
        key and handle stays as it is. A path with nothing after its last backslash removes nothing. */
    method RemoveKey(path: string)
      requires Valid()
      modifies this
      ensures Valid() && nextHandle == old(nextHandle)
      ensures var top := Path(ROOT, Parts(path));
              if Removes(old(Keys()), path) then
                && Keys() == Removed(old(Keys()), top)
                && Open() == map h | h in old(Open()) && !old(Open())[h].Under(top) :: old(Open())[h]
              else
                Keys() == old(Keys()) && Open() == old(Open())
    {
      hide IsTree, Matching, Parts, View;
      RootsAre(nodes, shape);
      var cut := FindLeaf(path);
      var parent := if cut == 0 then "" else path[..cut - 1];
      var leaf := path[cut..];
      PartsOfPath(path);
      var owner := Child(ROOT, parent, false);
      ThenIs(ROOT, Parts(parent));
      ghost var top := Path(ROOT, Parts(path));
      if leaf == "" {
        return;
      }
      assert top == Path(ROOT, Parts(parent)).Down(Lowered(leaf));
      if owner == None {
        KeyIs(nodes, shape, Path(ROOT, Parts(parent)));
        NothingBelow(nodes, shape, Path(ROOT, Parts(parent)), [Lowered(leaf)]);
        return;
      }
      ChildIs(nodes, shape, owner.value, Lowered(leaf));
      KeyIs(nodes, shape, top);
      if Lowered(leaf) in nodes[owner.value].children {
        var going := ForgetHandles(nodes[owner.value].children[Lowered(leaf)]);
        DownUp(Path(ROOT, Parts(parent)), Lowered(leaf));
        TakeSubtree(owner.value, Lowered(leaf), going);
      }
    }

    // ----------------------------------------------------------------------------------------
    // Handles
    // ----------------------------------------------------------------------------------------

    /** The key a handle stands for. The two hives the engine asks for are the one tree; the other
        predefined ones are an empty key. Whatever a handle stands for is there. */
    ghost function Target(key: nat): (p: Option<Path>)
      requires Valid()
      reads this
      ensures p.Some? ==> p.value in Keys()
    {
      RootsAre(nodes, shape);
      if key == LOCAL_MACHINE || key == CURRENT_USER then Option.Some(Path(ROOT, []))
      else if IsPredefined(key) then Option.Some(Path(DENIED, []))
      else if key in Open() then NodeIs(nodes, shape, handles[key]); Option.Some(Open()[key])
      else None
    }

    method Resolve(key: nat) returns (r: Option<nat>)
      requires Valid()
      ensures r.Some? <==> Target(key).Some?
      ensures r.Some? ==> r.value in nodes && shape.of[r.value] == Target(key).value
    {
      hide IsTree, Matching;
      RootsAre(nodes, shape);
      if key == LOCAL_MACHINE || key == CURRENT_USER {
        return Option.Some(ROOT);
      }
      if IsPredefined(key) {
        return Option.Some(DENIED);
      }
      return if key in handles then Option.Some(handles[key]) else None;
    }

    /** A handle of its own for every opening: no handle that is open already is touched. */
    method MakeHandle(node: nat) returns (key: nat)
      requires Valid() && node in nodes
      modifies this`handles, this`nextHandle
      ensures Valid() && nextHandle == old(nextHandle) + 4 && key == HANDLE_BASE + nextHandle
      ensures key !in old(Open()) && Open() == old(Open())[key := shape.of[node]]
    {
      hide IsTree, Matching;
      nextHandle := nextHandle + 4;
      key := HANDLE_BASE + nextHandle;
      handles := handles[key := node];
    }

    method CloseHandle(key: nat)
      requires Valid()
      modifies this`handles
      ensures Valid() && Open() == old(Open()) - {key}
    {
      hide IsTree, Matching;
      handles := handles - {key};
    }

    /** RegOpenKeyExA; `wanted` when the caller has somewhere to put the handle. */
    method OpenKey(key: nat, sub: string, wanted: bool) returns (status: Status, h: nat)
      requires Valid()
      modifies this
      ensures Valid() && Keys() == old(Keys())
      ensures var from := old(Target(key));
              if from == None || from.value.Then(Parts(sub)) !in old(Keys()) then
                status == FileNotFound && Open() == old(Open())
              else if !wanted then
                status == InvalidParameter && Open() == old(Open())
              else
                status == Success && h !in old(Open()) && Open() == old(Open())[h := from.value.Then(Parts(sub))]
    {
      hide IsTree, Matching, Parts;
      h := 0;
      var parent := Resolve(key);
      if parent == None {
        return FileNotFound, h;
      }
      var node := Child(parent.value, sub, false);
      if node == None {
        return FileNotFound, h;
      }
      if !wanted {
        return InvalidParameter, h;
      }
      h := MakeHandle(node.value);
      return Success, h;
    }

    /** RegCreateKeyExA; `wanted` when the caller has somewhere to put the handle. */
    method CreateKey(key: nat, sub: string, wanted: bool) returns (status: Status, h: nat, existed: bool)
      requires Valid()
      modifies this
      ensures Valid()
      ensures var from := old(Target(key));
              if from == None || !wanted then
                status == InvalidParameter && Keys() == old(Keys()) && Open() == old(Open())
              else
                && status == Success && (existed <==> from.value.Then(Parts(sub)) in old(Keys()))
                && Keys() == Grown(old(Keys()), from.value, Parts(sub))
                && h !in old(Open()) && Open() == old(Open())[h := from.value.Then(Parts(sub))]
    {
      hide IsTree, Matching, Parts;
      h, existed := 0, false;
      var parent := Resolve(key);
      if parent == None || !wanted {
        return InvalidParameter, h, existed;
      }
      var before := Child(parent.value, sub, false);
      existed := before.Some?;
      var node := Child(parent.value, sub, true);
      h := MakeHandle(node.value);
      return Success, h, existed;
    }

    /** RegSetValueExA. */
    method SetValueEx(key: nat, name: string, v: Value) returns (status: Status)
      requires Valid()
      modifies this
      ensures Valid() && Open() == old(Open())
      ensures var at := old(Target(key));
              if at == None then status == InvalidHandle && Keys() == old(Keys())
              else status == Success && Keys() == old(Keys())[at.value := old(Keys())[at.value][Lowered(name) := v]]
    {
      hide IsTree, Matching;
      var node := Resolve(key);
      if node == None {
        return InvalidHandle;
      }
      WriteValue(node.value, name, v);
      return Success;
    }

    /** RegQueryValueExA: the value, if the caller gives a buffer that holds it; its size, if the caller
        only asks for that or the buffer is too small. `size` is the caller's size, before and after. */
    method QueryValue(key: nat, name: string, data: array?<char>, size: Option<nat>)
        returns (status: Status, kind: Option<nat>, size': Option<nat>)
      requires Valid()
      requires data != null && size.Some? ==> size.value <= data.Length
      modifies if data == null then {} else {data}
      ensures var at := Target(key);
              var v := if at == None then None else Reading(Keys(), at.value, name);
              && kind == (if v == None then None else Option.Some(v.value.kind))
              && status == (if at == None then InvalidHandle else if v == None then FileNotFound
                            else if data == null then Success else if size == None then InvalidParameter
                            else if size.value < |v.value.data| then MoreData else Success)
              && size' == (if v == None || size == None then size else Option.Some(|v.value.data|))
              && (data != null ==>
                    if v.Some? && status == Success then
                      && |v.value.data| <= data.Length && data[..|v.value.data|] == v.value.data
                      && data[|v.value.data|..] == old(data[|v.value.data|..])
                    else data[..] == old(data[..]))
    {
      hide IsTree, Matching;
      size' := size;
      var node := Resolve(key);
      if node == None {
        return InvalidHandle, None, size';
      }
      NodeIs(nodes, shape, node.value);
      var values := nodes[node.value].values;
      if Lowered(name) !in values {
        return FileNotFound, None, size';
      }
      var value := values[Lowered(name)];
      kind := Option.Some(value.kind);
      var needed := |value.data|;
      if size.Some? {
        size' := Option.Some(needed);
      }
      if data == null {
        return Success, kind, size';
      }
      if size == None {
        return InvalidParameter, kind, size';
      }
      if size.value < needed {
        return MoreData, kind, size';
      }
      forall i | 0 <= i < needed {
        data[i] := value.data[i];
      }
      return Success, kind, size';
    }

    /** uninstall drops every handle and keeps the tree. */
    method Uninstall()
      requires Valid()
      modifies this`handles
      ensures Valid() && Keys() == old(Keys()) && Open() == map[]
    {
      hide IsTree, Matching;
      handles := map[];
    }
  }

  /** HKEY_CURRENT_USER and HKEY_LOCAL_MACHINE are the one tree; any other predefined key is an empty one;
      everything else is a handle, or nothing. */
  lemma TargetIs(r: VirtualRegistry, key: nat)
    requires r.Valid()
    ensures r.Target(key) == if key == 0x8000_0001 || key == 0x8000_0002 then Option.Some(Path(0, []))
                             else if key / 0x8000_0000 % 2 == 1 then Option.Some(Path(1, []))
                             else if key in r.Open() then Option.Some(r.Open()[key]) else None
  {
  }

  /** A path names a key to be removed when it does not end in a backslash, is not empty, and the key is there. */
  lemma RemovesWhen(view: Contents, path: string)
    ensures Removes(view, path) <==>
              path != "" && path[|path| - 1] != '\\' && Path(0, Parts(path)) in view
  {
    hide Parts;
    if path != "" && path[|path| - 1] != '\\' {
      assert LeafFrom(path) < |path|;
    }
  }

  /** The n-th handle ever made is mistaken for a predefined key from the 229,277,696th on (the first one
      mistaken is HKEY_CURRENT_USER itself), for 2^29 handles; then none is for as many, and so on, turn and
      turn about. */
  lemma HandlesRunOut(n: nat)
    ensures var first := 229277696;
            && (IsPredefined(HANDLE_BASE + 1 + 4 * n) <==> n >= first && (n - first) % 0x4000_0000 < 0x2000_0000)
            && HANDLE_BASE + 1 + 4 * first == CURRENT_USER
  {
  }

  lemma PartsFrom(path: string, pos: nat)
    requires pos <= |path|
    ensures var next := Until(path, pos, {'\\'});
            var rest := if next == |path| then [] else Parts(path[next + 1..]);
            Parts(path[pos..]) == if path[pos..next] == "" then rest else [Lowered(path[pos..next])] + rest
  {
    hide Lowered, Parts;
    var next, tail := Until(path, pos, {'\\'}), path[pos..];
    UntilIs(tail, 0, {'\\'}, next - pos);
    PartsSplit(tail);
    assert tail[..next - pos] == path[pos..next];
    if next < |path| {
      assert tail[next - pos + 1..] == path[next + 1..];
    }
  }

  lemma PartsSplit(path: string)
    ensures var next := Until(path, 0, {'\\'}); Parts(path) == FirstPart(path, next) + LaterParts(path, next)
  {
  }

  lemma ThenDown(p: Path, k: string, rest: seq<string>)
    ensures p.Then([k] + rest) == p.Down(k).Then(rest)
  {
  }

  lemma ThenNothing(p: Path)
    ensures p.Then([]) == p
  {
  }

  lemma GrownDown(view: map<Path, map<string, Value>>, p: Path, k: string, rest: seq<string>)
    ensures Grown(view, p, [k] + rest)
              == Grown(if p.Down(k) in view then view else view[p.Down(k) := map[]], p.Down(k), rest)
    ensures Grown(view, p.Down(k), []) == view
  {
  }

  lemma NodeIs(nodes: map<nat, Node>, s: Shape, i: nat)
    requires IsTree(nodes, s) && i in nodes
    ensures s.of[i] in View(nodes, s) && View(nodes, s)[s.of[i]] == nodes[i].values
  {
  }

  lemma KeyIs(nodes: map<nat, Node>, s: Shape, p: Path)
    requires IsTree(nodes, s)
    ensures p in View(nodes, s) <==> p in s.at
    ensures p in s.at ==> s.at[p] in nodes && s.of[s.at[p]] == p
  {
  }

  /** Below a key that is not there is nothing. */
  lemma {:induction false} NothingBelow(nodes: map<nat, Node>, s: Shape, p: Path, rest: seq<string>)
    requires IsTree(nodes, s) && p !in s.at
    ensures p.Then(rest) !in View(nodes, s)
    decreases |rest|
  {
    if rest == [] {
      ThenNothing(p);
    } else {
      var k := |rest| - 1;
      NothingBelow(nodes, s, p, rest[..k]);
      assert rest == rest[..k] + [rest[k]];
      Assoc(p.parts, rest[..k], [rest[k]]);
      DownUp(p.Then(rest[..k]), rest[k]);
    }
  }

  /** A string value, with the NUL it ends in. */
  function Sz(text: string): Value { Value(1, text + [0 as char]) }

  lemma RootsAre(nodes: map<nat, Node>, s: Shape)
    requires IsTree(nodes, s)
    ensures ROOT in nodes && s.of[ROOT] == Path(ROOT, []) && DENIED in nodes && s.of[DENIED] == Path(DENIED, [])
  {
  }

  lemma ThenIs(root: nat, parts: seq<string>)
    ensures Path(root, []).Then(parts) == Path(root, parts)
  {
  }

  lemma ChildIsUnder(nodes: map<nat, Node>, s: Shape, i: nat, k: string, top: Path)
    requires IsTree(nodes, s) && i in nodes && s.of[i].Under(top) && k in nodes[i].children
    ensures nodes[i].children[k] in nodes && s.of[nodes[i].children[k]].Under(top)
  {
  }

  /** A set of nodes that holds the top of a subtree, and with a node its children, holds the subtree. */
  lemma AllUnder(nodes: map<nat, Node>, s: Shape, node: nat, going: set<nat>)
    requires IsTree(nodes, s) && node in going
    requires going <= nodes.Keys && forall i <- going, k <- nodes[i].children :: nodes[i].children[k] in going
    ensures forall i <- nodes | s.of[i].Under(s.of[node]) :: i in going
  {
    var top := s.of[node];
    forall i <- nodes | s.of[i].Under(top) ensures i in going {
      OneUnder(nodes, s, top, going, s.of[i]);
    }
  }

  lemma {:induction false} OneUnder(nodes: map<nat, Node>, s: Shape, top: Path, going: set<nat>, p: Path)
    requires IsTree(nodes, s) && top in s.at && s.at[top] in going
    requires going <= nodes.Keys && forall i <- going, k <- nodes[i].children :: nodes[i].children[k] in going
    requires p in s.at && p.Under(top)
    ensures s.at[p] in going
    decreases |p.parts|
  {
    hide Rooted, Owning, Path.Under;
    UnderIsUpUnder(p, top);
    if p != top {
      OneUnder(nodes, s, top, going, p.Up());
    }
  }

  lemma UnderIsUpUnder(p: Path, top: Path)
    requires p.Under(top)
    ensures p == top || (p.parts != [] && p.Up().Under(top))
  {
  }
}

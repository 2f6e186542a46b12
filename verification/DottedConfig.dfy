/** Setting a dotted key in a configuration held as nested mutable maps, and the lens laws it obeys. */
module DottedConfig {
  import opened Text

  // ---------------------------------------------------------------- configuration as a value

  /** Anything that is not an object (text, number, list, null) is a leaf. */
  datatype Tree = Leaf(text: string) | Node(kids: map<string, Tree>)

  function Get(t: Tree, path: seq<string>): Option<Tree>
    decreases |path|
  {
    if path == [] then Some(t)
    else if t.Leaf? || path[0] !in t.kids then None
    else Get(t.kids[path[0]], path[1..])
  }

  /** The tree with `v` at the path, objects created on the way; nothing if a leaf is in the way. */
  function Put(t: Tree, path: seq<string>, v: Tree): Option<Tree>
    decreases |path|
  {
    if path == [] then Some(v)
    else if t.Leaf? then None
    else
      var kid := if path[0] in t.kids then t.kids[path[0]] else Node(map[]);
      match Put(kid, path[1..], v)
      case None => None
      case Some(below) => Some(Node(t.kids[path[0] := below]))
  }

  predicate Incomparable(p: seq<string>, q: seq<string>) {
    !(p <= q) && !(q <= p)
  }

  /** A lookup of the key gives the value, and of a longer key what the value has there. */
  lemma {:induction false} GetAfterPut(t: Tree, path: seq<string>, v: Tree, below: seq<string>)
    requires Put(t, path, v).Some?
    ensures Get(Put(t, path, v).value, path + below) == Get(v, below)
    decreases |path|
  {
    if path == [] {
      assert path + below == below;
    } else {
      assert (path + below)[1..] == path[1..] + below;
      GetAfterPut(if path[0] in t.kids then t.kids[path[0]] else Node(map[]), path[1..], v, below);
    }
  }

  /** Paths that are neither above nor below the key are as before. */
  lemma {:induction false} OthersUnchanged(t: Tree, path: seq<string>, v: Tree, other: seq<string>)
    requires Put(t, path, v).Some? && Incomparable(path, other)
    ensures Get(Put(t, path, v).value, other) == Get(t, other)
    decreases |path|
  {
    if path[0] == other[0] {
      assert path == [path[0]] + path[1..] && other == [other[0]] + other[1..];
      OthersUnchanged(if path[0] in t.kids then t.kids[path[0]] else Node(map[]), path[1..], v, other[1..]);
    }
  }

  /** Paths above the key are objects; one that was an object keeps its other keys. */
  lemma {:induction false} AboveIsObject(t: Tree, path: seq<string>, v: Tree, k: nat)
    requires Put(t, path, v).Some? && k < |path|
    ensures Get(t, path[..k]).Some? ==> Get(t, path[..k]).value.Node?
    ensures var u := Get(Put(t, path, v).value, path[..k]);
            && u.Some? && u.value.Node?
            && u.value.kids.Keys == (if Get(t, path[..k]).Some? then Get(t, path[..k]).value.kids.Keys else {}) + {path[k]}
    decreases |path|
  {
    if k > 0 {
      assert path[..k][1..] == path[1..][..k - 1];
      AboveIsObject(if path[0] in t.kids then t.kids[path[0]] else Node(map[]), path[1..], v, k - 1);
      if path[0] !in t.kids && k > 1 {
        assert Get(Node(map[]), path[1..][..k - 1]) == None;
      }
    }
  }

  /** A second set overrides the first. */
  lemma {:induction false} PutPut(t: Tree, path: seq<string>, v: Tree, w: Tree)
    requires Put(t, path, v).Some?
    ensures Put(Put(t, path, v).value, path, w) == Put(t, path, w)
    decreases |path|
  {
    if path != [] {
      var kid := if path[0] in t.kids then t.kids[path[0]] else Node(map[]);
      PutPut(kid, path[1..], v, w);
      PutSame(kid, path[1..], v, w);
      var first, second := Put(kid, path[1..], v).value, Put(kid, path[1..], w).value;
      assert t.kids[path[0] := first][path[0] := second] == t.kids[path[0] := second];
    }
  }

  /** Whether a set succeeds does not depend on the value. */
  lemma {:induction false} PutSame(t: Tree, path: seq<string>, v: Tree, w: Tree)
    ensures Put(t, path, v).Some? <==> Put(t, path, w).Some?
    decreases |path|
  {
    if path != [] && t.Node? {
      PutSame(if path[0] in t.kids then t.kids[path[0]] else Node(map[]), path[1..], v, w);
    }
  }

  /** Setting what is there changes nothing. */
  lemma {:induction false} PutGet(t: Tree, path: seq<string>)
    requires Get(t, path).Some?
    ensures Put(t, path, Get(t, path).value) == Some(t)
    decreases |path|
  {
    if path != [] {
      PutGet(t.kids[path[0]], path[1..]);
      assert t.kids[path[0] := t.kids[path[0]]] == t.kids;
    }
  }

  /** A set fails exactly when a leaf stands at a proper prefix of the path. */
  lemma {:induction false} PutFailsIff(t: Tree, path: seq<string>, v: Tree)
    ensures Put(t, path, v).None? <==>
            exists k :: 0 <= k < |path| && Get(t, path[..k]).Some? && Get(t, path[..k]).value.Leaf?
    decreases |path|
  {
    if path != [] {
      if t.Leaf? {
        assert Get(t, path[..0]) == Some(t);
      } else {
        var kid := if path[0] in t.kids then t.kids[path[0]] else Node(map[]);
        PutFailsIff(kid, path[1..], v);
        EmptyTakesAll(path[1..], v);
        if Put(kid, path[1..], v).None? {
          var k :| 0 <= k < |path[1..]| && Get(kid, path[1..][..k]).Some? && Get(kid, path[1..][..k]).value.Leaf?;
          assert path[..k + 1][1..] == path[1..][..k];
          assert Get(t, path[..k + 1]) == Get(kid, path[1..][..k]);
        }
        if k :| 0 <= k < |path| && Get(t, path[..k]).Some? && Get(t, path[..k]).value.Leaf? {
          assert k > 0;
          assert path[..k][1..] == path[1..][..k - 1];
          assert Get(kid, path[1..][..k - 1]) == Get(t, path[..k]);
        }
      }
    }
  }

  lemma {:induction false} EmptyTakesAll(path: seq<string>, v: Tree)
    ensures Put(Node(map[]), path, v).Some?
    decreases |path|
  {
    if path != [] {
      EmptyTakesAll(path[1..], v);
    }
  }

  /** Creating an empty object at a missing path changes no later set below it. */
  lemma {:induction false} GrowKeeps(t: Tree, path: seq<string>, more: seq<string>, v: Tree)
    requires Get(t, path).None? && more != []
    ensures var grown := Put(t, path, Node(map[]));
            grown.Some? ==> Put(grown.value, path + more, v) == Put(t, path + more, v)
                            && Get(grown.value, path + more) == Get(t, path + more) == None
    decreases |path|
  {
    var grown := Put(t, path, Node(map[]));
    if grown.Some? {
      var kid := if path[0] in t.kids then t.kids[path[0]] else Node(map[]);
      assert (path + more)[1..] == path[1..] + more;
      if path[1..] == [] {
        assert path[1..] + more == more && path[0] !in t.kids;
        assert t.kids[path[0] := Node(map[])][path[0] := Node(map[])] == t.kids[path[0] := Node(map[])];
      } else {
        if path[0] !in t.kids {
          assert Get(Node(map[]), path[1..]) == None;
        }
        GrowKeeps(kid, path[1..], more, v);
      }
      var later := Put(kid, path[1..] + more, v);
      OverwriteKid(t.kids, path[0], Put(kid, path[1..], Node(map[])).value, if later.Some? then later.value else kid);
    }
  }

  lemma OverwriteKid(kids: map<string, Tree>, key: string, first: Tree, second: Tree)
    ensures kids[key := first][key := second] == kids[key := second]
  {
  }

  // ---------------------------------------------------------------- configuration as nested maps

  datatype Value = Scalar(text: string) | Obj(node: MapNode)

  class MapNode {
    var entries: map<string, Value>

    constructor ()
      ensures entries == map[]
    {
      entries := map[];
    }
  }

  /** The contents of some maps at one moment, and where each of them hangs. */
  type Shot = map<MapNode, map<string, Value>>
  type Places = map<MapNode, seq<string>>

  ghost function Shoot(at: Places): Shot
    reads at.Keys
  {
    map n | n in at :: n.entries
  }

  /** Following an entry extends the place by its key, so no map hangs in two places. */
  ghost predicate Placed(h: Shot, at: Places) {
    && h.Keys == at.Keys
    && forall n, k :: n in h && k in h[n] && h[n][k].Obj? ==> h[n][k].node in h && at[h[n][k].node] == at[n] + [k]
  }

  ghost predicate Holds(h: Shot, v: Value, t: Tree)
    decreases t
  {
    match v
    case Scalar(text) => t == Leaf(text)
    case Obj(n) =>
      && n in h && t.Node? && h[n].Keys == t.kids.Keys
      && forall k :: k in t.kids ==> Holds(h, h[n][k], t.kids[k])
  }

  ghost predicate Reaches(h: Shot, n: MapNode, path: seq<string>, end: MapNode)
    decreases |path|
  {
    && n in h
    && if path == [] then n == end
       else path[0] in h[n] && h[n][path[0]].Obj? && Reaches(h, h[n][path[0]].node, path[1..], end)
  }

  lemma {:induction false} ReachesFurther(h: Shot, n: MapNode, path: seq<string>, end: MapNode, key: string)
    requires Reaches(h, n, path, end) && end in h
    requires key in h[end] && h[end][key].Obj? && h[end][key].node in h
    ensures Reaches(h, n, path + [key], h[end][key].node)
    decreases |path|
  {
    if path == [] {
      assert [] + [key] == [key] && [key][1..] == [];
    } else {
      assert (path + [key])[1..] == path[1..] + [key];
      ReachesFurther(h, h[n][path[0]].node, path[1..], end, key);
    }
  }

  lemma {:induction false} ReachesHolds(h: Shot, n: MapNode, path: seq<string>, end: MapNode, t: Tree)
    requires Reaches(h, n, path, end) && Holds(h, Obj(n), t)
    ensures Get(t, path).Some? && Holds(h, Obj(end), Get(t, path).value)
    decreases |path|
  {
    if path != [] {
      ReachesHolds(h, h[n][path[0]].node, path[1..], end, t.kids[path[0]]);
    }
  }

  /** One entry assigned, maps possibly added. */
  ghost predicate Assigned(h: Shot, h': Shot, end: MapNode, key: string, v: Value) {
    && end in h && h.Keys <= h'.Keys && h'[end] == h[end][key := v]
    && forall n :: n in h && n != end ==> h'[n] == h[n]
  }

  /** A value that hangs elsewhere does not notice the assignment. */
  lemma {:induction false} HoldsElsewhere(h: Shot, h': Shot, at: Places, end: MapNode, key: string, new': Value, v: Value,
                                          t: Tree)
    requires Placed(h, at) && Holds(h, v, t) && Assigned(h, h', end, key, new')
    requires v.Obj? ==> !(at[v.node] <= at[end])
    ensures Holds(h', v, t)
    decreases t
  {
    if v.Obj? {
      assert v.node != end;
      forall k | k in t.kids
        ensures Holds(h', h[v.node][k], t.kids[k])
      {
        var kid := h[v.node][k];
        if kid.Obj? {
          assert at[kid.node] == at[v.node] + [k];
        }
        HoldsElsewhere(h, h', at, end, key, new', kid, t.kids[k]);
      }
    }
  }

  lemma SiblingsHold(h: Shot, h': Shot, at: Places, n: MapNode, path: seq<string>, end: MapNode, key: string, v: Value,
                     t: Tree)
    requires Placed(h, at) && Holds(h, Obj(n), t) && Assigned(h, h', end, key, v) && at[end] == at[n] + path
    ensures forall k :: k in t.kids && k != (path + [key])[0] ==> Holds(h', h[n][k], t.kids[k])
  {
    var first := (path + [key])[0];
    forall k | k in t.kids && k != first
      ensures Holds(h', h[n][k], t.kids[k])
    {
      var kid := h[n][k];
      if kid.Obj? {
        assert at[kid.node] == at[n] + [k];
        assert at[kid.node][|at[n]|] == k;
        if |at[kid.node]| <= |at[end]| {
          assert at[end][|at[n]|] == first;
        }
      }
      HoldsElsewhere(h, h', at, end, key, v, kid, t.kids[k]);
    }
  }

  /** One assignment to the map at `path` is one set on the tree. */
  lemma {:induction false} AssignIsPut(h: Shot, h': Shot, at: Places, n: MapNode, path: seq<string>, end: MapNode,
                                       key: string, v: Value, t: Tree, vt: Tree)
    requires Placed(h, at) && Holds(h, Obj(n), t) && Reaches(h, n, path, end) && Assigned(h, h', end, key, v)
    requires at[end] == at[n] + path && Holds(h', v, vt)
    ensures Put(t, path + [key], vt).Some? && Holds(h', Obj(n), Put(t, path + [key], vt).value)
    decreases |path|
  {
    SiblingsHold(h, h', at, n, path, end, key, v, t);
    if path == [] {
      assert path + [key] == [key] && [key][1..] == [];
    } else {
      var kid := h[n][path[0]].node;
      assert (path + [key])[1..] == path[1..] + [key];
      assert at[n] + path == (at[n] + [path[0]]) + path[1..];
      AssignIsPut(h, h', at, kid, path[1..], end, key, v, t.kids[path[0]], vt);
      assert |at[end]| > |at[n]|;
    }
  }

  /** The path to the changed map is still the path to it. */
  lemma {:induction false} ReachesStays(h: Shot, h': Shot, at: Places, n: MapNode, path: seq<string>, end: MapNode,
                                        key: string, v: Value)
    requires Placed(h, at) && Reaches(h, n, path, end) && Assigned(h, h', end, key, v) && at[end] == at[n] + path
    ensures Reaches(h', n, path, end)
    decreases |path|
  {
    if path != [] {
      assert at[n] + path == (at[n] + [path[0]]) + path[1..];
      assert |at[end]| > |at[n]|;
      ReachesStays(h, h', at, h[n][path[0]].node, path[1..], end, key, v);
    }
  }

  lemma {:induction false} HoldsMore(h: Shot, h': Shot, v: Value, t: Tree)
    requires Holds(h, v, t) && forall n :: n in h ==> n in h' && h'[n] == h[n]
    ensures Holds(h', v, t)
    decreases t
  {
    if v.Obj? {
      forall k | k in t.kids
        ensures Holds(h', h[v.node][k], t.kids[k])
      {
        HoldsMore(h, h', h[v.node][k], t.kids[k]);
      }
    }
  }

  lemma {:induction false} GetStep(t: Tree, path: seq<string>, key: string)
    ensures Get(t, path + [key]) ==
            if Get(t, path).Some? && Get(t, path).value.Node? && key in Get(t, path).value.kids
            then Some(Get(t, path).value.kids[key]) else None
    decreases |path|
  {
    if path == [] {
      assert path + [key] == [key] && [key][1..] == [];
    } else {
      assert (path + [key])[1..] == path[1..] + [key];
      if t.Node? && path[0] in t.kids {
        GetStep(t.kids[path[0]], path[1..], key);
      }
    }
  }

  // ---------------------------------------------------------------- the operation

  predicate BlankPart(parts: seq<string>) {
    exists p :: p in parts && TrimSpace(p) == ""
  }

  /** What a set of the key makes of the configuration, or why it is refused. */
  function SetKey(t: Tree, key: string, v: Tree): Result<Tree, string> {
    var parts := Split(key, '.');
    if BlankPart(parts) then Err("invalid key")
    else
      match Put(t, parts, v)
      case Some(u) => Ok(u)
      case None => Err("not an object")
  }

  ghost function Below(path: seq<string>, at: Places): Places {
    map n | n in at :: path + at[n]
  }

  ghost predicate IsConfig(root: MapNode, at: Places, t: Tree)
    reads at.Keys
  {
    root in at && at[root] == [] && Placed(Shoot(at), at) && Holds(Shoot(at), Obj(root), t)
  }

  ghost predicate IsValue(v: Value, at: Places, t: Tree)
    reads at.Keys
  {
    Placed(Shoot(at), at) && Holds(Shoot(at), v, t) && (v.Obj? ==> v.node in at && at[v.node] == [])
  }

  lemma GrownPlaced(h: Shot, h': Shot, at: Places, path: seq<string>, cur: MapNode, part: string, m: MapNode)
    requires Placed(h, at) && cur in h && at[cur] == path && m !in h
    requires Assigned(h, h', cur, part, Obj(m)) && h'.Keys == h.Keys + {m} && h'[m] == map[]
    ensures Placed(h', at[m := path + [part]])
  {
    var at' := at[m := path + [part]];
    forall n, k | n in h' && k in h'[n] && h'[n][k].Obj?
      ensures h'[n][k].node in h' && at'[h'[n][k].node] == at'[n] + [k]
    {
      if !(n == cur && k == part) {
        assert h[n][k].node in h;
      }
    }
  }

  lemma GrownTree(h: Shot, root: MapNode, path: seq<string>, cur: MapNode, part: string, tree: Tree, rest: seq<string>,
                  vt: Tree)
    requires Holds(h, Obj(root), tree) && Reaches(h, root, path, cur) && cur in h && part !in h[cur] && rest != []
    ensures var grown := Put(tree, path + [part], Node(map[]));
            grown.Some? ==>
              && Put(grown.value, path + [part] + rest, vt) == Put(tree, path + [part] + rest, vt)
              && Get(grown.value, path + [part] + rest) == Get(tree, path + [part] + rest) == None
  {
    ReachesHolds(h, root, path, cur, tree);
    GetStep(tree, path, part);
    GrowKeeps(tree, path + [part], rest, vt);
  }

  /** A missing level created: the configuration is that of `tree` with an empty object there. */
  lemma Grown(h: Shot, h': Shot, at: Places, root: MapNode, path: seq<string>, cur: MapNode, part: string, m: MapNode,
              tree: Tree, rest: seq<string>, vt: Tree) returns (at': Places, grown: Tree)
    requires Placed(h, at) && root in at && at[root] == [] && Holds(h, Obj(root), tree)
    requires Reaches(h, root, path, cur) && cur in h && at[cur] == path && part !in h[cur] && m !in h
    requires Assigned(h, h', cur, part, Obj(m)) && h'.Keys == h.Keys + {m} && h'[m] == map[] && rest != []
    ensures at' == at[m := path + [part]] && Placed(h', at') && Holds(h', Obj(root), grown)
    ensures Reaches(h', root, path + [part], m)
    ensures Put(grown, path + [part] + rest, vt) == Put(tree, path + [part] + rest, vt)
    ensures Get(grown, path + [part] + rest) == Get(tree, path + [part] + rest) == None
  {
    at' := at[m := path + [part]];
    GrownPlaced(h, h', at, path, cur, part, m);
    GrownTree(h, root, path, cur, part, tree, rest, vt);
    assert at[cur] == at[root] + path;
    EmptyHeld(h', m);
    AssignIsPut(h, h', at, root, path, cur, part, Obj(m), tree, Node(map[]));
    ReachesStays(h, h', at, root, path, cur, part, Obj(m));
    ReachesFurther(h', root, path, cur, part);
    grown := Put(tree, path + [part], Node(map[])).value;
  }

  lemma EmptyHeld(h: Shot, m: MapNode)
    requires m in h && h[m] == map[]
    ensures Holds(h, Obj(m), Node(map[]))
  {
  }

  /** The last entry assigned, the maps of the value hung below it. */
  lemma Finished(h: Shot, h': Shot, at: Places, valueShot: Shot, valueAt: Places, root: MapNode, path: seq<string>,
                 cur: MapNode, last: string, value: Value, tree: Tree, vt: Tree) returns (at': Places)
    requires Placed(h, at) && root in at && at[root] == [] && Holds(h, Obj(root), tree)
    requires Reaches(h, root, path, cur) && cur in h && at[cur] == path
    requires Placed(valueShot, valueAt) && Holds(valueShot, value, vt) && valueAt.Keys !! at.Keys
    requires value.Obj? ==> value.node in valueAt && valueAt[value.node] == []
    requires Assigned(h, h', cur, last, value) && h'.Keys == h.Keys + valueShot.Keys
    requires forall n :: n in valueShot ==> h'[n] == valueShot[n]
    ensures at'.Keys == h'.Keys && Placed(h', at') && root in at' && at'[root] == []
    ensures Put(tree, path + [last], vt).Some? && Holds(h', Obj(root), Put(tree, path + [last], vt).value)
  {
    at' := at + Below(path + [last], valueAt);
    HoldsMore(valueShot, h', value, vt);
    AssignIsPut(h, h', at, root, path, cur, last, value, tree, vt);
    FinishedPlaced(h, h', at, valueShot, valueAt, path, cur, last, value);
  }

  lemma FinishedPlaced(h: Shot, h': Shot, at: Places, valueShot: Shot, valueAt: Places, path: seq<string>, cur: MapNode,
                       last: string, value: Value)
    requires Placed(h, at) && cur in h && at[cur] == path && Placed(valueShot, valueAt) && valueAt.Keys !! at.Keys
    requires value.Obj? ==> value.node in valueAt && valueAt[value.node] == []
    requires Assigned(h, h', cur, last, value) && h'.Keys == h.Keys + valueShot.Keys
    requires forall n :: n in valueShot ==> h'[n] == valueShot[n]
    ensures Placed(h', at + Below(path + [last], valueAt))
  {
    var at' := at + Below(path + [last], valueAt);
    forall n, k | n in h' && k in h'[n] && h'[n][k].Obj?
      ensures h'[n][k].node in h' && at'[h'[n][k].node] == at'[n] + [k]
    {
      if n in valueShot {
        ConcatAssoc(path + [last], valueAt[n], [k]);
        assert valueShot[n][k].node in valueShot;
      } else if n == cur && k == last {
        assert at'[value.node] == path + [last] + [];
      } else {
        assert h[n][k].node in h;
      }
    }
  }

  lemma Cut(parts: seq<string>, i: nat)
    requires i < |parts|
    ensures parts[..i + 1] == parts[..i] + [parts[i]]
    ensures parts == parts[..i] + [parts[i]] + parts[i + 1..]
  {
  }

  lemma LastPart(parts: seq<string>)
    requires parts != []
    ensures parts == parts[..|parts| - 1] + [parts[|parts| - 1]]
  {
  }

  method HasBlank(parts: seq<string>) returns (blank: bool)
    ensures blank <==> BlankPart(parts)
  {
    for i := 0 to |parts|
      invariant forall j :: 0 <= j < i ==> TrimSpace(parts[j]) != ""
    {
      if TrimSpace(parts[i]) == "" {
        return true;
      }
    }
    return false;
  }

  /** One missing level. */
  method Grow(root: MapNode, cur: MapNode, part: string, ghost tree: Tree, ghost path: seq<string>, ghost rest: seq<string>,
              ghost vt: Tree, ghost at: Places, ghost valueAt: Places)
    returns (m: MapNode, ghost now: Places, ghost grown: Tree)
    requires IsConfig(root, at, tree) && cur in at && at[cur] == path && Reaches(Shoot(at), root, path, cur)
    requires part !in cur.entries && rest != []
    modifies cur
    ensures fresh(m) && m !in valueAt && now.Keys == at.Keys + {m} && now[m] == path + [part] && m.entries == map[]
    ensures IsConfig(root, now, grown) && Reaches(Shoot(now), root, path + [part], m)
    ensures Put(grown, path + [part] + rest, vt) == Put(tree, path + [part] + rest, vt)
    ensures Get(grown, path + [part] + rest) == Get(tree, path + [part] + rest) == None
  {
    ghost var h := Shoot(at);
    m := new MapNode();
    cur.entries := cur.entries[part := Obj(m)];
    ghost var wider := at[m := path + [part]];
    now, grown := Grown(h, Shoot(wider), at, root, path, cur, part, m, tree, rest, vt);
  }

  /** Down to the map that holds the last part, creating what is missing; nothing is created before a
      part that is not an object. */
  method Walk(root: MapNode, parts: seq<string>, ghost t: Tree, ghost vt: Tree, ghost at: Places, ghost valueAt: Places)
    returns (cur: MapNode, err: Option<string>, ghost tree: Tree, ghost now: Places)
    requires IsConfig(root, at, t) && valueAt.Keys !! at.Keys && parts != []
    modifies at.Keys
    ensures err.Some? ==> Put(t, parts, vt).None? && forall n :: n in at ==> n.entries == old(n.entries)
    ensures err.None? ==> cur in now && now[cur] == parts[..|parts| - 1] && IsConfig(root, now, tree)
    ensures err.None? ==> Reaches(Shoot(now), root, parts[..|parts| - 1], cur)
    ensures err.None? ==> Put(tree, parts, vt) == Put(t, parts, vt) && Get(tree, parts) == Get(t, parts)
    ensures err.None? ==> forall n :: n in now ==> n in at || (fresh(n) && n !in valueAt)
    ensures err.None? && Get(t, parts).Some? ==> Shoot(now) == old(Shoot(at))
  {
    cur, err, tree, now := root, None, t, at;
    ghost var grown := false;
    for i := 0 to |parts| - 1
      invariant cur in now && now[cur] == parts[..i] && IsConfig(root, now, tree)
      invariant Reaches(Shoot(now), root, parts[..i], cur)
      invariant forall n :: n in now ==> n in at || (fresh(n) && n !in valueAt)
      invariant Put(tree, parts, vt) == Put(t, parts, vt) && Get(tree, parts) == Get(t, parts)
      invariant !grown ==> tree == t && now == at && forall n :: n in at ==> n.entries == old(n.entries)
      invariant grown ==> cur.entries == map[] && Get(t, parts).None?
    {
      Cut(parts, i);
      if parts[i] !in cur.entries {
        cur, now, tree := Grow(root, cur, parts[i], tree, parts[..i], parts[i + 1..], vt, now, valueAt);
        grown := true;
      } else if cur.entries[parts[i]].Scalar? {
        LeafInTheWay(Shoot(now), root, parts, i, cur, t, vt);
        err := Some("not an object");
        return;
      } else {
        ReachesFurther(Shoot(now), root, parts[..i], cur, parts[i]);
        cur := cur.entries[parts[i]].node;
      }
    }
  }

  lemma LeafInTheWay(h: Shot, root: MapNode, parts: seq<string>, i: nat, cur: MapNode, t: Tree, vt: Tree)
    requires i + 1 < |parts| && Holds(h, Obj(root), t) && Reaches(h, root, parts[..i], cur) && cur in h
    requires parts[i] in h[cur] && h[cur][parts[i]].Scalar?
    ensures Put(t, parts, vt).None?
  {
    Cut(parts, i);
    ReachesHolds(h, root, parts[..i], cur, t);
    GetStep(t, parts[..i], parts[i]);
    PutFailsIff(t, parts, vt);
    assert Get(t, parts[..i + 1]).value.Leaf?;
  }

  method Assign(root: MapNode, cur: MapNode, last: string, value: Value, ghost tree: Tree, ghost vt: Tree,
                ghost path: seq<string>, ghost at: Places, ghost valueAt: Places)
    returns (ghost now: Places)
    requires IsConfig(root, at, tree) && cur in at && at[cur] == path && Reaches(Shoot(at), root, path, cur)
    requires IsValue(value, valueAt, vt) && valueAt.Keys !! at.Keys
    modifies cur
    ensures Put(tree, path + [last], vt).Some? && IsConfig(root, now, Put(tree, path + [last], vt).value)
  {
    ghost var h, values := Shoot(at), Shoot(valueAt);
    cur.entries := cur.entries[last := value];
    ghost var all := at + valueAt;
    now := Finished(h, Shoot(all), at, values, valueAt, root, path, cur, last, value, tree, vt);
    assert Shoot(now) == Shoot(all);
  }

  lemma LastEntry(h: Shot, root: MapNode, path: seq<string>, cur: MapNode, last: string, tree: Tree)
    requires Holds(h, Obj(root), tree) && Reaches(h, root, path, cur) && cur in h
    ensures last in h[cur] <==> Get(tree, path + [last]).Some?
    ensures last in h[cur] ==> Holds(h, h[cur][last], Get(tree, path + [last]).value)
  {
    ReachesHolds(h, root, path, cur, tree);
    GetStep(tree, path, last);
  }

  /** `at` and `valueAt` say where the maps of the configuration and of the new value hang; the value's
      are its own. */
  method SetDotted(root: MapNode, key: string, value: Value, ghost t: Tree, ghost vt: Tree,
                   ghost at: Places, ghost valueAt: Places)
    returns (previous: Option<Value>, created: bool, err: Option<string>, ghost now: Places)
    requires IsConfig(root, at, t) && IsValue(value, valueAt, vt) && valueAt.Keys !! at.Keys
    modifies at.Keys
    ensures err.Some? <==> SetKey(t, key, vt).Err?
    ensures err.Some? ==> forall n :: n in at ==> n.entries == old(n.entries)
    ensures err.None? ==> IsConfig(root, now, SetKey(t, key, vt).value)
    ensures err.None? ==> (created <==> Get(t, Split(key, '.')).None?) && (created <==> previous.None?)
    ensures err.None? && previous.Some? ==> Holds(old(Shoot(at)), previous.value, Get(t, Split(key, '.')).value)
  {
    var parts := Split(key, '.');
    previous, created, now := None, false, at;
    var blank := HasBlank(parts);
    if blank {
      err := Some("invalid key");
      return;
    }
    previous, created, err, now := SetPath(root, parts, value, t, vt, at, valueAt);
  }

  method SetPath(root: MapNode, parts: seq<string>, value: Value, ghost t: Tree, ghost vt: Tree,
                 ghost at: Places, ghost valueAt: Places)
    returns (previous: Option<Value>, created: bool, err: Option<string>, ghost now: Places)
    requires IsConfig(root, at, t) && IsValue(value, valueAt, vt) && valueAt.Keys !! at.Keys && parts != []
    modifies at.Keys
    ensures err.Some? <==> Put(t, parts, vt).None?
    ensures err.Some? ==> forall n :: n in at ==> n.entries == old(n.entries)
    ensures err.None? ==> IsConfig(root, now, Put(t, parts, vt).value)
    ensures err.None? ==> (created <==> Get(t, parts).None?) && (created <==> previous.None?)
    ensures err.None? && previous.Some? ==> Holds(old(Shoot(at)), previous.value, Get(t, parts).value)
  {
    var cur: MapNode;
    ghost var tree;
    cur, err, tree, now := Walk(root, parts, t, vt, at, valueAt);
    previous, created := None, false;
    if err.Some? {
      return;
    }
    var last := parts[|parts| - 1];
    ghost var path := parts[..|parts| - 1];
    LastPart(parts);
    LastEntry(Shoot(now), root, path, cur, last, tree);
    previous := if last in cur.entries then Some(cur.entries[last]) else None;
    created := last !in cur.entries;
    now := Assign(root, cur, last, value, tree, vt, path, now, valueAt);
  }
}

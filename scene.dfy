/**
 * The scene synchroniser: which entities of the document become visual
 * primitives, in what order, and at which derived coordinates.  Primitives
 * are objects of a scene graph with parent links; the three containers hold
 * group boxes, node meshes and connection lines together with their labels.
 */
module SceneGraph {
  import opened DiagramData

  /** A primitive's `userData`: the kind of entity it shows and that entity. */
  datatype Tag = NodeTag(record: NodeRecord) | GroupTag(group: Group) | ConnectionTag(connection: Connection)
  {
    function TypeName(): string {
      match this
      case NodeTag(_) => "node"
      case GroupTag(_) => "group"
      case ConnectionTag(_) => "connection"
    }
  }

  /** The geometry a primitive carries. */
  datatype Shape =
    | Box(dims: Vec3)                                 // a mesh with box geometry of these extents
    | Curve(start: Vec3, control: Vec3, end: Vec3)    // a line along a quadratic curve, by its control points
    | Text(text: string, scale: real, fill: string)   // a label sprite: its text, scale and text colour
    | Edges(of: Shape)                                // the edge lines of a geometry, as a node mesh's wireframe
    | Outline(of: Shape)                              // the selection outline drawn around a geometry
    | Container                                       // the scene root or a container of primitives

  /** What a primitive looks like: its position, geometry and material colour. */
  datatype Look = Look(position: Vec3, shape: Shape, color: string)

  /** What a primitive shows: its `userData` tag and its look. */
  datatype View = View(tag: Option<Tag>, look: Look)

  /** The material colour a sprite keeps by default. */
  const SpriteTint := "#ffffff"

  /** Label sprites of nodes and groups are drawn in white. */
  const LabelFill := "white"

  /** The name of a node mesh's edge wireframe. */
  const EdgesName := "node-edges"

  // ---------------------------------------------------------------------
  // Coordinate arithmetic
  // ---------------------------------------------------------------------

  function Abs(x: real): real {
    if x < 0.0 then -x else x
  }

  /** A point moved up the y axis by `dy`. */
  function Above(p: Vec3, dy: real): Vec3 {
    [p[0], p[1] + dy, p[2]]
  }

  /**
   * The middle control point of a connection's curve: the midpoint of its
   * ends, raised by 0.3 times the distance between them along x.
   */
  function ArcControl(start: Vec3, end: Vec3): Vec3 {
    [(start[0] + end[0]) * 0.5, (start[1] + end[1]) * 0.5 + Abs(end[0] - start[0]) * 0.3, (start[2] + end[2]) * 0.5]
  }

  /** The width, height and depth of a group's box. */
  function Extent(b: Bounds): Vec3 {
    [b.max[0] - b.min[0], b.max[1] - b.min[1], b.max[2] - b.min[2]]
  }

  /** Where a group's box is placed: its minimum corner plus half its extent. */
  function Centre(b: Bounds): Vec3 {
    var e := Extent(b);
    [b.min[0] + e[0] / 2.0, b.min[1] + e[1] / 2.0, b.min[2] + e[2] / 2.0]
  }

  /** The arc is raised by exactly 0.3 |dx| over the chord's midpoint, never lowered. */
  lemma ArcRaise(start: Vec3, end: Vec3)
    ensures ArcControl(start, end)[1] - (start[1] + end[1]) / 2.0 == 0.3 * Abs(end[0] - start[0]) >= 0.0
    ensures ArcControl(start, end)[1] == (start[1] + end[1]) / 2.0 <==> start[0] == end[0]
    ensures ArcControl(start, end)[0] == (start[0] + end[0]) / 2.0
    ensures ArcControl(start, end)[2] == (start[2] + end[2]) / 2.0
  {
  }

  /** Only the x distance raises the arc: moving the ends along z changes no height. */
  lemma ArcIgnoresDepth(start: Vec3, end: Vec3, dz1: real, dz2: real)
    ensures ArcControl([start[0], start[1], start[2] + dz1], [end[0], end[1], end[2] + dz2])[1]
         == ArcControl(start, end)[1]
  {
  }

  /** The arc does not depend on the direction of the connection. */
  lemma ArcSymmetric(start: Vec3, end: Vec3)
    ensures ArcControl(start, end) == ArcControl(end, start)
  {
  }

  /** A group's box, centred and sized as rendered, spans exactly its bounds on every axis. */
  lemma BoxSpansBounds(b: Bounds, i: Axis)
    ensures Centre(b)[i] - Extent(b)[i] / 2.0 == b.min[i]
    ensures Centre(b)[i] + Extent(b)[i] / 2.0 == b.max[i]
    ensures b.min[i] <= b.max[i] ==> b.min[i] <= Centre(b)[i] <= b.max[i]
  {
  }

  // ---------------------------------------------------------------------
  // The primitives each entity becomes
  // ---------------------------------------------------------------------

  /** A node mesh at the node's position with the node's size, then its label one unit above. */
  function NodePrimitives(r: NodeRecord): seq<View>
    reads r
  {
    [View(Some(NodeTag(r)), Look(r.position, Box(r.size), r.color)),
     View(None, Look(Above(r.position, 1.0), Text(r.caption, 1.0, LabelFill), SpriteTint))]
  }

  /** A group box at the bounds' centre with their extent, then its label one unit above at scale 0.8. */
  function GroupPrimitives(g: Group): seq<View> {
    [View(Some(GroupTag(g)), Look(Centre(g.bounds), Box(Extent(g.bounds)), g.color)),
     View(None, Look(Above(Centre(g.bounds), 1.0), Text(g.caption, 0.8, LabelFill), SpriteTint))]
  }

  /**
   * A connection whose two ends resolve becomes a line along the arc; a
   * non-empty caption adds a label 0.3 above the arc's control point, in
   * the connection's colour, at scale 0.6 times 0.8.  A connection with an
   * unresolved end becomes nothing.
   */
  function ConnectionPrimitives(c: Connection, index: map<string, Node>): seq<View> {
    if c.from in index && c.to in index then
      var start, end := index[c.from].position, index[c.to].position;
      var mid := ArcControl(start, end);
      [View(Some(ConnectionTag(c)), Look(Origin, Curve(start, mid, end), c.color))] +
      (if c.caption != "" then [View(None, Look(Above(mid, 0.3), Text(c.caption, 0.6 * 0.8, c.color), SpriteTint))] else [])
    else []
  }

  function NodeViews(rs: seq<NodeRecord>): seq<View>
    reads rs
  {
    if rs == [] then [] else NodeViews(rs[..|rs| - 1]) + NodePrimitives(rs[|rs| - 1])
  }

  function GroupViews(gs: seq<Group>): seq<View> {
    if gs == [] then [] else GroupViews(gs[..|gs| - 1]) + GroupPrimitives(gs[|gs| - 1])
  }

  function ConnectionViews(cs: seq<Connection>, index: map<string, Node>): seq<View> {
    if cs == [] then [] else ConnectionViews(cs[..|cs| - 1], index) + ConnectionPrimitives(cs[|cs| - 1], index)
  }

  // ---------------------------------------------------------------------
  // Resolving connection ends: a map from id to node built from the list
  // ---------------------------------------------------------------------

  /** The last index holding `id`, or -1. */
  function LastIndexOfId(ids: seq<string>, id: string): (k: int)
    ensures -1 <= k < |ids|
    ensures k >= 0 ==> ids[k] == id && forall j :: k < j < |ids| ==> ids[j] != id
    ensures k == -1 <==> id !in ids
  {
    if ids == [] then -1
    else if ids[|ids| - 1] == id then |ids| - 1
    else LastIndexOfId(ids[..|ids| - 1], id)
  }

  /**
   * The id-to-node map built from the node list, one entry after another:
   * an id is a key exactly when some node has it, and a repeated id maps to
   * the last node carrying it.
   */
  function IndexById(ns: seq<Node>): map<string, Node> {
    if ns == [] then map[] else IndexById(ns[..|ns| - 1])[ns[|ns| - 1].id := ns[|ns| - 1]]
  }

  /** The map holds exactly the ids of the list, each bound to the last node carrying it. */
  lemma {:induction false} IndexByIdFinds(ns: seq<Node>)
    ensures forall id :: id in IndexById(ns) <==> id in NodeIds(ns)
    ensures forall id :: id in IndexById(ns) ==> IndexById(ns)[id] == ns[LastIndexOfId(NodeIds(ns), id)]
  {
    if ns != [] {
      var init := ns[..|ns| - 1];
      assert NodeIds(init) == NodeIds(ns)[..|ns| - 1];
      IndexByIdFinds(init);
    }
  }

  /** A connection is drawn when both of its ends name a node. */
  predicate Resolves(c: Connection, ns: seq<Node>) {
    c.from in NodeIds(ns) && c.to in NodeIds(ns)
  }

  /** The connections that are drawn, in their order. */
  function Resolved(cs: seq<Connection>, ns: seq<Node>): seq<Connection> {
    if cs == [] then []
    else Resolved(cs[..|cs| - 1], ns) + (if Resolves(cs[|cs| - 1], ns) then [cs[|cs| - 1]] else [])
  }

  /** The tags of the tagged views, in order. */
  function Tags(vs: seq<View>): seq<Tag> {
    if vs == [] then [] else Tags(vs[..|vs| - 1]) + (if vs[|vs| - 1].tag.Some? then [vs[|vs| - 1].tag.value] else [])
  }

  function ConnectionTags(cs: seq<Connection>): (ts: seq<Tag>)
    ensures |ts| == |cs| && forall i :: 0 <= i < |cs| ==> ts[i] == ConnectionTag(cs[i])
  {
    seq(|cs|, i requires 0 <= i < |cs| => ConnectionTag(cs[i]))
  }

  lemma {:induction false} TagsAppend(a: seq<View>, b: seq<View>)
    ensures Tags(a + b) == Tags(a) + Tags(b)
    decreases |b|
  {
    if b == [] {
      assert a + b == a;
    } else {
      var b' := b[..|b| - 1];
      assert (a + b)[..|a + b| - 1] == a + b';
      TagsAppend(a, b');
    }
  }

  /**
   * Exactly the connections whose two ends resolve to a node id produce a
   * line, each line is tagged with its connection, and the lines follow the
   * connections' order.
   */
  lemma {:induction false} LinesAreResolvedConnections(cs: seq<Connection>, ns: seq<Node>)
    ensures Tags(ConnectionViews(cs, IndexById(ns))) == ConnectionTags(Resolved(cs, ns))
  {
    if cs != [] {
      var init, c := cs[..|cs| - 1], cs[|cs| - 1];
      LinesAreResolvedConnections(init, ns);
      IndexByIdFinds(ns);
      var ps := ConnectionPrimitives(c, IndexById(ns));
      TagsAppend(ConnectionViews(init, IndexById(ns)), ps);
      if Resolves(c, ns) {
        var line := ps[0];
        if c.caption != "" {
          assert ps == [line] + [ps[1]];
          assert ps[..1] == [line];
          assert Tags([line]) == [ConnectionTag(c)];
        } else {
          assert Tags(ps) == [ConnectionTag(c)];
        }
      } else {
        assert ps == [];
      }
      assert ConnectionTags(Resolved(cs, ns)) == ConnectionTags(Resolved(init, ns)) + Tags(ps);
    }
  }

  /**
   * A drawn line runs from the last node whose id is the connection's `from`
   * to the last node whose id is its `to`, through the raised arc point.
   */
  lemma LineEndpoints(c: Connection, ns: seq<Node>)
    requires Resolves(c, ns)
    ensures
      var s := ns[LastIndexOfId(NodeIds(ns), c.from)].position;
      var e := ns[LastIndexOfId(NodeIds(ns), c.to)].position;
      |ConnectionPrimitives(c, IndexById(ns))| >= 1 && ConnectionPrimitives(c, IndexById(ns))[0] ==
        View(Some(ConnectionTag(c)), Look(Origin, Curve(s, ArcControl(s, e), e), c.color))
  {
    IndexByIdFinds(ns);
  }

  /** A connection label exists exactly when the caption is non-empty and the line is drawn; it sits 0.3 above the arc point. */
  lemma ConnectionLabel(c: Connection, ns: seq<Node>)
    ensures |ConnectionPrimitives(c, IndexById(ns))| == (if !Resolves(c, ns) then 0 else if c.caption == "" then 1 else 2)
    ensures |ConnectionPrimitives(c, IndexById(ns))| == 2 ==>
      var s := ns[LastIndexOfId(NodeIds(ns), c.from)].position;
      var e := ns[LastIndexOfId(NodeIds(ns), c.to)].position;
      ConnectionPrimitives(c, IndexById(ns))[1] ==
        View(None, Look(Above(ArcControl(s, e), 0.3), Text(c.caption, 0.6 * 0.8, c.color), SpriteTint))
  {
    IndexByIdFinds(ns);
  }

  // ---------------------------------------------------------------------
  // The scene graph
  // ---------------------------------------------------------------------

  /** A scene-graph object: a primitive, a label sprite, a wireframe child or a container. */
  class Object3D {
    /** The creation rank, as the library's running object id. */
    const serial: nat
    /** The library's `name`, which `getObjectByName` looks for; empty when unnamed. */
    const name: string
    const tag: Option<Tag>
    /** The number of links from this object up to a root. */
    ghost const depth: nat
    var parent: Object3D?
    var children: seq<Object3D>
    var look: Look

    function Describe(): View
      reads this`look
    {
      View(tag, look)
    }

    constructor (serial: nat, parent: Object3D?, name: string, v: View)
      ensures this.serial == serial && this.parent == parent && this.name == name && Describe() == v
      ensures children == []
      ensures depth == if parent == null then 0 else parent.depth + 1
    {
      this.serial := serial;
      this.name := name;
      this.depth := if parent == null then 0 else parent.depth + 1;
      this.parent := parent;
      this.children := [];
      this.tag := v.tag;
      this.look := v.look;
    }
  }

  /** Every parent link stays inside the set and leads strictly closer to a root. */
  ghost predicate ParentClosed(objs: set<Object3D>)
    reads objs`parent
  {
    forall o :: o in objs && o.parent != null ==> o.parent in objs && o.parent.depth < o.depth
  }

  /** The objects `os` show the views `vs`, one for one. */
  ghost predicate Shows(os: seq<Object3D>, vs: seq<View>)
    reads os`look
  {
    |os| == |vs| && forall k :: 0 <= k < |os| ==> os[k].tag == vs[k].tag && os[k].look == vs[k].look
  }

  lemma ShowsAppend(a: seq<Object3D>, b: seq<Object3D>, va: seq<View>, vb: seq<View>)
    requires Shows(a, va) && Shows(b, vb)
    ensures Shows(a + b, va + vb)
  {
  }

  /** The objects `os` were created with ranks in [lo, hi). */
  predicate Born(os: seq<Object3D>, lo: nat, hi: nat) {
    forall k :: 0 <= k < |os| ==> lo <= os[k].serial < hi
  }

  lemma BornAppend(a: seq<Object3D>, b: seq<Object3D>, lo: nat, mid: nat, hi: nat)
    requires lo <= mid <= hi && Born(a, lo, mid) && Born(b, mid, hi)
    ensures Born(a + b, lo, hi)
  {
  }

  /** Every object of `a` was created before every object of `b`. */
  predicate Before(a: seq<Object3D>, b: seq<Object3D>) {
    forall i, j :: 0 <= i < |a| && 0 <= j < |b| ==> a[i].serial < b[j].serial
  }

  lemma BornBefore(a: seq<Object3D>, b: seq<Object3D>, lo: nat, mid: nat, hi: nat)
    requires Born(a, lo, mid) && Born(b, mid, hi)
    ensures Before(a, b)
  {
  }

  /** The first index of `os` holding an object named `name`, or -1. */
  function FirstNamed(os: seq<Object3D>, name: string): (k: int)
    ensures -1 <= k < |os|
    ensures k >= 0 ==> os[k].name == name && forall j :: 0 <= j < k ==> os[j].name != name
    ensures k == -1 ==> forall j :: 0 <= j < |os| ==> os[j].name != name
  {
    if os == [] then -1
    else if os[0].name == name then 0
    else
      var k := FirstNamed(os[1..], name);
      if k == -1 then -1 else k + 1
  }

  /**
   * What `getObjectByName` finds, as far as this model needs it: the object
   * itself when it has the name, otherwise its first child that has it.
   */
  function Named(o: Object3D, name: string): Object3D?
    reads o`children
  {
    if o.name == name then o
    else
      var k := FirstNamed(o.children, name);
      if k == -1 then null else o.children[k]
  }

  /** `getObjectByName`: the object itself, or its first child with that name, or nothing. */
  method ObjectByName(o: Object3D, name: string) returns (r: Object3D?)
    ensures r == Named(o, name)
    ensures r != null ==> r.name == name
    ensures r == null ==> o.name != name && forall c :: c in o.children ==> c.name != name
  {
    if o.name == name {
      return o;
    }
    r := null;
    var i := 0;
    while i < |o.children|
      invariant 0 <= i <= |o.children|
      invariant forall j :: 0 <= j < i ==> o.children[j].name != name
    {
      if o.children[i].name == name {
        r := o.children[i];
        assert FirstNamed(o.children, name) == i by {
          FirstNamedAt(o.children, name, i);
        }
        return;
      }
      i := i + 1;
    }
  }

  lemma {:induction false} FirstNamedAt(os: seq<Object3D>, name: string, i: nat)
    requires i < |os| && os[i].name == name && forall j :: 0 <= j < i ==> os[j].name != name
    ensures FirstNamed(os, name) == i
  {
    if i > 0 {
      FirstNamedAt(os[1..], name, i - 1);
    }
  }

  class Scene {
    const root: Object3D
    const nodeGroup: Object3D
    const connectionGroup: Object3D
    const groupBoxGroup: Object3D
    var nextSerial: nat
    /** Every object this scene ever created. */
    ghost var objects: set<Object3D>

    ghost predicate Valid()
      reads this`objects, objects`parent
    {
      && root in objects && nodeGroup in objects && connectionGroup in objects && groupBoxGroup in objects
      && nodeGroup != connectionGroup && nodeGroup != groupBoxGroup && connectionGroup != groupBoxGroup
      && root.tag.None? && nodeGroup.tag.None? && connectionGroup.tag.None? && groupBoxGroup.tag.None?
      && ParentClosed(objects)
    }

    /** The scene root with its three empty containers added in order. */
    constructor Init()
      ensures Valid() && fresh(objects)
      ensures root.children == [nodeGroup, connectionGroup, groupBoxGroup]
      ensures nodeGroup.children == [] && connectionGroup.children == [] && groupBoxGroup.children == []
    {
      var top := new Object3D(0, null, "", View(None, Look(Origin, Container, "")));
      root := top;
      nodeGroup := new Object3D(1, top, "", View(None, Look(Origin, Container, "")));
      connectionGroup := new Object3D(2, top, "", View(None, Look(Origin, Container, "")));
      groupBoxGroup := new Object3D(3, top, "", View(None, Look(Origin, Container, "")));
      nextSerial := 4;
      objects := {top, nodeGroup, connectionGroup, groupBoxGroup};
      new;
      root.children := [nodeGroup, connectionGroup, groupBoxGroup];
      assert ParentClosed(objects) by {
        forall o | o in objects && o.parent != null ensures o.parent in objects && o.parent.depth < o.depth {
          assert o == nodeGroup || o == connectionGroup || o == groupBoxGroup;
        }
      }
    }

    /**
     * The rendering calls of the initial build: the groups, then the nodes,
     * then the connections, each container's primitives in the order of its
     * entities.
     */
    method Build(gs: seq<Group>, rs: seq<NodeRecord>, cs: seq<Connection>)
      requires Valid() && groupBoxGroup.children == [] && nodeGroup.children == [] && connectionGroup.children == []
      modifies this, groupBoxGroup`children, nodeGroup`children, connectionGroup`children
      ensures Valid()
      ensures Shows(groupBoxGroup.children, GroupViews(gs))
      ensures Shows(nodeGroup.children, NodeViews(rs))
      ensures Shows(connectionGroup.children, ConnectionViews(cs, IndexById(Values(rs))))
      ensures Before(groupBoxGroup.children, nodeGroup.children) && Before(nodeGroup.children, connectionGroup.children)
    {
      ghost var start := nextSerial;
      ghost var groups := RenderGroups(gs);
      ghost var afterGroups := nextSerial;
      ghost var nodes, lines := RenderRest(rs, cs);
      BornBefore(groups, nodes, start, afterGroups, nextSerial);
    }

    /** The nodes, then the connections, of the initial build. */
    method RenderRest(rs: seq<NodeRecord>, cs: seq<Connection>) returns (ghost nodes: seq<Object3D>, ghost lines: seq<Object3D>)
      requires Valid() && nodeGroup.children == [] && connectionGroup.children == []
      modifies this, nodeGroup`children, connectionGroup`children
      ensures Valid() && old(nextSerial) <= nextSerial
      ensures nodeGroup.children == nodes && connectionGroup.children == lines
      ensures Born(nodes, old(nextSerial), nextSerial) && Before(nodes, lines)
      ensures Shows(nodes, NodeViews(rs))
      ensures Shows(lines, ConnectionViews(cs, IndexById(Values(rs))))
    {
      ghost var start := nextSerial;
      nodes := RenderNodes(rs);
      ghost var afterNodes := nextSerial;
      lines := RenderConnections(cs, Values(rs));
      BornBefore(nodes, lines, start, afterNodes, nextSerial);
    }

    /** Creates an object under `parent` showing `v`, as `parent.add(new ...)`. */
    method Add(parent: Object3D, name: string, v: View) returns (o: Object3D)
      requires Valid() && parent in objects
      modifies this, parent`children
      ensures Valid() && fresh(o) && o.Describe() == v && o.name == name
      ensures o.parent == parent && o.children == []
      ensures parent.children == old(parent.children) + [o]
      ensures objects == old(objects) + {o}
      ensures o.serial == old(nextSerial) && nextSerial == old(nextSerial) + 1
    {
      o := new Object3D(nextSerial, parent, name, v);
      parent.children := parent.children + [o];
      objects := objects + {o};
      nextSerial := nextSerial + 1;
    }

    /**
     * One node's mesh and its label, added to the node container; the mesh
     * gets its edge wireframe, named "node-edges", as only child.
     */
    method AddNode(r: NodeRecord) returns (mesh: Object3D, edges: Object3D, sprite: Object3D)
      requires Valid()
      modifies this, nodeGroup`children
      ensures Valid() && old(nextSerial) <= nextSerial
      ensures nodeGroup.children == old(nodeGroup.children) + [mesh, sprite]
      ensures Born([mesh, sprite], old(nextSerial), nextSerial)
      ensures Shows([mesh, sprite], NodePrimitives(r))
      ensures mesh in objects && mesh.parent == nodeGroup && mesh.children == [edges]
      ensures edges.name == EdgesName && edges.parent == mesh
      ensures edges.Describe() == View(None, Look(Origin, Edges(Box(r.size)), r.color))
    {
      var views := NodePrimitives(r);
      mesh := Add(nodeGroup, "", views[0]);
      edges := Add(mesh, EdgesName, View(None, Look(Origin, Edges(Box(r.size)), r.color)));
      sprite := Add(nodeGroup, "", views[1]);
    }

    /** One group's box and label, added to the group container. */
    method AddGroup(g: Group) returns (box: Object3D, sprite: Object3D)
      requires Valid()
      modifies this, groupBoxGroup`children
      ensures Valid() && old(nextSerial) <= nextSerial
      ensures groupBoxGroup.children == old(groupBoxGroup.children) + [box, sprite]
      ensures Born([box, sprite], old(nextSerial), nextSerial)
      ensures Shows([box, sprite], GroupPrimitives(g))
    {
      var views := GroupPrimitives(g);
      box := Add(groupBoxGroup, "", views[0]);
      sprite := Add(groupBoxGroup, "", views[1]);
    }

    /** One connection's line and label, when both ends resolve in `index`. */
    method AddConnection(c: Connection, index: map<string, Node>) returns (ghost made: seq<Object3D>)
      requires Valid()
      modifies this, connectionGroup`children
      ensures Valid() && old(nextSerial) <= nextSerial
      ensures connectionGroup.children == old(connectionGroup.children) + made
      ensures Born(made, old(nextSerial), nextSerial)
      ensures Shows(made, ConnectionPrimitives(c, index))
    {
      made := [];
      var views := ConnectionPrimitives(c, index);
      if c.from in index && c.to in index {
        var line := Add(connectionGroup, "", views[0]);
        made := [line];
        if c.caption != "" {
          var sprite := Add(connectionGroup, "", views[1]);
          made := [line, sprite];
        }
      }
    }

    /**
     * `parent.remove(child)`: when `child` is among the children, it is
     * taken out of them and loses its parent; otherwise nothing changes.
     */
    method Remove(parent: Object3D, child: Object3D)
      requires Valid()
      modifies parent`children, child`parent
      ensures Valid()
      ensures parent.children == RemoveFirst(old(parent.children), child)
      ensures child.parent == if child in old(parent.children) then null else old(child.parent)
    {
      if child in parent.children {
        child.parent := null;
        parent.children := RemoveFirst(parent.children, child);
      }
    }

    /** `renderGroups`: every group in order. */
    method RenderGroups(gs: seq<Group>) returns (ghost made: seq<Object3D>)
      requires Valid()
      modifies this, groupBoxGroup`children
      ensures Valid() && old(nextSerial) <= nextSerial
      ensures groupBoxGroup.children == old(groupBoxGroup.children) + made
      ensures Born(made, old(nextSerial), nextSerial)
      ensures Shows(made, GroupViews(gs))
    {
      made := [];
      var i := 0;
      while i < |gs|
        invariant 0 <= i <= |gs|
        invariant Valid() && old(nextSerial) <= nextSerial
        invariant groupBoxGroup.children == old(groupBoxGroup.children) + made
        invariant Born(made, old(nextSerial), nextSerial)
        invariant Shows(made, GroupViews(gs[..i]))
      {
        ghost var mid := nextSerial;
        ghost var vs := GroupViews(gs[..i]);
        var box, sprite := AddGroup(gs[i]);
        ghost var ps := GroupPrimitives(gs[i]);
        ShowsAppend(made, [box, sprite], vs, ps);
        BornAppend(made, [box, sprite], old(nextSerial), mid, nextSerial);
        made := made + [box, sprite];
        assert gs[..i + 1][..i] == gs[..i];
        assert GroupViews(gs[..i + 1]) == vs + ps;
        i := i + 1;
      }
      assert gs[..i] == gs;
    }

    /** `renderNodes`: every node in order. */
    method RenderNodes(rs: seq<NodeRecord>) returns (ghost made: seq<Object3D>)
      requires Valid()
      modifies this, nodeGroup`children
      ensures Valid() && old(nextSerial) <= nextSerial
      ensures nodeGroup.children == old(nodeGroup.children) + made
      ensures Born(made, old(nextSerial), nextSerial)
      ensures Shows(made, NodeViews(rs))
    {
      made := [];
      var i := 0;
      while i < |rs|
        invariant 0 <= i <= |rs|
        invariant Valid() && old(nextSerial) <= nextSerial
        invariant nodeGroup.children == old(nodeGroup.children) + made
        invariant Born(made, old(nextSerial), nextSerial)
        invariant Shows(made, NodeViews(rs[..i]))
      {
        ghost var mid := nextSerial;
        ghost var vs := NodeViews(rs[..i]);
        var mesh, edges, sprite := AddNode(rs[i]);
        ghost var ps := NodePrimitives(rs[i]);
        ShowsAppend(made, [mesh, sprite], vs, ps);
        BornAppend(made, [mesh, sprite], old(nextSerial), mid, nextSerial);
        made := made + [mesh, sprite];
        assert rs[..i + 1][..i] == rs[..i];
        assert NodeViews(rs[..i + 1]) == vs + ps;
        i := i + 1;
      }
      assert rs[..i] == rs;
    }

    /**
     * `renderConnections`: every connection in order, its ends looked up in
     * the id-to-node map built once from the node list.
     */
    method RenderConnections(cs: seq<Connection>, ns: seq<Node>) returns (ghost made: seq<Object3D>)
      requires Valid()
      modifies this, connectionGroup`children
      ensures Valid() && old(nextSerial) <= nextSerial
      ensures connectionGroup.children == old(connectionGroup.children) + made
      ensures Born(made, old(nextSerial), nextSerial)
      ensures Shows(made, ConnectionViews(cs, IndexById(ns)))
    {
      var index := IndexById(ns);
      made := [];
      var i := 0;
      while i < |cs|
        invariant 0 <= i <= |cs|
        invariant Valid() && old(nextSerial) <= nextSerial
        invariant connectionGroup.children == old(connectionGroup.children) + made
        invariant Born(made, old(nextSerial), nextSerial)
        invariant Shows(made, ConnectionViews(cs[..i], index))
      {
        ghost var mid := nextSerial;
        ghost var vs := ConnectionViews(cs[..i], index);
        ghost var more := AddConnection(cs[i], index);
        ghost var ps := ConnectionPrimitives(cs[i], index);
        ShowsAppend(made, more, vs, ps);
        BornAppend(made, more, old(nextSerial), mid, nextSerial);
        made := made + more;
        assert cs[..i + 1][..i] == cs[..i];
        assert ConnectionViews(cs[..i + 1], index) == vs + ps;
        i := i + 1;
      }
      assert cs[..i] == cs;
    }
  }

  /**
   * `initScene`'s scene graph: the root and its containers, then the
   * groups, the nodes and the connections of the document.
   */
  method InitScene(data: Diagram) returns (scene: Scene)
    ensures fresh(scene) && scene.Valid()
    ensures Shows(scene.groupBoxGroup.children, GroupViews(data.groups))
    ensures Shows(scene.nodeGroup.children, NodeViews(data.nodes))
    ensures Shows(scene.connectionGroup.children, ConnectionViews(data.connections, IndexById(Values(data.nodes))))
    ensures Before(scene.groupBoxGroup.children, scene.nodeGroup.children)
    ensures Before(scene.nodeGroup.children, scene.connectionGroup.children)
  {
    scene := new Scene.Init();
    scene.Build(data.groups, data.nodes, data.connections);
  }
}

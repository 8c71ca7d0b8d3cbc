/**
 * The property panel: the three "add" buttons, the node inspector's
 * position and size sliders, and the registry of controls the inspector
 * clears and refills on every selection.
 */
module Panel {
  import opened DiagramData
  import opened SceneGraph
  import Editing

  /** How a handler ended: normally, or with an uncaught error naming what was missing. */
  datatype Completion = Normal | ReferenceError(identifier: string)

  // ---------------------------------------------------------------------
  // Identifiers from timestamps
  // ---------------------------------------------------------------------

  function Digit(d: nat): (c: char)
    requires d < 10
    ensures '0' <= c <= '9' && c as int - '0' as int == d
  {
    ('0' as int + d) as char
  }

  /** The decimal text of `n`, as a template string prints a millisecond timestamp. */
  function Decimal(n: nat): (s: string)
    ensures |s| >= 1 && forall i :: 0 <= i < |s| ==> '0' <= s[i] <= '9'
    ensures n >= 10 <==> |s| >= 2
    ensures s[|s| - 1] == Digit(n % 10)
    decreases n
  {
    if n < 10 then [Digit(n)] else Decimal(n / 10) + [Digit(n % 10)]
  }

  /** Different timestamps print differently. */
  lemma {:induction false} DecimalInjective(a: nat, b: nat)
    ensures Decimal(a) == Decimal(b) ==> a == b
    decreases a
  {
    if Decimal(a) == Decimal(b) && a >= 10 {
      var da, db := Decimal(a), Decimal(b);
      assert da[..|da| - 1] == Decimal(a / 10);
      assert db[..|db| - 1] == Decimal(b / 10);
      DecimalInjective(a / 10, b / 10);
    }
  }

  /** `${prefix}-${Date.now()}`. */
  function NewId(prefix: string, now: nat): string {
    prefix + "-" + Decimal(now)
  }

  /** Two ids made with the same prefix are equal exactly when their timestamps are. */
  lemma NewIdInjective(prefix: string, a: nat, b: nat)
    ensures NewId(prefix, a) == NewId(prefix, b) <==> a == b
  {
    var n := |prefix + "-"|;
    if NewId(prefix, a) == NewId(prefix, b) {
      assert Decimal(a) == NewId(prefix, a)[n..];
      assert Decimal(b) == NewId(prefix, b)[n..];
      DecimalInjective(a, b);
    }
  }

  /** A node id never equals a connection or group id. */
  lemma NewIdsOfKindsDiffer(a: nat, b: nat)
    ensures NewId("node", a) != NewId("group", b) && NewId("node", a) != NewId("connection", b)
    ensures NewId("group", a) != NewId("connection", b)
  {
    assert NewId("node", a)[0] == 'n' && NewId("group", b)[0] == 'g' && NewId("connection", b)[0] == 'c';
    assert NewId("group", a)[0] == 'g';
  }

  // ---------------------------------------------------------------------
  // The three "add" buttons
  // ---------------------------------------------------------------------

  const NewNodeCaption := "New Node"
  const NewNodeSize: Vec3 := [2.0, 1.0, 1.0]
  const NewNodeColor := "#3498db"
  const NewNodeGroup := "default"
  const NewConnectionCaption := "New Connection"
  const NewConnectionColor := "#2ecc71"
  const NewGroupCaption := "New Group"
  const NewGroupColor := "#f39c12"

  /** The node `addNewNode` creates at time `now`. */
  function NewNode(now: nat): (n: Node)
    ensures n.id == NewId("node", now) && n.caption == NewNodeCaption
    ensures n.position == Origin && n.size == NewNodeSize && n.color == NewNodeColor && n.group == NewNodeGroup
  {
    Node(NewId("node", now), NewNodeCaption, Origin, NewNodeSize, NewNodeColor, NewNodeGroup)
  }

  /** The group `addNewGroup` creates at time `now`: a 4-unit wireframe cube round the origin. */
  function NewGroup(now: nat): (g: Group)
    ensures g.id == NewId("group", now) && g.caption == NewGroupCaption && g.color == NewGroupColor && g.wireframe
    ensures forall a: Axis :: g.bounds.min[a] == -2.0 && g.bounds.max[a] == 2.0
  {
    Group(NewId("group", now), NewGroupCaption, Bounds([-2.0, -2.0, -2.0], [2.0, 2.0, 2.0]), NewGroupColor, true)
  }

  /** The new group's bounds are ordered on every axis, and its box is centred at the origin with side 4. */
  lemma NewGroupBox(now: nat)
    ensures forall a: Axis :: NewGroup(now).bounds.min[a] <= NewGroup(now).bounds.max[a]
    ensures Centre(NewGroup(now).bounds) == Origin
    ensures Extent(NewGroup(now).bounds) == [4.0, 4.0, 4.0]
  {
    var b := NewGroup(now).bounds;
    assert Extent(b)[0] == 4.0 && Extent(b)[1] == 4.0 && Extent(b)[2] == 4.0;
    assert Centre(b)[0] == 0.0 && Centre(b)[1] == 0.0 && Centre(b)[2] == 0.0;
  }

  /**
   * `addNewNode`, as it is meant to work: the node record is appended to
   * the document, and its mesh (with the "node-edges" wireframe as only
   * child) and its label are added to the node container exactly as the
   * initial build draws a node.
   */
  method AddNewNode(scene: Scene, data: Diagram, now: nat) returns (r: NodeRecord, mesh: Object3D, edges: Object3D, sprite: Object3D)
    requires scene.Valid()
    modifies data`nodes, scene, scene.nodeGroup`children
    ensures fresh(r) && r.Value() == NewNode(now)
    ensures data.nodes == old(data.nodes) + [r]
    ensures Values(data.nodes) == old(Values(data.nodes)) + [NewNode(now)]
    ensures scene.Valid()
    ensures scene.nodeGroup.children == old(scene.nodeGroup.children) + [mesh, sprite]
    ensures Shows([mesh, sprite], NodePrimitives(r))
    ensures mesh.children == [edges] && edges.name == EdgesName
    ensures edges.Describe() == View(None, Look(Origin, Edges(Box(NewNodeSize)), NewNodeColor))
  {
    ghost var before := Values(data.nodes);
    r := new NodeRecord(NewNode(now));
    assert Values(data.nodes) == before;
    data.nodes := data.nodes + [r];
    assert Values(data.nodes) == before + [NewNode(now)];
    mesh, edges, sprite := scene.AddNode(r);
  }

  /**
   * `addNewNode` as written: the record is appended, then the first
   * `THREE.BoxGeometry` fails because the module never imports `THREE`, so
   * the scene gets no primitive for the new node.
   */
  method AddNewNodeAsWritten(scene: Scene, data: Diagram, now: nat) returns (r: NodeRecord, outcome: Completion)
    modifies data`nodes
    ensures fresh(r) && r.Value() == NewNode(now)
    ensures data.nodes == old(data.nodes) + [r]
    ensures outcome == ReferenceError("THREE")
  {
    r := new NodeRecord(NewNode(now));
    data.nodes := data.nodes + [r];
    outcome := ReferenceError("THREE");
  }

  /**
   * `addNewConnection`: refused with fewer than two nodes; otherwise one
   * connection from the first node to the second is appended, and no
   * primitive is drawn.
   */
  method AddNewConnection(data: Diagram, now: nat) returns (added: bool)
    modifies data`connections
    ensures added <==> |data.nodes| >= 2
    ensures !added ==> data.connections == old(data.connections)
    ensures added ==>
      data.connections == old(data.connections) +
        [Connection(NewId("connection", now), data.nodes[0].id, data.nodes[1].id, NewConnectionCaption, NewConnectionColor)]
  {
    if |data.nodes| < 2 {
      return false;
    }
    var c := Connection(NewId("connection", now), data.nodes[0].id, data.nodes[1].id, NewConnectionCaption, NewConnectionColor);
    data.connections := data.connections + [c];
    added := true;
  }

  /** A connection added to a document with two nodes names the first two ids, so it resolves at the next build. */
  lemma NewConnectionResolves(ns: seq<Node>, now: nat)
    requires |ns| >= 2
    ensures Resolves(Connection(NewId("connection", now), ns[0].id, ns[1].id, NewConnectionCaption, NewConnectionColor), ns)
  {
    assert NodeIds(ns)[0] == ns[0].id && NodeIds(ns)[1] == ns[1].id;
  }

  /**
   * `addNewGroup`, as it is meant to work: the group is appended to the
   * document and its box and label are added to the group container as
   * the initial build draws a group.
   */
  method AddNewGroup(scene: Scene, data: Diagram, now: nat) returns (box: Object3D, sprite: Object3D)
    requires scene.Valid()
    modifies data`groups, scene, scene.groupBoxGroup`children
    ensures data.groups == old(data.groups) + [NewGroup(now)]
    ensures scene.Valid()
    ensures scene.groupBoxGroup.children == old(scene.groupBoxGroup.children) + [box, sprite]
    ensures Shows([box, sprite], GroupPrimitives(NewGroup(now)))
  {
    data.groups := data.groups + [NewGroup(now)];
    box, sprite := scene.AddGroup(NewGroup(now));
  }

  /** `addNewGroup` as written: the group is appended, then `THREE.BoxGeometry` fails as in `addNewNode`. */
  method AddNewGroupAsWritten(scene: Scene, data: Diagram, now: nat) returns (outcome: Completion)
    modifies data`groups
    ensures data.groups == old(data.groups) + [NewGroup(now)]
    ensures outcome == ReferenceError("THREE")
  {
    data.groups := data.groups + [NewGroup(now)];
    outcome := ReferenceError("THREE");
  }

  // ---------------------------------------------------------------------
  // The inspector sliders
  // ---------------------------------------------------------------------

  const SizeMin := 0.5
  const SizeMax := 5.0

  /** The record and the mesh drawn for it show the same position. */
  ghost predicate PositionInSync(r: NodeRecord, mesh: Object3D)
    reads r`position, mesh`look
  {
    r.position == mesh.look.position
  }

  /**
   * A position slider: the chosen coordinate is written into the record
   * and into the mesh's position on the same axis; nothing else moves.
   */
  method SetPosition(r: NodeRecord, mesh: Object3D, axis: Axis, value: real)
    modifies r`position, mesh`look
    ensures r.position == old(r.position)[axis := value]
    ensures mesh.look == old(mesh.look).(position := old(mesh.look.position)[axis := value])
    ensures r.position[axis] == mesh.look.position[axis] == value
    ensures old(PositionInSync(r, mesh)) ==> PositionInSync(r, mesh)
  {
    r.position := r.position[axis := value];
    mesh.look := mesh.look.(position := mesh.look.position[axis := value]);
  }

  /** Every side of a box is within the size sliders' range. */
  predicate SizeInRange(size: Vec3) {
    forall a: Axis :: SizeMin <= size[a] <= SizeMax
  }

  /**
   * A size slider, as `updateNodeGeometry` is meant to work: the chosen side is written into
   * the record, and the mesh's box and the wireframe found by name are
   * rebuilt from the record's whole size.
   */
  method SetSize(r: NodeRecord, mesh: Object3D, axis: Axis, value: real)
    requires SizeMin <= value <= SizeMax
    modifies r`size, mesh`look, (if Named(mesh, EdgesName) == null then {} else {Named(mesh, EdgesName)})`look
    ensures r.size == old(r.size)[axis := value]
    ensures old(SizeInRange(r.size)) ==> SizeInRange(r.size)
    ensures old(Named(mesh, EdgesName)) != mesh ==> mesh.look == old(mesh.look).(shape := Box(r.size))
    ensures old(Named(mesh, EdgesName)) != null ==>
      old(Named(mesh, EdgesName)).look == old(Named(mesh, EdgesName).look).(shape := Edges(Box(r.size)))
  {
    r.size := r.size[axis := value];
    mesh.look := mesh.look.(shape := Box(r.size));
    var wireframe := ObjectByName(mesh, EdgesName);
    if wireframe != null {
      wireframe.look := wireframe.look.(shape := Edges(Box(r.size)));
    }
  }

  /**
   * A size slider as written: the record takes the new side, then the
   * geometry rebuild fails on `THREE.BoxGeometry`, so the mesh keeps its
   * old box, which no longer matches the record once the side changed.
   */
  method SetSizeAsWritten(r: NodeRecord, mesh: Object3D, axis: Axis, value: real) returns (outcome: Completion)
    requires SizeMin <= value <= SizeMax
    modifies r`size
    ensures r.size == old(r.size)[axis := value]
    ensures outcome == ReferenceError("THREE")
    ensures mesh.look == old(mesh.look)
    ensures old(mesh.look.shape) == Box(old(r.size)) && old(r.size)[axis] != value ==> mesh.look.shape != Box(r.size)
  {
    r.size := r.size[axis := value];
    assert r.size[axis] == value;
    outcome := ReferenceError("THREE");
  }

  // ---------------------------------------------------------------------
  // The control registry
  // ---------------------------------------------------------------------

  /** A registered slider or field, distinct from every other by its serial. */
  datatype Control = Control(key: string, serial: nat)

  /** The keys `updateObjectGUI` registers for a node, in order. */
  const NodeControlKeys: seq<string> :=
    ["label", "color", "positionX", "positionY", "positionZ", "sizeWidth", "sizeHeight", "sizeDepth"]

  /** The "Selected Object" folder and the `objectControls` map that names its controls. */
  class Inspector {
    var controls: map<string, Control>
    var folder: set<Control>
    var nextControl: nat

    ghost predicate Valid()
      reads this
    {
      forall c :: c in folder ==> c.serial < nextControl
    }

    constructor ()
      ensures Valid() && controls == map[] && folder == {}
    {
      controls, folder, nextControl := map[], {}, 0;
    }

    /**
     * `clearObjectGUI`: every registered control leaves the folder and the
     * map is emptied; controls the map does not name stay in the folder.
     */
    method Clear()
      requires Valid()
      modifies this`controls, this`folder
      ensures Valid() && controls == map[]
      ensures folder == old(folder) - old(controls).Values
    {
      ghost var removed: set<Control> := {};
      while controls != map[]
        invariant Valid()
        invariant forall k :: k in controls ==> k in old(controls) && controls[k] == old(controls)[k]
        invariant removed == set k | k in old(controls) && k !in controls :: old(controls)[k]
        invariant folder == old(folder) - removed
        decreases |controls|
      {
        assert controls.Keys != {};
        var key :| key in controls;
        folder := folder - {controls[key]};
        removed := removed + {controls[key]};
        controls := controls - {key};
      }
      assert removed == old(controls).Values;
    }

    /** One `folder.add(...)`, stored in the map under `key`. */
    method Register(key: string) returns (c: Control)
      requires Valid()
      modifies this
      ensures Valid() && c !in old(folder) && c.key == key
      ensures controls == old(controls)[key := c] && folder == old(folder) + {c}
      ensures key !in old(controls) ==> controls.Values == old(controls).Values + {c}
      ensures nextControl == old(nextControl) + 1 && c.serial == old(nextControl)
    {
      c := Control(key, nextControl);
      if key !in controls {
        assert controls[key := c].Values == controls.Values + {c} by {
          forall v | v in controls[key := c].Values
            ensures v in controls.Values + {c}
          {
            var k :| k in controls[key := c] && controls[key := c][k] == v;
            if k != key {
              assert controls[k] in controls.Values;
            }
          }
          forall v | v in controls.Values
            ensures v in controls[key := c].Values
          {
            var k :| k in controls && controls[k] == v;
            assert controls[key := c][k] == v;
          }
          assert controls[key := c][key] == c;
        }
      }
      controls := controls[key := c];
      folder := folder + {c};
      nextControl := nextControl + 1;
    }

    /**
     * `updateObjectGUI`: the panel is cleared, then a node gets its eight
     * controls (label, colour, three positions, three sizes); a group or a
     * connection gets none.
     */
    method Show(tag: Tag)
      requires Valid()
      modifies this
      ensures Valid()
      ensures controls.Keys == if tag.NodeTag? then set k | k in NodeControlKeys else {}
      ensures folder == (old(folder) - old(controls).Values) + controls.Values
      ensures forall c :: c in controls.Values ==> c !in old(folder)
    {
      Clear();
      if tag.NodeTag? {
        RegisterNodeControls();
      }
    }

    /**
     * The eight `folder.add` calls for a node, into an empty map; they
     * differ only in key, range and callback, so they are taken here as one
     * pass over the keys in order.
     */
    method RegisterNodeControls()
      requires Valid() && controls == map[]
      modifies this
      ensures Valid()
      ensures controls.Keys == set k | k in NodeControlKeys
      ensures folder == old(folder) + controls.Values
      ensures forall c :: c in controls.Values ==> c.serial >= old(nextControl)
    {
      for i := 0 to |NodeControlKeys|
        invariant Valid() && nextControl >= old(nextControl)
        invariant controls.Keys == set k | k in NodeControlKeys[..i]
        invariant folder == old(folder) + controls.Values
        invariant forall c :: c in controls.Values ==> c.serial >= old(nextControl)
      {
        assert NodeControlKeys[i] !in NodeControlKeys[..i];
        var c := Register(NodeControlKeys[i]);
        assert NodeControlKeys[..i + 1] == NodeControlKeys[..i] + [NodeControlKeys[i]];
      }
      assert NodeControlKeys[..|NodeControlKeys|] == NodeControlKeys;
    }

    /** The panel's window listeners: a selection shows its controls, a deselection clears them. */
    method Handle(e: Editing.Event)
      requires Valid()
      modifies this
      ensures Valid()
      ensures e.Deselected? ==> controls == map[] && folder == old(folder) - old(controls).Values
      ensures e.Selected? ==> controls.Keys == (if e.tag.NodeTag? then set k | k in NodeControlKeys else {})
    {
      match e {
        case Selected(_, tag) => Show(tag);
        case Deselected => Clear();
      }
    }
  }
}

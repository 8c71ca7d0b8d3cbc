/**
 * The in-memory diagram document: three insertion-ordered sequences of
 * nodes, connections and groups, shared by every part of the editor.
 */
module DiagramData {

  datatype Option<+T> = None | Some(value: T) {
    predicate IsFailure() { None? }

    function PropagateFailure<U>(): Option<U>
      requires None?
    {
      None
    }

    function Extract(): T
      requires Some?
    {
      value
    }
  }

  /** A coordinate or extent triple: the editor's three-element number arrays. */
  type Vec3 = v: seq<real> | |v| == 3 witness [0.0, 0.0, 0.0]

  /** An axis index into a Vec3: 0 is x, 1 is y, 2 is z. */
  type Axis = i: nat | i < 3

  const Origin: Vec3 := [0.0, 0.0, 0.0]

  datatype Node = Node(id: string, caption: string, position: Vec3, size: Vec3, color: string, group: string)

  datatype Connection = Connection(id: string, from: string, to: string, caption: string, color: string)

  datatype Bounds = Bounds(min: Vec3, max: Vec3)

  datatype Group = Group(id: string, caption: string, bounds: Bounds, color: string, wireframe: bool)

  /** The whole document, as a value. */
  datatype Document = Document(nodes: seq<Node>, connections: seq<Connection>, groups: seq<Group>)

  /**
   * A node record. Node records are objects because the inspector edits
   * their fields in place and the scene's node meshes refer to them.
   */
  class NodeRecord {
    var id: string
    var caption: string
    var position: Vec3
    var size: Vec3
    var color: string
    var group: string

    function Value(): Node
      reads this
    {
      Node(id, caption, position, size, color, group)
    }

    constructor (n: Node)
      ensures Value() == n
    {
      id, caption, position, size, color, group := n.id, n.caption, n.position, n.size, n.color, n.group;
    }
  }

  /** The values currently held by a sequence of node records. */
  function Values(rs: seq<NodeRecord>): seq<Node>
    reads rs
  {
    seq(|rs|, i reads rs requires 0 <= i < |rs| => rs[i].Value())
  }

  /**
   * The shared `data` object: its three sequences are replaced, appended to
   * and spliced in place, and every component holds the same reference.
   */
  class Diagram {
    var nodes: seq<NodeRecord>
    var connections: seq<Connection>
    var groups: seq<Group>

    function Doc(): Document
      reads this, nodes
    {
      Document(Values(nodes), connections, groups)
    }

    constructor Empty()
      ensures Doc() == Document([], [], []) && fresh(this)
    {
      nodes, connections, groups := [], [], [];
    }
  }

  function NodeIds(ns: seq<Node>): (ids: seq<string>)
    ensures |ids| == |ns| && forall i :: 0 <= i < |ns| ==> ids[i] == ns[i].id
  {
    seq(|ns|, i requires 0 <= i < |ns| => ns[i].id)
  }

  function GroupIds(gs: seq<Group>): (ids: seq<string>)
    ensures |ids| == |gs| && forall i :: 0 <= i < |gs| ==> ids[i] == gs[i].id
  {
    seq(|gs|, i requires 0 <= i < |gs| => gs[i].id)
  }

  /** `indexOf`, and `findIndex` with an equality test: the first index holding `x`, or -1. */
  function IndexOf<T(==)>(s: seq<T>, x: T): (k: int)
    ensures -1 <= k < |s|
    ensures k >= 0 ==> s[k] == x && forall j :: 0 <= j < k ==> s[j] != x
    ensures k == -1 <==> x !in s
  {
    if s == [] then -1
    else if s[0] == x then 0
    else
      var k := IndexOf(s[1..], x);
      if k == -1 then -1 else k + 1
  }

  /** Array.prototype.splice(k, 1): the sequence without its element at `k`. */
  function RemoveAt<T>(s: seq<T>, k: nat): (r: seq<T>)
    requires k < |s|
    ensures |r| == |s| - 1
    ensures forall j :: 0 <= j < k ==> r[j] == s[j]
    ensures forall j :: k <= j < |r| ==> r[j] == s[j + 1]
    ensures multiset(r) + multiset{s[k]} == multiset(s)
  {
    assert s == s[..k] + [s[k]] + s[k + 1..];
    s[..k] + s[k + 1..]
  }

  /** The sequence after removing the first occurrence of `x`, when there is one. */
  function RemoveFirst<T(==)>(s: seq<T>, x: T): seq<T>
  {
    var k := IndexOf(s, x);
    if k == -1 then s else RemoveAt(s, k)
  }

  /** Removing `x` drops exactly its first occurrence and keeps everything else in order. */
  lemma RemoveFirstSpec<T>(s: seq<T>, x: T)
    ensures x !in s ==> RemoveFirst(s, x) == s
    ensures x in s ==> multiset(RemoveFirst(s, x)) + multiset{x} == multiset(s)
    ensures x in s ==> exists k :: 0 <= k < |s| && s[k] == x && x !in s[..k] && RemoveFirst(s, x) == s[..k] + s[k + 1..]
  {
    var k := IndexOf(s, x);
    if k != -1 {
      assert x !in s[..k];
    }
  }

  /** The node sequence after removing the first node whose id is `id`, when there is one. */
  function RemoveFirstNode(ns: seq<Node>, id: string): (r: seq<Node>)
  {
    var k := IndexOf(NodeIds(ns), id);
    if k == -1 then ns else RemoveAt(ns, k)
  }

  function RemoveFirstGroup(gs: seq<Group>, id: string): (r: seq<Group>)
  {
    var k := IndexOf(GroupIds(gs), id);
    if k == -1 then gs else RemoveAt(gs, k)
  }

  /** Removing nodes never changes which other records are present, only drops one match. */
  lemma RemoveFirstNodeSpec(ns: seq<Node>, id: string)
    ensures id !in NodeIds(ns) ==> RemoveFirstNode(ns, id) == ns
    ensures id in NodeIds(ns) ==>
      |RemoveFirstNode(ns, id)| == |ns| - 1 &&
      exists k :: 0 <= k < |ns| && ns[k].id == id && (forall j :: 0 <= j < k ==> ns[j].id != id) &&
        RemoveFirstNode(ns, id) == ns[..k] + ns[k + 1..]
  {
    var k := IndexOf(NodeIds(ns), id);
    if k != -1 {
      assert ns[k].id == id;
    }
  }
}

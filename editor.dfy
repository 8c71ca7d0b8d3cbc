/**
 * The selection and delete state machine: one selected object, changed by
 * clicks, Escape and Delete/Backspace; a walk up the parent links from the
 * object a click hit to the nearest tagged ancestor; and deletion of the
 * selected entity from the scene and from the document.
 */
module Editing {
  import opened DiagramData
  import opened SceneGraph

  /** The window events the editor dispatches. */
  datatype Event = Selected(object: Object3D, tag: Tag) | Deselected

  /** The name and colour of the outline added around a selected node mesh. */
  const OutlineName := "selection-outline"
  const OutlineColor := "#00ff00"

  // ---------------------------------------------------------------------
  // The parent walk
  // ---------------------------------------------------------------------

  /** `o`, its parent, its parent's parent, and so on up to an object without a parent. */
  ghost function Ancestors(o: Object3D, objs: set<Object3D>): (ch: seq<Object3D>)
    requires ParentClosed(objs) && o in objs
    reads objs`parent
    ensures |ch| >= 1 && ch[0] == o && ch[|ch| - 1].parent == null
    ensures forall j :: 0 <= j < |ch| - 1 ==> ch[j].parent == ch[j + 1]
    ensures forall j :: 0 <= j < |ch| ==> ch[j] in objs
    decreases o.depth
  {
    if o.parent == null then [o] else [o] + Ancestors(o.parent, objs)
  }

  /** The first index of a tagged object in `os`, or -1. */
  function FirstTagged(os: seq<Object3D>): (k: int)
    ensures -1 <= k < |os|
    ensures k >= 0 ==> os[k].tag.Some? && forall j :: 0 <= j < k ==> os[j].tag.None?
    ensures k == -1 ==> forall j :: 0 <= j < |os| ==> os[j].tag.None?
  {
    if os == [] then -1
    else if os[0].tag.Some? then 0
    else
      var k := FirstTagged(os[1..]);
      if k == -1 then -1 else k + 1
  }

  lemma {:induction false} FirstTaggedAt(os: seq<Object3D>, i: nat)
    requires i < |os| && os[i].tag.Some? && forall j :: 0 <= j < i ==> os[j].tag.None?
    ensures FirstTagged(os) == i
  {
    if i > 0 {
      FirstTaggedAt(os[1..], i - 1);
    }
  }

  /**
   * Where the walk from a hit object stops: the nearest tagged object among
   * it and its ancestors, or, when none is tagged, the topmost ancestor.
   */
  ghost function Target(o: Object3D, objs: set<Object3D>): Object3D
    requires ParentClosed(objs) && o in objs
    reads objs`parent
  {
    var ch := Ancestors(o, objs);
    var k := FirstTagged(ch);
    if k == -1 then ch[|ch| - 1] else ch[k]
  }

  /** A tagged hit is its own target; otherwise the target is tagged or has no parent. */
  lemma TargetSpec(o: Object3D, objs: set<Object3D>)
    requires ParentClosed(objs) && o in objs
    ensures Target(o, objs) in objs
    ensures o.tag.Some? ==> Target(o, objs) == o
    ensures Target(o, objs).tag.Some? || Target(o, objs).parent == null
    ensures Target(o, objs).tag.None? ==> forall a :: a in Ancestors(o, objs) ==> a.tag.None?
  {
    var ch := Ancestors(o, objs);
    if o.tag.Some? {
      FirstTaggedAt(ch, 0);
    }
  }

  /** The text of the delete confirmation: the type, then the label, or the id when the label is empty. */
  function DeletePrompt(tag: Tag): (text: string)
    reads if tag.NodeTag? then {tag.record} else {}
  {
    var name := match tag
      case NodeTag(r) => if r.caption != "" then r.caption else r.id
      case GroupTag(g) => if g.caption != "" then g.caption else g.id
      case ConnectionTag(c) => if c.caption != "" then c.caption else c.id;
    "Delete " + tag.TypeName() + ": " + name + "?"
  }

  /** The id of the entity a tag refers to. */
  function TagId(tag: Tag): string
    reads if tag.NodeTag? then {tag.record} else {}
  {
    match tag
    case NodeTag(r) => r.id
    case GroupTag(g) => g.id
    case ConnectionTag(c) => c.id
  }

  /** A node's children once `remove` has been given what `getObjectByName` finds for the outline. */
  function Stripped(s: Object3D): seq<Object3D>
    reads s`children
  {
    var o := Named(s, OutlineName);
    if o == null then s.children else RemoveFirst(s.children, o)
  }

  /** The outline is the first child so named; once stripped, one such child fewer remains. */
  lemma StrippedSpec(s: Object3D)
    requires s.name != OutlineName
    ensures FirstNamed(s.children, OutlineName) == -1 ==> Stripped(s) == s.children
    ensures FirstNamed(s.children, OutlineName) >= 0 ==>
      var k := FirstNamed(s.children, OutlineName);
      Stripped(s) == s.children[..k] + s.children[k + 1..]
  {
    var k := FirstNamed(s.children, OutlineName);
    if k >= 0 {
      var o := s.children[k];
      var i := IndexOf(s.children, o);
      assert i == k;
    }
  }

  /**
   * The closure state of `enableEditor`: the scene, the shared document and
   * the selected object, with the events dispatched so far.
   */
  class Editor {
    const scene: Scene
    const data: Diagram
    var selected: Object3D?
    var events: seq<Event>

    ghost predicate Valid()
      reads this`selected, scene`objects, scene.objects`parent
    {
      && scene.Valid()
      && (selected != null ==> selected in scene.objects && selected.tag.Some?)
    }

    /** The selection, as a set of at most one object. */
    ghost function Sel(): set<Object3D>
      reads this`selected
    {
      if selected == null then {} else {selected}
    }

    /** The children of the selection. */
    ghost function SelChildren(): set<Object3D>
      reads this`selected, Sel()`children
    {
      if selected == null then {} else set c | c in selected.children
    }

    constructor (scene: Scene, data: Diagram)
      requires scene.Valid()
      ensures Valid() && this.scene == scene && this.data == data
      ensures selected == null && events == []
    {
      this.scene := scene;
      this.data := data;
      selected := null;
      events := [];
    }

    /** The outline `deselectObject` looks up by name, as a set of at most one object. */
    ghost function Outlines(): set<Object3D>
      reads this`selected, Sel()`children
    {
      if selected == null then {}
      else
        var n := Named(selected, OutlineName);
        if n == null then {} else {n}
    }

    /**
     * `deselectObject`: with nothing selected, nothing happens and no event
     * is sent; otherwise the outline found by name is removed from the
     * selection's children, the selection is cleared and a deselection
     * event is sent.
     */
    method Deselect()
      requires Valid()
      modifies this`selected, this`events, Sel()`children, Outlines()`parent
      ensures Valid() && selected == null
      ensures old(selected) == null ==> events == old(events)
      ensures old(selected) != null ==> events == old(events) + [Deselected]
      ensures old(selected) != null ==> old(selected).children == old(Stripped(selected))
      ensures forall c | c in old(Outlines()) :: c.parent == null || c.parent == old(c.parent)
      ensures old(selected) != null ==> forall c | c in old(Outlines()) && c in old(selected.children) :: c.parent == null
      ensures Values(data.nodes) == old(Values(data.nodes))
    {
      if selected != null {
        StripOutline(selected);
        selected := null;
        events := events + [Deselected];
      }
    }

    /** `getObjectByName` for the outline, then `remove` of what it found. */
    method StripOutline(s: Object3D)
      requires scene.Valid()
      modifies s`children, (if Named(s, OutlineName) == null then {} else {Named(s, OutlineName)})`parent
      ensures scene.Valid()
      ensures s.children == old(Stripped(s))
      ensures old(Named(s, OutlineName)) != null ==>
        var n := old(Named(s, OutlineName));
        (n.parent == null || n.parent == old(n.parent)) && (n in old(s.children) ==> n.parent == null)
    {
      var outline := ObjectByName(s, OutlineName);
      if outline != null {
        scene.Remove(s, outline);
      }
    }

    /**
     * `selectObject`: the previous selection is deselected first; then `o`
     * is selected, a node mesh gets a green outline of its own geometry as
     * new last child, and a selection event is sent.
     */
    method Select(o: Object3D) returns (ghost outline: Object3D?)
      requires Valid() && o in scene.objects && o.tag.Some?
      modifies this`selected, this`events, Sel()`children, Outlines()`parent, scene, o`children
      ensures Valid() && selected == o
      ensures events == old(events) + (if old(selected) == null then [] else [Deselected]) + [Selected(o, o.tag.value)]
      ensures old(selected) != null && old(selected) != o ==> old(selected).children == old(Stripped(selected))
      ensures o.tag.value.NodeTag? <==> outline != null
      ensures outline != null ==>
        fresh(outline) && outline.name == OutlineName && outline.parent == o &&
        outline.Describe() == View(None, Look(Origin, Outline(o.look.shape), OutlineColor))
      ensures o.children == (if o == old(selected) then old(Stripped(selected)) else old(o.children)) +
                            (if outline == null then [] else [outline])
    {
      Deselect();
      selected := o;
      outline := null;
      if o.tag.value.NodeTag? {
        outline := scene.Add(o, OutlineName, View(None, Look(Origin, Outline(o.look.shape), OutlineColor)));
      }
      events := events + [Selected(o, o.tag.value)];
    }

    /** The `while` loop of `onMouseClick`: up the parent links until a tagged object or one without a parent. */
    method FindTarget(hit: Object3D) returns (t: Object3D)
      requires Valid() && hit in scene.objects
      ensures t == Target(hit, scene.objects)
    {
      ghost var ch := Ancestors(hit, scene.objects);
      ghost var i := 0;
      t := hit;
      while t.parent != null && t.tag.None?
        invariant 0 <= i < |ch| && t == ch[i]
        invariant forall j :: 0 <= j < i ==> ch[j].tag.None?
        invariant i < |ch| - 1 ==> t.parent == ch[i + 1]
        decreases |ch| - i
      {
        t := t.parent;
        i := i + 1;
      }
      if t.tag.Some? {
        FirstTaggedAt(ch, i);
      }
    }

    /**
     * `onMouseClick`, given what the ray hit, nearest first: no hit
     * deselects; otherwise the walk's target is selected when it is tagged,
     * and nothing changes when it is not. `outline` is the green outline a
     * selected node receives.
     */
    method Click(hits: seq<Object3D>) returns (ghost outline: Object3D?)
      requires Valid() && forall h :: h in hits ==> h in scene.objects
      modifies this`selected, this`events, Sel()`children, Outlines()`parent, scene,
        (if hits == [] then {} else {Target(hits[0], scene.objects)})`children
      ensures Valid()
      ensures hits == [] ==>
        selected == null && events == old(events) + (if old(selected) == null then [] else [Deselected])
      ensures hits == [] && old(selected) != null ==> old(selected).children == old(Stripped(selected))
      ensures hits != [] && old(Target(hits[0], scene.objects)).tag.Some? ==>
        var t := old(Target(hits[0], scene.objects));
        && selected == t
        && events == old(events) + (if old(selected) == null then [] else [Deselected]) + [Selected(t, t.tag.value)]
        && (old(selected) != null && old(selected) != t ==> old(selected).children == old(Stripped(selected)))
        && (t.tag.value.NodeTag? <==> outline != null)
        && (outline != null ==>
              fresh(outline) && outline.name == OutlineName && outline.parent == t &&
              outline.Describe() == View(None, Look(Origin, Outline(t.look.shape), OutlineColor)))
        && t.children == (if t == old(selected) then old(Stripped(selected)) else old(t.children)) +
                         (if outline == null then [] else [outline])
      ensures hits != [] && old(Target(hits[0], scene.objects)).tag.None? ==>
        && selected == old(selected) && events == old(events)
        && (old(selected) != null ==> old(selected).children == old(selected.children))
        && (forall c | c in old(Outlines()) :: c.parent == old(c.parent))
        && old(Target(hits[0], scene.objects)).children == old(Target(hits[0], scene.objects).children)
        && scene.objects == old(scene.objects)
    {
      outline := null;
      if |hits| > 0 {
        var t := FindTarget(hits[0]);
        if t.tag.Some? {
          TargetSpec(hits[0], scene.objects);
          outline := Select(t);
        }
      } else {
        Deselect();
      }
    }

    /**
     * `deleteObject`, given the answer to the confirmation: when confirmed,
     * the object leaves its parent, a node or group is spliced out of the
     * document by id (the first match only; connections stay as they are),
     * a connection changes no data, and the selection is cleared.  A
     * declined delete changes nothing.  Removing an object that has no
     * parent fails in `deleteObject` before anything changes.
     */
    method DeleteObject(o: Object3D, answer: bool) returns (prompt: string)
      requires Valid() && o in scene.objects && o.tag.Some?
      modifies this`selected, this`events, Sel()`children, Sel()`parent, SelChildren()`parent,
        data`nodes, data`groups, o`parent, (if o.parent == null then {} else {o.parent})`children
      ensures Valid()
      ensures prompt == old(DeletePrompt(o.tag.value))
      ensures !answer || old(o.parent) == null ==>
        selected == old(selected) && events == old(events) && data.nodes == old(data.nodes) && data.groups == old(data.groups)
      ensures !answer || old(o.parent) == null ==>
        && o.parent == old(o.parent)
        && (old(o.parent) != null ==> old(o.parent).children == old(o.parent.children))
        && (old(selected) != null ==> old(selected).children == old(selected.children) && old(selected).parent == old(selected.parent))
        && (forall c | c in old(SelChildren()) :: c.parent == old(c.parent))
      ensures answer && old(o.parent) != null ==>
        selected == null && events == old(events) + (if old(selected) == null then [] else [Deselected]) &&
        data.connections == old(data.connections)
      ensures answer && old(o.parent) != null && o in old(o.parent.children) ==> o.parent == null
      ensures answer && old(o.parent) != null && old(o.parent) != old(selected) ==>
        old(o.parent).children == RemoveFirst(old(o.parent.children), o)
      ensures answer && old(o.parent) != null && old(selected) != null && old(selected) != old(o.parent) ==>
        old(selected).children == old(Stripped(selected))
      ensures answer && old(o.parent) != null && o.tag.value.NodeTag? ==>
        Values(data.nodes) == RemoveFirstNode(old(Values(data.nodes)), old(TagId(o.tag.value))) &&
        data.groups == old(data.groups)
      ensures answer && old(o.parent) != null && o.tag.value.GroupTag? ==>
        data.groups == RemoveFirstGroup(old(data.groups), o.tag.value.group.id) && data.nodes == old(data.nodes)
      ensures answer && old(o.parent) != null && o.tag.value.ConnectionTag? ==>
        data.nodes == old(data.nodes) && data.groups == old(data.groups)
    {
      prompt := DeletePrompt(o.tag.value);
      if answer && o.parent != null {
        Remove(o);
      }
    }

    /** The confirmed half of `deleteObject`: the object leaves scene and document, and the selection is cleared. */
    method Remove(o: Object3D)
      requires Valid() && o in scene.objects && o.tag.Some? && o.parent != null
      modifies this`selected, this`events, Sel()`children, Sel()`parent, SelChildren()`parent,
        data`nodes, data`groups, o`parent, o.parent`children
      ensures Valid()
      ensures selected == null && events == old(events) + (if old(selected) == null then [] else [Deselected])
      ensures data.connections == old(data.connections)
      ensures o in old(o.parent.children) ==> o.parent == null
      ensures old(o.parent) != old(selected) ==> old(o.parent).children == RemoveFirst(old(o.parent.children), o)
      ensures old(selected) != null && old(selected) != old(o.parent) ==> old(selected).children == old(Stripped(selected))
      ensures o.tag.value.NodeTag? ==>
        Values(data.nodes) == RemoveFirstNode(old(Values(data.nodes)), old(TagId(o.tag.value))) && data.groups == old(data.groups)
      ensures o.tag.value.GroupTag? ==>
        data.groups == RemoveFirstGroup(old(data.groups), o.tag.value.group.id) && data.nodes == old(data.nodes)
      ensures o.tag.value.ConnectionTag? ==> data.nodes == old(data.nodes) && data.groups == old(data.groups)
    {
      Detach(o);
      if selected != null {
        NamedWithin(selected, OutlineName);
      }
      Deselect();
    }

    /** `object.parent.remove(object)` followed by the data half of `deleteObject`. */
    method Detach(o: Object3D)
      requires scene.Valid() && o.tag.Some? && o.parent != null
      modifies data`nodes, data`groups, o`parent, o.parent`children
      ensures scene.Valid()
      ensures o in old(o.parent.children) ==> o.parent == null
      ensures old(o.parent).children == RemoveFirst(old(o.parent.children), o)
      ensures forall c | c in old(o.parent).children :: c in old(o.parent.children)
      ensures o.tag.value.NodeTag? ==>
        Values(data.nodes) == RemoveFirstNode(old(Values(data.nodes)), old(TagId(o.tag.value))) && data.groups == old(data.groups)
      ensures o.tag.value.GroupTag? ==>
        data.groups == RemoveFirstGroup(old(data.groups), o.tag.value.group.id) && data.nodes == old(data.nodes)
      ensures o.tag.value.ConnectionTag? ==> data.nodes == old(data.nodes) && data.groups == old(data.groups)
    {
      ghost var before := Values(data.nodes);
      RemoveFirstSpec(o.parent.children, o);
      scene.Remove(o.parent, o);
      assert Values(data.nodes) == before;
      Forget(o.tag.value);
    }

    /** The data half of `deleteObject`: the first node or group with the tagged entity's id is spliced out. */
    method Forget(tag: Tag)
      modifies data`nodes, data`groups
      ensures tag.NodeTag? ==>
        Values(data.nodes) == RemoveFirstNode(old(Values(data.nodes)), old(TagId(tag))) && data.groups == old(data.groups)
      ensures tag.GroupTag? ==>
        data.groups == RemoveFirstGroup(old(data.groups), tag.group.id) && data.nodes == old(data.nodes)
      ensures tag.ConnectionTag? ==> data.nodes == old(data.nodes) && data.groups == old(data.groups)
    {
      match tag {
        case NodeTag(r) =>
          var k := IndexOf(NodeIds(Values(data.nodes)), r.id);
          if k != -1 {
            ValuesRemoveAt(data.nodes, k);
            data.nodes := RemoveAt(data.nodes, k);
          }
        case GroupTag(g) =>
          var k := IndexOf(GroupIds(data.groups), g.id);
          if k != -1 {
            data.groups := RemoveAt(data.groups, k);
          }
        case ConnectionTag(_) =>
      }
    }

    /**
     * `onKeyDown`: Delete and Backspace delete the selection when there is
     * one, Escape deselects, and any other key does nothing.
     */
    method KeyDown(key: string, answer: bool) returns (prompt: Option<string>)
      requires Valid()
      modifies this`selected, this`events, Sel()`children, Sel()`parent, SelChildren()`parent,
        data`nodes, data`groups, (if selected == null || selected.parent == null then {} else {selected.parent})`children
      ensures Valid()
      ensures prompt.Some? <==> (key == "Delete" || key == "Backspace") && old(selected) != null
      ensures prompt.Some? ==> prompt.value == old(DeletePrompt(selected.tag.value))
      ensures key == "Escape" ==>
        selected == null && events == old(events) + (if old(selected) == null then [] else [Deselected])
      ensures key == "Escape" && old(selected) != null ==> old(selected).children == old(Stripped(selected))
      ensures prompt.Some? && answer && old(selected.parent) != null ==>
        && selected == null && data.connections == old(data.connections)
        && events == old(events) + [Deselected]
        && old(selected.parent).children == RemoveFirst(old(selected.parent.children), old(selected))
        && old(selected).children == old(Stripped(selected))
        && (old(selected) in old(selected.parent.children) ==> old(selected).parent == null)
      ensures prompt.Some? && answer && old(selected.parent) != null && old(selected.tag.value).NodeTag? ==>
        Values(data.nodes) == RemoveFirstNode(old(Values(data.nodes)), old(TagId(selected.tag.value))) &&
        data.groups == old(data.groups)
      ensures prompt.Some? && answer && old(selected.parent) != null && old(selected.tag.value).GroupTag? ==>
        data.groups == RemoveFirstGroup(old(data.groups), old(selected.tag.value).group.id) && data.nodes == old(data.nodes)
      ensures prompt.Some? && answer && old(selected.parent) != null && old(selected.tag.value).ConnectionTag? ==>
        data.nodes == old(data.nodes) && data.groups == old(data.groups)
      ensures (prompt.None? && key != "Escape") || (prompt.Some? && (!answer || old(selected.parent) == null)) ==>
        && selected == old(selected) && events == old(events) && data.nodes == old(data.nodes) && data.groups == old(data.groups)
        && (old(selected) != null ==> old(selected).children == old(selected.children) && old(selected).parent == old(selected.parent))
        && (old(selected) != null && old(selected.parent) != null ==>
              old(selected.parent).children == old(selected.parent.children))
        && (forall c | c in old(SelChildren()) :: c.parent == old(c.parent))
    {
      prompt := None;
      if key == "Delete" || key == "Backspace" {
        if selected != null {
          assert selected.parent != selected by {
            assert selected.parent != null ==> selected.parent.depth < selected.depth;
          }
          var text := DeleteObject(selected, answer);
          prompt := Some(text);
        }
      } else if key == "Escape" {
        Deselect();
      }
    }
  }

  lemma NamedWithin(s: Object3D, name: string)
    ensures Named(s, name) == null || Named(s, name) == s || Named(s, name) in s.children
  {
  }

  lemma ValuesRemoveAt(rs: seq<NodeRecord>, k: nat)
    requires k < |rs|
    ensures Values(RemoveAt(rs, k)) == RemoveAt(Values(rs), k)
  {
  }

  /**
   * Deleting a node does not cascade: a connection whose `from` was the
   * only node with that id still names it, and no longer resolves.
   */
  lemma DeleteLeavesDanglingConnection(ns: seq<Node>, c: Connection)
    requires c.from in NodeIds(ns)
    requires forall i, j :: 0 <= i < j < |ns| && ns[i].id == c.from ==> ns[j].id != c.from
    ensures !Resolves(c, RemoveFirstNode(ns, c.from))
  {
    var k := IndexOf(NodeIds(ns), c.from);
    var rest := RemoveFirstNode(ns, c.from);
    forall j | 0 <= j < |rest|
      ensures rest[j].id != c.from
    {
      if j >= k {
        assert rest[j] == ns[j + 1];
      }
    }
    assert c.from !in NodeIds(rest);
  }
}

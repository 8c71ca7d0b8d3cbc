/**
 * Applying edited block text to the shared diagram: `parseYamlContent`
 * shapes what the text parser returned, and `applyYamlChanges` empties the
 * three lists of the shared data object and refills them. The text parser
 * itself is not modelled: its outcome is given as a `LoadResult`.
 */
module TextApply {
  import opened DiagramData

  /** What one top-level key of the parsed text holds, as far as applying it can tell. */
  datatype Section<T> =
    | Missing               // the key is absent: `undefined`
    | Falsy                 // null, false, 0 or the empty string
    | Items(items: seq<T>)  // a list
    | NotIterable           // a truthy value spread syntax rejects: a mapping, a number, `true`

  /** The value the text parser returned. */
  datatype Parsed =
    | Absent   // empty text or an explicit null
    | Scalar   // a string, number or boolean at the top level
    | List     // a top-level list: an object, but without the three keys
    | Mapping(nodes: Section<Node>, connections: Section<Connection>, groups: Section<Group>)

  datatype LoadResult = LoadFailed(message: string) | Loaded(value: Parsed)

  datatype Result<T> = Ok(value: T) | Err(message: string) {
    predicate IsFailure() {
      Err?
    }

    function PropagateFailure<U>(): Result<U>
      requires Err?
    {
      Err(message)
    }

    function Extract(): T
      requires Ok?
    {
      value
    }
  }

  datatype Sections = Sections(nodes: Section<Node>, connections: Section<Connection>, groups: Section<Group>)

  const InvalidStructure := "Invalid YAML structure"
  const MissingSections := "YAML must contain nodes, connections, and groups sections"
  /** Message of the corrected apply for a section that is not a list. */
  const NotLists := "YAML sections must be lists"

  /** JavaScript truthiness of a section value. */
  predicate Truthy<T>(s: Section<T>) {
    !s.Missing? && !s.Falsy?
  }

  /** `value || []`. */
  function OrEmpty<T>(s: Section<T>): Section<T> {
    if Truthy(s) then s else Items([])
  }

  /**
   * `parseYamlContent`: a parser failure propagates, a value that is not an
   * object is rejected, and every missing or falsy section becomes `[]`.
   */
  function ParseContent(load: LoadResult): (r: Result<Sections>)
    ensures load.LoadFailed? ==> r == Err(load.message)
    ensures load.Loaded? ==> (r.Err? <==> load.value.Absent? || load.value.Scalar?)
    ensures load.Loaded? && r.Err? ==> r.message == InvalidStructure
    ensures r.Ok? ==> Truthy(r.value.nodes) && Truthy(r.value.connections) && Truthy(r.value.groups)
    ensures load == Loaded(List) ==> r == Ok(Sections(Items([]), Items([]), Items([])))
    ensures r.Ok? && load.value.Mapping? ==>
      && (Truthy(load.value.nodes) ==> r.value.nodes == load.value.nodes)
      && (Truthy(load.value.connections) ==> r.value.connections == load.value.connections)
      && (Truthy(load.value.groups) ==> r.value.groups == load.value.groups)
    ensures r.Ok? && load.value.Mapping? ==>
      && (!Truthy(load.value.nodes) ==> r.value.nodes == Items([]))
      && (!Truthy(load.value.connections) ==> r.value.connections == Items([]))
      && (!Truthy(load.value.groups) ==> r.value.groups == Items([]))
  {
    match load
    case LoadFailed(m) => Err(m)
    case Loaded(v) =>
      match v
      case Absent => Err(InvalidStructure)
      case Scalar => Err(InvalidStructure)
      case List => Ok(Sections(Items([]), Items([]), Items([])))
      case Mapping(ns, cs, gs) => Ok(Sections(OrEmpty(ns), OrEmpty(cs), OrEmpty(gs)))
  }

  /** Parsing followed by the presence check of `applyYamlChanges`. */
  function Prepare(load: LoadResult): Result<Sections> {
    var p :- ParseContent(load);
    if !Truthy(p.nodes) || !Truthy(p.connections) || !Truthy(p.groups) then Err(MissingSections)
    else Ok(p)
  }

  /** The presence check can never reject anything: the defaults have already filled every gap. */
  lemma PresenceCheckNeverFires(load: LoadResult)
    ensures Prepare(load) == ParseContent(load)
  {
  }

  /** Why an apply stopped. */
  datatype Fault =
    | Thrown(message: string)  // an `Error` raised by the parser or the checks
    | NotIterableSpread        // the `TypeError` of spreading a value that is not a list

  /** The status line: "Changes applied successfully" or "Error: ..." */
  datatype Status = Ready | Applied | Failed(fault: Fault)

  /**
   * What `applyYamlChanges` leaves behind, given the document before it:
   * nothing changes when parsing fails; otherwise all three lists are
   * emptied first and refilled in the order nodes, connections, groups, and
   * a section that cannot be spread stops the refill where it is.
   */
  function ApplyResult(before: Document, load: LoadResult): (Document, Status) {
    match Prepare(load)
    case Err(m) => (before, Failed(Thrown(m)))
    case Ok(p) =>
      if !p.nodes.Items? then (Document([], [], []), Failed(NotIterableSpread))
      else if !p.connections.Items? then (Document(p.nodes.items, [], []), Failed(NotIterableSpread))
      else if !p.groups.Items? then (Document(p.nodes.items, p.connections.items, []), Failed(NotIterableSpread))
      else (Document(p.nodes.items, p.connections.items, p.groups.items), Applied)
  }

  /** A failed parse leaves the document alone. */
  lemma ParseFailureKeepsDocument(before: Document, load: LoadResult)
    requires ParseContent(load).Err?
    ensures ApplyResult(before, load) == (before, Failed(Thrown(ParseContent(load).message)))
  {
  }

  /** Text with all three lists replaces the document by exactly those lists. */
  lemma WellFormedTextReplaces(before: Document, ns: seq<Node>, cs: seq<Connection>, gs: seq<Group>)
    ensures ApplyResult(before, Loaded(Mapping(Items(ns), Items(cs), Items(gs)))) == (Document(ns, cs, gs), Applied)
  {
  }

  /**
   * Whatever the text, the apply ends in one of three ways: nothing changed
   * and an error reported; success, which needs the text to hold an object;
   * or stopped by a section that cannot be spread, with the groups at least
   * emptied.
   */
  lemma ApplyOutcomes(before: Document, load: LoadResult)
    ensures var (after, status) := ApplyResult(before, load);
      || (after == before && status.Failed? && status.fault.Thrown?)
      || (status == Applied && load.Loaded? && !load.value.Absent? && !load.value.Scalar?)
      || (status == Failed(NotIterableSpread) && after.groups == [])
  {
  }

  /** Text without a `nodes:` key empties the nodes and still reports success. */
  lemma MissingSectionEmptiesData(before: Document, cs: seq<Connection>, gs: seq<Group>)
    ensures ApplyResult(before, Loaded(Mapping(Missing, Items(cs), Items(gs)))) == (Document([], cs, gs), Applied)
  {
  }

  /** A top-level list, which has none of the keys, empties the whole document and reports success. */
  lemma TopLevelListEmptiesData(before: Document)
    ensures ApplyResult(before, Loaded(List)) == (Document([], [], []), Applied)
  {
  }

  /**
   * A `connections:` key holding a mapping fails the apply, yet the
   * document has already been changed: its nodes are replaced and its
   * connections and groups are gone.
   */
  lemma NotIterableAppliesPartly(before: Document, ns: seq<Node>, gs: seq<Group>)
    requires before.connections != []
    ensures var (after, status) := ApplyResult(before, Loaded(Mapping(Items(ns), NotIterable, Items(gs))));
      && status == Failed(NotIterableSpread)
      && after != before
      && after == Document(ns, [], [])
  {
  }

  /**
   * A section the corrected apply accepts: a list, or an empty value, which
   * is how a text reader returns a key with nothing after it.
   */
  predicate Listed<T>(s: Section<T>) {
    s.Items? || s.Falsy?
  }

  /** The items of an accepted section; an empty value holds none. */
  function ItemsOf<T>(s: Section<T>): seq<T>
    requires Listed(s)
  {
    if s.Items? then s.items else []
  }

  /**
   * The corrected apply: the text must be a mapping with all three keys,
   * each holding a list or nothing, checked before anything is touched.
   */
  function Checked(load: LoadResult): (r: Result<Document>)
    ensures r.Ok? <==>
      && load.Loaded? && load.value.Mapping?
      && Listed(load.value.nodes) && Listed(load.value.connections) && Listed(load.value.groups)
    ensures r.Ok? ==>
      && (load.value.nodes.Items? ==> r.value.nodes == load.value.nodes.items)
      && (load.value.connections.Items? ==> r.value.connections == load.value.connections.items)
      && (load.value.groups.Items? ==> r.value.groups == load.value.groups.items)
    ensures r.Ok? ==>
      && (load.value.nodes.Falsy? ==> r.value.nodes == [])
      && (load.value.connections.Falsy? ==> r.value.connections == [])
      && (load.value.groups.Falsy? ==> r.value.groups == [])
    ensures load.Loaded? && load.value.Mapping? ==>
      (load.value.nodes.Missing? || load.value.connections.Missing? || load.value.groups.Missing? ==> r == Err(MissingSections))
  {
    match load
    case LoadFailed(m) => Err(m)
    case Loaded(v) =>
      match v
      case Absent => Err(InvalidStructure)
      case Scalar => Err(InvalidStructure)
      case List => Err(MissingSections)
      case Mapping(ns, cs, gs) =>
        if ns.Missing? || cs.Missing? || gs.Missing? then Err(MissingSections)
        else if !Listed(ns) || !Listed(cs) || !Listed(gs) then Err(NotLists)
        else Ok(Document(ItemsOf(ns), ItemsOf(cs), ItemsOf(gs)))
  }

  function CheckedResult(before: Document, load: LoadResult): (Document, Status) {
    match Checked(load)
    case Err(m) => (before, Failed(Thrown(m)))
    case Ok(d) => (d, Applied)
  }

  /** The corrected apply is all or nothing. */
  lemma CheckedIsAtomic(before: Document, load: LoadResult)
    ensures var (after, status) := CheckedResult(before, load);
      && (status == Applied || (status.Failed? && after == before))
      && (status == Applied ==> Checked(load) == Ok(after))
  {
  }

  /** On text the corrected apply accepts, it agrees with the original one. */
  lemma CheckedAgreesOnLists(before: Document, load: LoadResult)
    requires Checked(load).Ok?
    ensures CheckedResult(before, load) == ApplyResult(before, load)
  {
  }

  /**
   * How a text reader returns the section generated for `xs`: an empty
   * list is printed as the key alone, which reads back as an empty value.
   */
  function SectionRead<T>(xs: seq<T>): (s: Section<T>)
    ensures Listed(s) && ItemsOf(s) == xs
    ensures s.Falsy? <==> xs == []
  {
    if xs == [] then Falsy else Items(xs)
  }

  /**
   * The corrected apply accepts the panel's own text unedited, empty
   * sections included, and puts back exactly the document it was made from.
   */
  lemma CheckedAcceptsGenerated(before: Document, d: Document)
    ensures CheckedResult(before, Loaded(Mapping(SectionRead(d.nodes), SectionRead(d.connections), SectionRead(d.groups))))
         == (d, Applied)
  {
  }

  /** Fresh records holding `xs`, one per item, in order. */
  method MakeRecords(xs: seq<Node>) returns (rs: seq<NodeRecord>)
    ensures Values(rs) == xs
    ensures forall r :: r in rs ==> fresh(r)
  {
    rs := [];
    for i := 0 to |xs|
      invariant Values(rs) == xs[..i]
      invariant forall r :: r in rs ==> fresh(r)
    {
      var r := new NodeRecord(xs[i]);
      rs := rs + [r];
    }
  }

  /** The text editor panel: the shared data object, the update callback and the status line. */
  class TextPanel {
    const data: Diagram
    /** Whether an update callback was registered. */
    const notify: bool
    /** How often the update callback has run. */
    var updates: nat
    var status: Status

    constructor (data: Diagram, notify: bool)
      ensures this.data == data && this.notify == notify
      ensures updates == 0 && status == Ready
    {
      this.data := data;
      this.notify := notify;
      updates := 0;
      status := Ready;
    }

    /**
     * `applyYamlChanges`: the lists of the shared data object are emptied
     * and refilled in place, so every holder of the data object sees the
     * new contents; the callback runs only when the apply completes.
     */
    method ApplyChanges(load: LoadResult)
      modifies this`updates, this`status, data`nodes, data`connections, data`groups
      ensures data.Doc() == ApplyResult(old(data.Doc()), load).0
      ensures status == ApplyResult(old(data.Doc()), load).1
      ensures updates == old(updates) + (if notify && status == Applied then 1 else 0)
    {
      match Prepare(load) {
        case Err(m) =>
          status := Failed(Thrown(m));
        case Ok(p) =>
          data.nodes := [];
          data.connections := [];
          data.groups := [];
          if !p.nodes.Items? {
            status := Failed(NotIterableSpread);
            return;
          }
          var rs := MakeRecords(p.nodes.items);
          data.nodes := data.nodes + rs;
          if !p.connections.Items? {
            status := Failed(NotIterableSpread);
            return;
          }
          data.connections := data.connections + p.connections.items;
          if !p.groups.Items? {
            status := Failed(NotIterableSpread);
            return;
          }
          data.groups := data.groups + p.groups.items;
          if notify {
            updates := updates + 1;
          }
          status := Applied;
      }
    }

    /** The corrected apply: checks every section first, then replaces all three lists. */
    method ApplyChecked(load: LoadResult)
      modifies this`updates, this`status, data`nodes, data`connections, data`groups
      ensures data.Doc() == CheckedResult(old(data.Doc()), load).0
      ensures status == CheckedResult(old(data.Doc()), load).1
      ensures updates == old(updates) + (if notify && status == Applied then 1 else 0)
    {
      match Checked(load) {
        case Err(m) =>
          status := Failed(Thrown(m));
        case Ok(d) =>
          var rs := MakeRecords(d.nodes);
          data.nodes := rs;
          data.connections := d.connections;
          data.groups := d.groups;
          if notify {
            updates := updates + 1;
          }
          status := Applied;
      }
    }
  }
}

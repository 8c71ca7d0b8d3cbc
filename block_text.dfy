/**
 * The block-text view of the document: `generateYamlFromData` builds it
 * from template strings, one block per entity, without escaping anything.
 * A reader for exactly that layout (not a general YAML reader) shows that
 * the text loses nothing as long as no string field contains a double
 * quote, a backslash or a line break, the timestamp has no line break, and
 * every coordinate prints in a form that reads back and holds no comma or
 * closing bracket.
 */
module BlockText {
  import opened DiagramData

  /** How a coordinate is printed: `String(x)` in the editor, a parameter here. */
  type Format = real -> string

  /** How a printed coordinate is read back. */
  type Scan = string -> real

  /**
   * `scan` reads `x` back from its printed form, and that form holds no
   * character that ends a number inside an array.
   */
  predicate ReadsBack(num: Format, scan: Scan, x: real) {
    scan(num(x)) == x && ',' !in num(x) && ']' !in num(x)
  }

  /** Every coordinate of `v` reads back. */
  predicate TripleReadsBack(num: Format, scan: Scan, v: Vec3) {
    ReadsBack(num, scan, v[0]) && ReadsBack(num, scan, v[1]) && ReadsBack(num, scan, v[2])
  }

  const Header := "# ThinkingSpace 3D System Architecture\n# Generated: "
  const NodesHead := "\n\n# System Nodes\nnodes:\n"
  const ConnectionsHead := "\n\n# System Connections  \nconnections:\n"
  const GroupsHead := "\n\n# Logical Groups\ngroups:\n"
  const ItemStart := "  - "

  // ---------------------------------------------------------------------
  // The generator
  // ---------------------------------------------------------------------

  /** `Array.prototype.join`. */
  function Join(xs: seq<string>, sep: string): string {
    if |xs| == 0 then ""
    else if |xs| == 1 then xs[0]
    else xs[0] + sep + Join(xs[1..], sep)
  }

  function Map<T>(xs: seq<T>, f: T -> string): seq<string> {
    seq(|xs|, i requires 0 <= i < |xs| => f(xs[i]))
  }

  /** `"${s}"`: the value between double quotes, unescaped. */
  function Quoted(s: string): string {
    "\"" + s + "\""
  }

  /** `[${v.join(', ')}]`. */
  function Numbers(v: Vec3, num: Format): string {
    "[" + Join(Map(v, num), ", ") + "]"
  }

  function Flag(b: bool): string {
    if b then "true" else "false"
  }

  /** One `key: "value"` line of a block. */
  function QuotedField(key: string, s: string): string {
    key + Quoted(s)
  }

  /** One `key: [x, y, z]` line of a block. */
  function NumbersField(key: string, v: Vec3, num: Format): string {
    key + Numbers(v, num)
  }

  /** One `key: true|false` line of a block. */
  function FlagField(key: string, b: bool): string {
    key + Flag(b)
  }

  function NodeBlock(n: Node, num: Format): string {
    QuotedField(ItemStart + "id: ", n.id) +
    QuotedField("\n    label: ", n.caption) +
    NumbersField("\n    position: ", n.position, num) +
    NumbersField("\n    size: ", n.size, num) +
    QuotedField("\n    color: ", n.color) +
    QuotedField("\n    group: ", n.group)
  }

  function ConnectionBlock(c: Connection): string {
    QuotedField(ItemStart + "id: ", c.id) +
    QuotedField("\n    from: ", c.from) +
    QuotedField("\n    to: ", c.to) +
    QuotedField("\n    label: ", c.caption) +
    QuotedField("\n    color: ", c.color)
  }

  function GroupBlock(g: Group, num: Format): string {
    QuotedField(ItemStart + "id: ", g.id) +
    QuotedField("\n    label: ", g.caption) +
    NumbersField("\n    bounds:\n      min: ", g.bounds.min, num) +
    NumbersField("\n      max: ", g.bounds.max, num) +
    QuotedField("\n    color: ", g.color) +
    FlagField("\n    wireframe: ", g.wireframe)
  }

  /**
   * `generateYamlFromData`, given the ISO timestamp: the two-line header,
   * then the node, connection and group sections in that order, each block
   * of a section on its own lines in document order.
   */
  function Generate(d: Document, stamp: string, num: Format): string {
    // grouped from the right, the order in which the text is read back
    Header + (stamp +
    (NodesHead + (Join(Map(d.nodes, NodeWriter(num)), "\n") +
    (ConnectionsHead + (Join(Map(d.connections, ConnectionBlock), "\n") +
    (GroupsHead + (Join(Map(d.groups, GroupWriter(num)), "\n") +
    "\n")))))))
  }

  function NodeWriter(num: Format): Node -> string {
    n => NodeBlock(n, num)
  }

  function GroupWriter(num: Format): Group -> string {
    g => GroupBlock(g, num)
  }

  // ---------------------------------------------------------------------
  // A reader for the generated layout
  // ---------------------------------------------------------------------

  /** The text after `lit`, when the text starts with it. */
  function Expect(lit: string, s: string): (r: Option<string>)
    ensures r.Some? <==> lit <= s
    ensures r.Some? ==> s == lit + r.value
  {
    if lit <= s then Some(s[|lit|..]) else None
  }

  /** The longest prefix free of `stop` characters, and the text after it. */
  function Until(s: string, stop: set<char>): (r: (string, string))
    ensures r.0 + r.1 == s
    ensures forall i :: 0 <= i < |r.0| ==> r.0[i] !in stop
    ensures r.1 == [] || r.1[0] in stop
  {
    if s == [] || s[0] in stop then ([], s)
    else
      var t := Until(s[1..], stop);
      ([s[0]] + t.0, t.1)
  }

  function ReadQuoted(s: string): (r: Option<(string, string)>)
    ensures r.Some? ==> |r.value.1| < |s|
  {
    var r0 :- Expect("\"", s);
    var t := Until(r0, {'"'});
    var r1 :- Expect("\"", t.1);
    Some((t.0, r1))
  }

  function ReadNumbers(s: string, scan: Scan): (r: Option<(Vec3, string)>)
    ensures r.Some? ==> |r.value.1| < |s|
  {
    var r0 :- Expect("[", s);
    var a := Until(r0, {',', ']'});
    var r1 :- Expect(", ", a.1);
    var b := Until(r1, {',', ']'});
    var r2 :- Expect(", ", b.1);
    var c := Until(r2, {',', ']'});
    var r3 :- Expect("]", c.1);
    Some(([scan(a.0), scan(b.0), scan(c.0)], r3))
  }

  function ReadFlag(s: string): (r: Option<(bool, string)>)
    ensures r.Some? ==> |r.value.1| < |s|
  {
    if "true" <= s then Some((true, s[4..]))
    else if "false" <= s then Some((false, s[5..]))
    else None
  }

  function ReadQuotedField(key: string, s: string): (r: Option<(string, string)>)
    ensures r.Some? ==> |r.value.1| < |s|
  {
    var r0 :- Expect(key, s);
    ReadQuoted(r0)
  }

  function ReadNumbersField(key: string, s: string, scan: Scan): (r: Option<(Vec3, string)>)
    ensures r.Some? ==> |r.value.1| < |s|
  {
    var r0 :- Expect(key, s);
    ReadNumbers(r0, scan)
  }

  function ReadFlagField(key: string, s: string): (r: Option<(bool, string)>)
    ensures r.Some? ==> |r.value.1| < |s|
  {
    var r0 :- Expect(key, s);
    ReadFlag(r0)
  }

  function ReadNode(s: string, scan: Scan): (r: Option<(Node, string)>)
    ensures r.Some? ==> |r.value.1| < |s|
  {
    var id :- ReadQuotedField(ItemStart + "id: ", s);
    var caption :- ReadQuotedField("\n    label: ", id.1);
    var position :- ReadNumbersField("\n    position: ", caption.1, scan);
    var size :- ReadNumbersField("\n    size: ", position.1, scan);
    var color :- ReadQuotedField("\n    color: ", size.1);
    var group :- ReadQuotedField("\n    group: ", color.1);
    Some((Node(id.0, caption.0, position.0, size.0, color.0, group.0), group.1))
  }

  function ReadConnection(s: string): (r: Option<(Connection, string)>)
    ensures r.Some? ==> |r.value.1| < |s|
  {
    var id :- ReadQuotedField(ItemStart + "id: ", s);
    var from :- ReadQuotedField("\n    from: ", id.1);
    var to :- ReadQuotedField("\n    to: ", from.1);
    var caption :- ReadQuotedField("\n    label: ", to.1);
    var color :- ReadQuotedField("\n    color: ", caption.1);
    Some((Connection(id.0, from.0, to.0, caption.0, color.0), color.1))
  }

  function ReadGroup(s: string, scan: Scan): (r: Option<(Group, string)>)
    ensures r.Some? ==> |r.value.1| < |s|
  {
    var id :- ReadQuotedField(ItemStart + "id: ", s);
    var caption :- ReadQuotedField("\n    label: ", id.1);
    var lo :- ReadNumbersField("\n    bounds:\n      min: ", caption.1, scan);
    var hi :- ReadNumbersField("\n      max: ", lo.1, scan);
    var color :- ReadQuotedField("\n    color: ", hi.1);
    var wireframe :- ReadFlagField("\n    wireframe: ", color.1);
    Some((Group(id.0, caption.0, Bounds(lo.0, hi.0), color.0, wireframe.0), wireframe.1))
  }

  /** A reader that, when it succeeds, always consumes something. */
  ghost predicate Progresses<T>(read: string -> Option<(T, string)>) {
    forall t :: read(t).Some? ==> |read(t).value.1| < |t|
  }

  /** Items, each starting with "  - ", separated by single line breaks. */
  function ReadItems<T>(s: string, read: string -> Option<(T, string)>): Option<(seq<T>, string)>
    requires Progresses(read)
    decreases |s|
  {
    if !(ItemStart <= s) then Some(([], s))
    else
      var first :- read(s);
      if "\n" + ItemStart <= first.1 then
        var more :- ReadItems(first.1[1..], read);
        Some(([first.0] + more.0, more.1))
      else
        Some(([first.0], first.1))
  }

  function NodeReader(scan: Scan): string -> Option<(Node, string)> {
    s => ReadNode(s, scan)
  }

  function GroupReader(scan: Scan): string -> Option<(Group, string)> {
    s => ReadGroup(s, scan)
  }

  /** The document and the timestamp, when `text` has exactly the generated layout. */
  function ReadDocument(text: string, scan: Scan): Option<(Document, string)> {
    var r0 :- Expect(Header, text);
    var stamp := Until(r0, {'\n'});
    var r1 :- Expect(NodesHead, stamp.1);
    var ns :- ReadItems(r1, NodeReader(scan));
    var r2 :- Expect(ConnectionsHead, ns.1);
    var cs :- ReadItems(r2, ReadConnection);
    var r3 :- Expect(GroupsHead, cs.1);
    var gs :- ReadItems(r3, GroupReader(scan));
    if gs.1 == "\n" then Some((Document(ns.0, cs.0, gs.0), stamp.0)) else None
  }

  // ---------------------------------------------------------------------
  // Round trip
  // ---------------------------------------------------------------------

  /**
   * A string the unescaped quoting keeps intact. A double quote ends the
   * string early; a backslash starts an escape and a line break is folded
   * by a YAML reader of double-quoted scalars, which the reader here does
   * not model, so those are excluded too.
   */
  predicate Plain(s: string) {
    '"' !in s && '\\' !in s && '\n' !in s
  }

  predicate PlainNode(n: Node) {
    Plain(n.id) && Plain(n.caption) && Plain(n.color) && Plain(n.group)
  }

  predicate PlainConnection(c: Connection) {
    Plain(c.id) && Plain(c.from) && Plain(c.to) && Plain(c.caption) && Plain(c.color)
  }

  predicate PlainGroup(g: Group) {
    Plain(g.id) && Plain(g.caption) && Plain(g.color)
  }

  /** The position and size of a node read back. */
  predicate NodeReadsBack(num: Format, scan: Scan, n: Node) {
    TripleReadsBack(num, scan, n.position) && TripleReadsBack(num, scan, n.size)
  }

  /** The bounds of a group read back. */
  predicate GroupReadsBack(num: Format, scan: Scan, g: Group) {
    TripleReadsBack(num, scan, g.bounds.min) && TripleReadsBack(num, scan, g.bounds.max)
  }

  /** Every number the document prints reads back. */
  predicate DocumentReadsBack(num: Format, scan: Scan, d: Document) {
    && (forall n :: n in d.nodes ==> NodeReadsBack(num, scan, n))
    && (forall g :: g in d.groups ==> GroupReadsBack(num, scan, g))
  }

  predicate PlainDocument(d: Document) {
    && (forall n :: n in d.nodes ==> PlainNode(n))
    && (forall c :: c in d.connections ==> PlainConnection(c))
    && (forall g :: g in d.groups ==> PlainGroup(g))
  }

  lemma ExpectOf(lit: string, t: string)
    ensures Expect(lit, lit + t) == Some(t)
  {
    assert lit <= lit + t;
  }

  /** `Until` stops exactly at the first stop character. */
  lemma {:induction false} UntilOf(x: string, t: string, stop: set<char>)
    requires forall i :: 0 <= i < |x| ==> x[i] !in stop
    requires t != [] && t[0] in stop
    ensures Until(x + t, stop) == (x, t)
  {
    if x == [] {
      assert x + t == t;
    } else {
      var s := x + t;
      assert s[0] == x[0] && x[0] !in stop;
      assert s[1..] == x[1..] + t;
      UntilOf(x[1..], t, stop);
      assert [x[0]] + x[1..] == x;
    }
  }

  lemma QuotedRoundTrip(s: string, t: string)
    requires '"' !in s
    ensures ReadQuoted(Quoted(s) + t) == Some((s, t))
  {
    assert Quoted(s) + t == "\"" + (s + ("\"" + t));
    ExpectOf("\"", s + ("\"" + t));
    UntilOf(s, "\"" + t, {'"'});
    ExpectOf("\"", t);
  }

  /** A quote inside a string ends it early: the unescaped output cannot be read back. */
  lemma QuoteBreaksRead(s: string, t: string)
    requires '"' in s
    ensures ReadQuoted(Quoted(s) + t) != Some((s, t))
  {
    var r0 := s + ("\"" + t);
    assert Quoted(s) + t == "\"" + r0;
    ExpectOf("\"", r0);
    var u := Until(r0, {'"'});
    var k :| 0 <= k < |s| && s[k] == '"';
    assert r0[k] == '"';
  }

  lemma Avoids(x: string)
    requires ',' !in x && ']' !in x
    ensures forall i :: 0 <= i < |x| ==> x[i] !in {',', ']'}
  {
    forall i | 0 <= i < |x|
      ensures x[i] !in {',', ']'}
    {
      assert x[i] in x;
    }
  }

  lemma NumbersText(v: Vec3, num: Format)
    ensures Numbers(v, num) == "[" + num(v[0]) + ", " + num(v[1]) + ", " + num(v[2]) + "]"
  {
    var m := Map(v, num);
    assert m[1..][1..] == [num(v[2])];
    assert Join(m[1..], ", ") == num(v[1]) + ", " + num(v[2]);
  }

  lemma NumbersRoundTrip(v: Vec3, num: Format, scan: Scan, t: string)
    requires TripleReadsBack(num, scan, v)
    ensures ReadNumbers(Numbers(v, num) + t, scan) == Some((v, t))
  {
    NumbersText(v, num);
    var x, y, z := v[0], v[1], v[2];
    var a, b, c := num(x), num(y), num(z);
    assert scan(a) == x && scan(b) == y && scan(c) == z;
    var stop := {',', ']'};
    Avoids(a);
    Avoids(b);
    Avoids(c);
    assert Numbers(v, num) + t == "[" + (a + (", " + (b + (", " + (c + ("]" + t))))));
    ExpectOf("[", a + (", " + (b + (", " + (c + ("]" + t))))));
    UntilOf(a, ", " + (b + (", " + (c + ("]" + t)))), stop);
    ExpectOf(", ", b + (", " + (c + ("]" + t))));
    UntilOf(b, ", " + (c + ("]" + t)), stop);
    ExpectOf(", ", c + ("]" + t));
    UntilOf(c, "]" + t, stop);
    ExpectOf("]", t);
    assert [scan(a), scan(b), scan(c)] == v;
  }

  /** Concatenation regrouped to the right, one field at a time. */
  lemma Regroup3(a: string, b: string, c: string, t: string)
    ensures a + b + c + t == a + (b + (c + t))
  {
    assert a + b + c + t == (a + b) + (c + t);
  }

  lemma Regroup5(a: string, b: string, c: string, d: string, e: string, t: string)
    ensures a + b + c + d + e + t == a + (b + (c + (d + (e + t))))
  {
    Regroup3(a + b + c, d, e, t);
    Regroup3(a, b, c, d + (e + t));
  }

  lemma Regroup6(a: string, b: string, c: string, d: string, e: string, f: string, t: string)
    ensures a + b + c + d + e + f + t == a + (b + (c + (d + (e + (f + t)))))
  {
    Regroup3(a + b + c + d, e, f, t);
    Regroup5(a, b, c, d, e + (f + t), []);
    assert e + (f + t) + [] == e + (f + t);
    assert a + b + c + d + (e + (f + t)) + [] == a + b + c + d + (e + (f + t));
  }

  lemma QuotedFieldRoundTrip(key: string, v: string, t: string)
    requires Plain(v)
    ensures ReadQuotedField(key, QuotedField(key, v) + t) == Some((v, t))
  {
    assert QuotedField(key, v) + t == key + (Quoted(v) + t);
    ExpectOf(key, Quoted(v) + t);
    QuotedRoundTrip(v, t);
  }

  lemma NumbersFieldRoundTrip(key: string, v: Vec3, num: Format, scan: Scan, t: string)
    requires TripleReadsBack(num, scan, v)
    ensures ReadNumbersField(key, NumbersField(key, v, num) + t, scan) == Some((v, t))
  {
    assert NumbersField(key, v, num) + t == key + (Numbers(v, num) + t);
    ExpectOf(key, Numbers(v, num) + t);
    NumbersRoundTrip(v, num, scan, t);
  }

  lemma FlagFieldRoundTrip(key: string, b: bool, t: string)
    ensures ReadFlagField(key, FlagField(key, b) + t) == Some((b, t))
  {
    assert FlagField(key, b) + t == key + (Flag(b) + t);
    ExpectOf(key, Flag(b) + t);
    if b {
      assert "true" <= "true" + t;
      assert ("true" + t)[4..] == t;
    } else {
      assert ("false" + t)[0] == 'f';
      assert "false" <= "false" + t;
      assert ("false" + t)[5..] == t;
    }
  }

  lemma NodeRoundTrip(n: Node, num: Format, scan: Scan, t: string)
    requires PlainNode(n) && NodeReadsBack(num, scan, n)
    ensures ReadNode(NodeBlock(n, num) + t, scan) == Some((n, t))
  {
    var t5 := QuotedField("\n    group: ", n.group) + t;
    var t4 := QuotedField("\n    color: ", n.color) + t5;
    var t3 := NumbersField("\n    size: ", n.size, num) + t4;
    var t2 := NumbersField("\n    position: ", n.position, num) + t3;
    var t1 := QuotedField("\n    label: ", n.caption) + t2;
    Regroup6(QuotedField(ItemStart + "id: ", n.id), QuotedField("\n    label: ", n.caption),
      NumbersField("\n    position: ", n.position, num), NumbersField("\n    size: ", n.size, num),
      QuotedField("\n    color: ", n.color), QuotedField("\n    group: ", n.group), t);
    QuotedFieldRoundTrip(ItemStart + "id: ", n.id, t1);
    QuotedFieldRoundTrip("\n    label: ", n.caption, t2);
    NumbersFieldRoundTrip("\n    position: ", n.position, num, scan, t3);
    NumbersFieldRoundTrip("\n    size: ", n.size, num, scan, t4);
    QuotedFieldRoundTrip("\n    color: ", n.color, t5);
    QuotedFieldRoundTrip("\n    group: ", n.group, t);
  }

  lemma ConnectionRoundTrip(c: Connection, t: string)
    requires PlainConnection(c)
    ensures ReadConnection(ConnectionBlock(c) + t) == Some((c, t))
  {
    var t4 := QuotedField("\n    color: ", c.color) + t;
    var t3 := QuotedField("\n    label: ", c.caption) + t4;
    var t2 := QuotedField("\n    to: ", c.to) + t3;
    var t1 := QuotedField("\n    from: ", c.from) + t2;
    Regroup5(QuotedField(ItemStart + "id: ", c.id), QuotedField("\n    from: ", c.from),
      QuotedField("\n    to: ", c.to), QuotedField("\n    label: ", c.caption), QuotedField("\n    color: ", c.color), t);
    QuotedFieldRoundTrip(ItemStart + "id: ", c.id, t1);
    QuotedFieldRoundTrip("\n    from: ", c.from, t2);
    QuotedFieldRoundTrip("\n    to: ", c.to, t3);
    QuotedFieldRoundTrip("\n    label: ", c.caption, t4);
    QuotedFieldRoundTrip("\n    color: ", c.color, t);
  }

  lemma GroupRoundTrip(g: Group, num: Format, scan: Scan, t: string)
    requires PlainGroup(g) && GroupReadsBack(num, scan, g)
    ensures ReadGroup(GroupBlock(g, num) + t, scan) == Some((g, t))
  {
    var t5 := FlagField("\n    wireframe: ", g.wireframe) + t;
    var t4 := QuotedField("\n    color: ", g.color) + t5;
    var t3 := NumbersField("\n      max: ", g.bounds.max, num) + t4;
    var t2 := NumbersField("\n    bounds:\n      min: ", g.bounds.min, num) + t3;
    var t1 := QuotedField("\n    label: ", g.caption) + t2;
    Regroup6(QuotedField(ItemStart + "id: ", g.id), QuotedField("\n    label: ", g.caption),
      NumbersField("\n    bounds:\n      min: ", g.bounds.min, num), NumbersField("\n      max: ", g.bounds.max, num),
      QuotedField("\n    color: ", g.color), FlagField("\n    wireframe: ", g.wireframe), t);
    QuotedFieldRoundTrip(ItemStart + "id: ", g.id, t1);
    QuotedFieldRoundTrip("\n    label: ", g.caption, t2);
    NumbersFieldRoundTrip("\n    bounds:\n      min: ", g.bounds.min, num, scan, t3);
    NumbersFieldRoundTrip("\n      max: ", g.bounds.max, num, scan, t4);
    QuotedFieldRoundTrip("\n    color: ", g.color, t5);
    FlagFieldRoundTrip("\n    wireframe: ", g.wireframe, t);
  }

  lemma PrefixGrows(p: string, a: string, b: string)
    requires p <= a
    ensures p <= a + b
  {
    assert (a + b)[..|p|] == a[..|p|];
  }

  lemma NodeBlockStarts(n: Node, num: Format)
    ensures ItemStart <= NodeBlock(n, num)
  {
    var k := ItemStart + "id: ";
    PrefixGrows(ItemStart, ItemStart, "id: ");
    PrefixGrows(ItemStart, k, Quoted(n.id));
    var a := QuotedField(k, n.id);
    PrefixGrows(ItemStart, a, QuotedField("\n    label: ", n.caption));
    a := a + QuotedField("\n    label: ", n.caption);
    PrefixGrows(ItemStart, a, NumbersField("\n    position: ", n.position, num));
    a := a + NumbersField("\n    position: ", n.position, num);
    PrefixGrows(ItemStart, a, NumbersField("\n    size: ", n.size, num));
    a := a + NumbersField("\n    size: ", n.size, num);
    PrefixGrows(ItemStart, a, QuotedField("\n    color: ", n.color));
    a := a + QuotedField("\n    color: ", n.color);
    PrefixGrows(ItemStart, a, QuotedField("\n    group: ", n.group));
  }

  lemma ConnectionBlockStarts(c: Connection)
    ensures ItemStart <= ConnectionBlock(c)
  {
    var k := ItemStart + "id: ";
    PrefixGrows(ItemStart, ItemStart, "id: ");
    PrefixGrows(ItemStart, k, Quoted(c.id));
    var a := QuotedField(k, c.id);
    PrefixGrows(ItemStart, a, QuotedField("\n    from: ", c.from));
    a := a + QuotedField("\n    from: ", c.from);
    PrefixGrows(ItemStart, a, QuotedField("\n    to: ", c.to));
    a := a + QuotedField("\n    to: ", c.to);
    PrefixGrows(ItemStart, a, QuotedField("\n    label: ", c.caption));
    a := a + QuotedField("\n    label: ", c.caption);
    PrefixGrows(ItemStart, a, QuotedField("\n    color: ", c.color));
  }

  lemma GroupBlockStarts(g: Group, num: Format)
    ensures ItemStart <= GroupBlock(g, num)
  {
    var k := ItemStart + "id: ";
    PrefixGrows(ItemStart, ItemStart, "id: ");
    PrefixGrows(ItemStart, k, Quoted(g.id));
    var a := QuotedField(k, g.id);
    PrefixGrows(ItemStart, a, QuotedField("\n    label: ", g.caption));
    a := a + QuotedField("\n    label: ", g.caption);
    PrefixGrows(ItemStart, a, NumbersField("\n    bounds:\n      min: ", g.bounds.min, num));
    a := a + NumbersField("\n    bounds:\n      min: ", g.bounds.min, num);
    PrefixGrows(ItemStart, a, NumbersField("\n      max: ", g.bounds.max, num));
    a := a + NumbersField("\n      max: ", g.bounds.max, num);
    PrefixGrows(ItemStart, a, QuotedField("\n    color: ", g.color));
    a := a + QuotedField("\n    color: ", g.color);
    PrefixGrows(ItemStart, a, FlagField("\n    wireframe: ", g.wireframe));
  }

  /** The joined list starts with its first item. */
  lemma JoinStarts(ys: seq<string>, sep: string)
    requires ys != []
    ensures ys[0] <= Join(ys, sep)
  {
    if |ys| > 1 {
      PrefixGrows(ys[0], ys[0], sep);
      PrefixGrows(ys[0], ys[0] + sep, Join(ys[1..], sep));
    }
  }

  /**
   * The blocks of a section, joined by line breaks, are read back one by
   * one, up to the first text that does not start another block.
   */
  lemma {:induction false} ItemsRoundTrip<T>(xs: seq<T>, f: T -> string, read: string -> Option<(T, string)>, rest: string)
    requires Progresses(read)
    requires forall x, t :: x in xs ==> read(f(x) + t) == Some((x, t))
    requires forall x :: x in xs ==> ItemStart <= f(x)
    requires !(ItemStart <= rest) && !("\n" + ItemStart <= rest)
    ensures ReadItems(Join(Map(xs, f), "\n") + rest, read) == Some((xs, rest))
    decreases |xs|
  {
    var s := Join(Map(xs, f), "\n") + rest;
    if xs == [] {
      assert s == rest;
    } else {
      var x := xs[0];
      assert x in xs;
      PrefixGrows(ItemStart, f(x), rest);
      if |xs| == 1 {
        assert Map(xs, f) == [f(x)];
        assert s == f(x) + rest;
        assert read(f(x) + rest) == Some((x, rest));
        assert [x] == xs;
      } else {
        var tail := Join(Map(xs[1..], f), "\n") + rest;
        assert Map(xs, f)[1..] == Map(xs[1..], f);
        assert s == f(x) + ("\n" + tail);
        assert read(f(x) + ("\n" + tail)) == Some((x, "\n" + tail));
        PrefixGrows(ItemStart, f(x), "\n" + tail);
        var y := xs[1];
        assert y in xs;
        JoinStarts(Map(xs[1..], f), "\n");
        PrefixGrows(ItemStart, f(y), Join(Map(xs[1..], f), "\n") + rest);
        assert ItemStart <= f(y) + (Join(Map(xs[1..], f), "\n")[|f(y)|..] + rest);
        assert ItemStart <= tail;
        assert "\n" + ItemStart <= "\n" + tail;
        assert ("\n" + tail)[1..] == tail;
        ItemsRoundTrip(xs[1..], f, read, rest);
        assert [x] + xs[1..] == xs;
      }
    }
  }

  /** Text that opens with an empty line ends a section. */
  lemma EndsSection(head: string, x: string)
    requires "\n\n" <= head
    ensures !(ItemStart <= head + x) && !("\n" + ItemStart <= head + x)
  {
    var s := head + x;
    assert s[0] == head[0] == '\n' && s[1] == head[1] == '\n';
    assert ItemStart[0] == ' ';
    assert ("\n" + ItemStart)[1] == ' ';
  }

  lemma NoBreak(stamp: string)
    requires '\n' !in stamp
    ensures forall i :: 0 <= i < |stamp| ==> stamp[i] !in {'\n'}
  {
    forall i | 0 <= i < |stamp|
      ensures stamp[i] !in {'\n'}
    {
      assert stamp[i] in stamp;
    }
  }

  lemma NodesRoundTrip(ns: seq<Node>, num: Format, scan: Scan, x: string)
    requires forall n :: n in ns ==> PlainNode(n) && NodeReadsBack(num, scan, n)
    ensures ReadItems(Join(Map(ns, NodeWriter(num)), "\n") + (ConnectionsHead + x), NodeReader(scan))
         == Some((ns, ConnectionsHead + x))
  {
    forall x, t | x in ns
      ensures NodeReader(scan)(NodeWriter(num)(x) + t) == Some((x, t))
      ensures ItemStart <= NodeWriter(num)(x)
    {
      NodeRoundTrip(x, num, scan, t);
      NodeBlockStarts(x, num);
    }
    var rest := ConnectionsHead + x;
    EndsSection(ConnectionsHead, x);
    ItemsRoundTrip(ns, NodeWriter(num), NodeReader(scan), rest);
  }

  lemma ConnectionsRoundTrip(cs: seq<Connection>, x: string)
    requires forall c :: c in cs ==> PlainConnection(c)
    ensures ReadItems(Join(Map(cs, ConnectionBlock), "\n") + (GroupsHead + x), ReadConnection)
         == Some((cs, GroupsHead + x))
  {
    forall x, t | x in cs
      ensures ReadConnection(ConnectionBlock(x) + t) == Some((x, t))
      ensures ItemStart <= ConnectionBlock(x)
    {
      ConnectionRoundTrip(x, t);
      ConnectionBlockStarts(x);
    }
    var rest := GroupsHead + x;
    EndsSection(GroupsHead, x);
    ItemsRoundTrip(cs, ConnectionBlock, ReadConnection, rest);
  }

  lemma GroupsRoundTrip(gs: seq<Group>, num: Format, scan: Scan)
    requires forall g :: g in gs ==> PlainGroup(g) && GroupReadsBack(num, scan, g)
    ensures ReadItems(Join(Map(gs, GroupWriter(num)), "\n") + "\n", GroupReader(scan)) == Some((gs, "\n"))
  {
    forall x, t | x in gs
      ensures GroupReader(scan)(GroupWriter(num)(x) + t) == Some((x, t))
      ensures ItemStart <= GroupWriter(num)(x)
    {
      GroupRoundTrip(x, num, scan, t);
      GroupBlockStarts(x, num);
    }
    ItemsRoundTrip(gs, GroupWriter(num), GroupReader(scan), "\n");
  }

  /**
   * The generated text is lossless: reading it back gives the document
   * and the timestamp, when every string is plain, the timestamp holds no
   * line break and every number the document prints reads back.
   */
  lemma DocumentRoundTrip(d: Document, stamp: string, num: Format, scan: Scan)
    requires PlainDocument(d) && DocumentReadsBack(num, scan, d) && '\n' !in stamp
    ensures ReadDocument(Generate(d, stamp, num), scan) == Some((d, stamp))
  {
    var j1 := Join(Map(d.nodes, NodeWriter(num)), "\n");
    var j2 := Join(Map(d.connections, ConnectionBlock), "\n");
    var j3 := Join(Map(d.groups, GroupWriter(num)), "\n");
    var g3 := GroupsHead + (j3 + "\n");
    var g2 := ConnectionsHead + (j2 + g3);
    var g1 := NodesHead + (j1 + g2);
    ExpectOf(Header, stamp + g1);
    NoBreak(stamp);
    UntilOf(stamp, g1, {'\n'});
    ExpectOf(NodesHead, j1 + g2);
    NodesRoundTrip(d.nodes, num, scan, j2 + g3);
    ExpectOf(ConnectionsHead, j2 + g3);
    ConnectionsRoundTrip(d.connections, j3 + "\n");
    ExpectOf(GroupsHead, j3 + "\n");
    GroupsRoundTrip(d.groups, num, scan);
  }
}

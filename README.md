# ThinkingSpace diagram core in Dafny

ThinkingSpace is a browser-based 3D diagram editor. A diagram document holds three ordered lists: nodes (boxes), connections (curved lines between nodes) and groups (wireframe bounding boxes). This project models the rules the editor applies to that document:

- **Block text** (`block_text.dfy`, `text_apply.dfy`). The generated text view of the document, and applying edited text back to it. The text is built from template strings with no escaping. A reader for exactly that layout shows that the text loses nothing when no string holds a double quote, a backslash or a line break, and every coordinate reads back from its printed form. Applying text empties the three shared lists in place and refills them.
- **Scene projection** (`scene.js` → `scene.dfy`). Which entities become scene-graph primitives, in what order, and at which derived coordinates:
  - groups are drawn first, then nodes, then connections;
  - a connection is drawn only when both ends name a node;
  - a connection's arc is raised by 0.3·|Δx|;
  - a group's box is centred in its bounds;
  - labels sit above their anchors.
- **Selection and delete** (`editor.js` → `editor.dfy`). One selected object changes on click, Escape and Delete/Backspace. A walk up the parent links finds the tagged object a click meant. Delete splices the entity out of the document by id.
- **Panel** (`gui.js` → `gui.dfy`). The three "add" buttons, the position and size sliders of the node inspector, and the map of registered controls that is cleared and refilled on each selection.

The document (`diagram.dfy`) has these parts:

- `Node`, `Connection` and `Group` are values.
- A node's record is a class (`NodeRecord`), because the sliders update it in place and the mesh drawn for it holds the same record.
- The shared data object (`Diagram`) has the three lists as fields. They are reassigned in place, so every holder of the object sees each change.
- Scene objects (`Object3D`) have a parent link, a child list, a name, a creation rank and an optional tag.
- Coordinates are `real`.
- Timestamps, the user's answer to a confirmation and the objects a click ray hit are parameters.
- What the text parser returned is given as a value (`LoadResult`).

Where the code and the design differ, the model follows the code:

- Deleting a node does not remove the connections that name it. See `Editing.DeleteLeavesDanglingConnection`.
- An edited text that lacks a section empties that section instead of being rejected.
- An edited text whose section cannot be spread is applied partly.
- `gui.js` never imports `THREE`. The "Add New Node" and "Add Group" buttons and the size sliders therefore stop with a `ReferenceError` after they have changed the data; "Add Connection" uses no `THREE` and completes.

## Model

| member | source | states |
|---|---|---|
| DiagramData.IndexOf | src/editor.js:96 | `findIndex`: the first index holding the value, or -1 exactly when it is absent |
| DiagramData.RemoveAt | src/editor.js:97 | `splice(index, 1)`: one element fewer; the elements before the index are kept and the ones after it move down by one; the multiset loses exactly that element |
| DiagramData.RemoveFirstSpec | src/editor.js:91 | `remove` takes out the first occurrence only, leaving a missing element's list unchanged |
| DiagramData.RemoveFirstNodeSpec | src/editor.js:95-97 | deleting by id removes exactly the first node with that id; an unknown id changes nothing |
| SceneGraph.ArcRaise | src/scene.js:174-175 | the arc's control point is the chord midpoint with y raised by exactly 0.3·|end.x − start.x|; it is never lowered, and it is raised only when the x coordinates differ |
| SceneGraph.ArcIgnoresDepth | src/scene.js:175 | moving the ends along z does not change the arc height |
| SceneGraph.ArcSymmetric | src/scene.js:174-175 | the arc does not depend on the connection's direction |
| SceneGraph.BoxSpansBounds | src/scene.js:95-113 | a group box centred at min + extent/2 with extent max − min spans exactly [min, max] on every axis |
| SceneGraph.LastIndexOfId | src/scene.js:162 | the last index holding the id, or -1 exactly when the id is absent |
| SceneGraph.IndexByIdFinds | src/scene.js:162 | the id map built from the node list has exactly the node ids as keys; a repeated id maps to the last node carrying it |
| SceneGraph.LinesAreResolvedConnections | src/scene.js:164-188 | the tagged lines are exactly the connections whose two ends resolve, in connection order, each tagged with its connection |
| SceneGraph.LineEndpoints | src/scene.js:165-188 | a drawn line runs from the last node with id `from` to the last node with id `to`, through the raised arc point, in the connection's colour |
| SceneGraph.ConnectionLabel | src/scene.js:190-193 | the label exists exactly when the line is drawn and the caption is non-empty; it sits 0.3 above the arc point at scale 0.6·0.8 in the connection's colour |
| SceneGraph.ObjectByName | src/editor.js:59 | `getObjectByName` finds the object itself or the first child with the name; nothing is found only when neither has it |
| SceneGraph.Scene.Init | src/scene.js:54-60 | the root gets the node, connection and group containers, in that order, all empty |
| SceneGraph.Scene.Build | src/scene.js:62-69 | each container shows its entities' primitives in entity order; every group primitive is older than every node primitive, which is older than every connection primitive |
| SceneGraph.Scene.RenderRest | src/scene.js:65-69 | the nodes are drawn, then the connections, with the connection ends resolved against the node list |
| SceneGraph.Scene.Add | src/scene.js:153-154 | `parent.add`: a fresh object becomes the parent's last child, with the next creation rank |
| SceneGraph.Scene.AddNode | src/scene.js:124-157 | a node becomes a mesh at its position with its size, tagged with its record, whose only child is the "node-edges" wireframe; then a white label one unit above at scale 1 |
| SceneGraph.Scene.AddGroup | src/scene.js:94-119 | a group becomes a box at its bounds' centre with their extent, tagged with the group; then a label one unit above at scale 0.8 |
| SceneGraph.Scene.AddConnection | src/scene.js:164-193 | a connection adds the primitives the resolution rule gives it, and nothing when an end does not resolve |
| SceneGraph.Scene.Remove | src/editor.js:91 | `remove`: a child is taken out of the child list and loses its parent; a non-child changes nothing |
| SceneGraph.Scene.RenderGroups | src/scene.js:93-121 | every group's primitives are appended in order, with increasing creation ranks |
| SceneGraph.Scene.RenderNodes | src/scene.js:123-159 | every node's primitives are appended in order, with increasing creation ranks |
| SceneGraph.Scene.RenderConnections | src/scene.js:161-195 | every connection's primitives are appended in order, the ends resolved through the id map built once |
| SceneGraph.InitScene | src/scene.js:53-69 | the built scene shows groups, then nodes, then connections, as the projection functions give them |
| Editing.Ancestors | src/editor.js:21-24 | the chain of parent links from the hit object up to an object without a parent |
| Editing.TargetSpec | src/editor.js:21-28 | the walk stops at the nearest tagged object; a tagged hit is its own target; an untagged target has no tagged ancestor and no parent |
| Editing.StrippedSpec | src/editor.js:59-62 | removing the outline found by name takes out the first child named "selection-outline", and nothing when there is none |
| Editing.Editor.constructor | src/editor.js:7 | the editor starts with nothing selected and no events |
| Editing.Editor.Deselect | src/editor.js:56-68 | with nothing selected, nothing changes and no event is sent; otherwise the outline leaves the selection's children, the selection becomes null and one deselection event is sent |
| Editing.Editor.StripOutline | src/editor.js:59-62 | the children lose the first child named "selection-outline", and that child loses its parent link; nothing changes when there is none |
| Editing.Editor.Select | src/editor.js:34-54 | the previous selection is deselected first; `o` becomes the selection; exactly a node mesh gets a fresh green outline of its own geometry as its new last child; a selection event is sent |
| Editing.Editor.FindTarget | src/editor.js:21-24 | the `while` loop returns exactly the walk's target |
| Editing.Editor.Click | src/editor.js:15-31 | no hit deselects, taking the outline off the old selection; a tagged target becomes the selection after one Deselected event (when something was selected) and one Selected event, the old selection loses its outline, and a node target gets a fresh green outline of its own geometry as its last child while any other target keeps its children; an untagged target changes neither the selection, the events, the selection's children, the outline's parent link nor the target's children |
| Editing.Editor.DeleteObject | src/editor.js:88-106 | returns the prompt text; a declined delete changes neither the data, the selection, the events, the object's parent link, its parent's children nor the selection's children and their parent links; a confirmed delete takes the object out of its parent's children (the first occurrence), splices the first node or group with its id out of the document, leaves the connections as they are, strips the outline from the old selection, clears the selection and sends one deselection event when something was selected |
| Editing.Editor.Remove | src/editor.js:90-103 | the confirmed delete: the object leaves its parent's children and loses its parent link, the first node or group with its id is spliced out of the document, connections stay, the outline leaves the old selection, the selection is cleared and one deselection event is sent when something was selected |
| Editing.Editor.Detach | src/editor.js:91-101 | the parent's children lose the object's first occurrence and the object loses its parent link; the data change is that of `Forget` |
| Editing.Editor.Forget | src/editor.js:94-101 | a node tag removes the first node with its id; a group tag removes the first group with its id; a connection tag changes no data |
| Editing.Editor.KeyDown | src/editor.js:74-86 | Delete and Backspace prompt exactly when something is selected; a confirmed delete of the selection removes it from its parent's children, strips its outline, sends one deselection event and splices the first node or group with its id out of the document, connections untouched; Escape deselects with the outline removal and at most one event; any other key, or a declined delete, changes neither the selection, the events, the data, nor the children and parent links around the selection |
| Editing.DeleteLeavesDanglingConnection | src/editor.js:95-97 | deleting the only node named by a connection's `from` leaves a connection that no longer resolves |
| Panel.Decimal | src/gui.js:209 | the timestamp prints as decimal digits, with two or more digits exactly from 10 upwards and the last digit n mod 10 |
| Panel.DecimalInjective | src/gui.js:209 | different timestamps print differently |
| Panel.NewIdInjective | src/gui.js:209 | two ids with the same prefix are equal exactly when their timestamps are |
| Panel.NewIdsOfKindsDiffer | src/gui.js:266 | node, connection and group ids never coincide |
| Panel.NewNode | src/gui.js:209-217 | the new node's id is "node-" plus the timestamp; its defaults are "New Node", [0,0,0], [2,1,1], "#3498db" and "default" |
| Panel.NewGroup | src/gui.js:284-294 | the new group's id is "group-" plus the timestamp; it is "New Group" in "#f39c12", a wireframe, with bounds −2 to 2 on every axis |
| Panel.NewGroupBox | src/gui.js:300-318 | the new group's bounds are ordered; its box is centred at the origin with side 4 |
| Panel.AddNewNode | src/gui.js:208-257 | (corrected) exactly one new record is appended to the nodes, and the mesh, wireframe and label are drawn as the initial build draws a node |
| Panel.AddNewNodeAsWritten | src/gui.js:220-223 | the record is appended, then the handler stops with a `ReferenceError` on `THREE` before any primitive exists |
| Panel.AddNewConnection | src/gui.js:260-280 | refused exactly when there are fewer than two nodes, and then nothing changes; otherwise one connection from node 0 to node 1 is appended with the defaults |
| Panel.NewConnectionResolves | src/gui.js:269-270 | the added connection names two existing node ids, so it resolves at the next build |
| Panel.AddNewGroup | src/gui.js:283-327 | (corrected) the new group is appended, and its box and label are drawn as the initial build draws a group |
| Panel.AddNewGroupAsWritten | src/gui.js:297-305 | the group is appended, then the handler stops with a `ReferenceError` on `THREE` |
| Panel.SetPosition | src/gui.js:123-136 | for any value, the chosen coordinate of both the record's and the mesh's position becomes that value, every other coordinate and the rest of the mesh stay as they were, and a record and mesh that agreed still agree |
| Panel.SetSize | src/gui.js:191-205 | (corrected) the chosen side is written into the record; the mesh box and the wireframe found by name are rebuilt from the whole size; sizes within the slider range stay within it |
| Panel.SetSizeAsWritten | src/gui.js:144-147 | only the record changes; the geometry rebuild it calls stops with a `ReferenceError` on `THREE`, so a mesh that showed the record's box no longer does once the side changes |
| Panel.Inspector.constructor | src/gui.js:67-68 | the folder and the control map start empty |
| Panel.Inspector.Clear | src/gui.js:163-168 | every control the map names leaves the folder and the map becomes empty; other folder entries stay |
| Panel.Inspector.Register | src/gui.js:109 | one `folder.add`: a control new to the folder is stored under its key |
| Panel.Inspector.Show | src/gui.js:103-161 | the panel is cleared; exactly a node gets its eight keyed controls; groups and connections get none; the folder holds only new controls in place of the old |
| Panel.Inspector.RegisterNodeControls | src/gui.js:108-157 | the eight node controls, label to sizeDepth, are registered into the empty map |
| Panel.Inspector.Handle | src/gui.js:71-77 | a selection event shows its controls; a deselection event clears them |
| BlockText.QuotedRoundTrip | src/yamlEditor.js:163 | a quoted field without a double quote reads back exactly |
| BlockText.QuoteBreaksRead | src/yamlEditor.js:163 | a string with a double quote does not read back, because nothing is escaped |
| BlockText.NumbersText | src/yamlEditor.js:165 | a coordinate triple prints as `[` + x + `, ` + y + `, ` + z + `]` |
| BlockText.NumbersRoundTrip | src/yamlEditor.js:165 | a printed triple reads back when each of its three coordinates reads back from its printed form, which holds no comma or closing bracket |
| BlockText.NodeRoundTrip | src/yamlEditor.js:163-168 | a node block, with its fields id, label, position, size, color and group in order, reads back to the node when its strings are plain and its coordinates read back |
| BlockText.ConnectionRoundTrip | src/yamlEditor.js:172-176 | a connection block, with its fields id, from, to, label and color in order, reads back to the connection when its strings are plain |
| BlockText.GroupRoundTrip | src/yamlEditor.js:180-186 | a group block, with its fields id, label, bounds.min, bounds.max, color and unquoted wireframe, reads back to the group when its strings are plain and its bounds read back |
| BlockText.ItemsRoundTrip | src/yamlEditor.js:163-168 | blocks joined by line breaks read back in data order |
| BlockText.NodesRoundTrip | src/yamlEditor.js:161-168 | the nodes section reads back up to the connections heading |
| BlockText.ConnectionsRoundTrip | src/yamlEditor.js:170-176 | the connections section reads back up to the groups heading |
| BlockText.GroupsRoundTrip | src/yamlEditor.js:178-187 | the groups section reads back up to the final line break |
| BlockText.DocumentRoundTrip | src/yamlEditor.js:157-190 | reading back the text generated from a document and a timestamp gives exactly that document and timestamp whenever the document's strings are plain, the timestamp has no line break and each coordinate the document holds reads back from its printed form |
| TextApply.ParseContent | src/yamlEditor.js:192-205 | a parser failure propagates; null or a non-object is rejected as "Invalid YAML structure"; a top-level list gives three empty lists; otherwise every missing or falsy section becomes `[]` and every other section is kept |
| TextApply.PresenceCheckNeverFires | src/yamlEditor.js:53-55 | after the defaults, the presence check rejects nothing |
| TextApply.ParseFailureKeepsDocument | src/yamlEditor.js:47-50 | when parsing fails, the document is unchanged and the error is reported |
| TextApply.WellFormedTextReplaces | src/yamlEditor.js:57-64 | text with three lists replaces each data list by exactly its parsed list |
| TextApply.ApplyOutcomes | src/yamlEditor.js:47-77 | an apply leaves the document untouched with an error, or succeeds on an object, or is stopped by a spread with the groups emptied |
| TextApply.MissingSectionEmptiesData | src/yamlEditor.js:53-64 | text without `nodes:` empties the nodes and reports success |
| TextApply.TopLevelListEmptiesData | src/yamlEditor.js:196-204 | a top-level list passes the object check and empties the whole document |
| TextApply.NotIterableAppliesPartly | src/yamlEditor.js:58-64 | a mapping under `connections:` fails the apply after the nodes were replaced and the other lists emptied |
| TextApply.Checked | src/yamlEditor.js:52-55 | (corrected) accepts exactly a mapping whose three keys are all present, each holding a list or an empty value; yields those lists, an empty value as `[]`; a missing key is rejected with the presence message |
| TextApply.CheckedIsAtomic | src/yamlEditor.js:53-64 | (corrected) the apply either succeeds with the checked document or leaves the document as it was |
| TextApply.CheckedAgreesOnLists | src/yamlEditor.js:57-64 | on text the corrected apply accepts, the corrected apply and the original agree |
| TextApply.CheckedAcceptsGenerated | src/yamlEditor.js:157-190 | (corrected) for every document, the corrected apply accepts the three sections its generated text yields (a non-empty list as that list, an empty list as an empty value) and restores exactly that document |
| TextApply.MakeRecords | src/yamlEditor.js:62 | spread nodes become fresh records holding exactly the parsed nodes, in order |
| TextApply.TextPanel.constructor | src/yamlEditor.js:7-10 | the panel holds the shared data object and the callback flag; its status is "ready" |
| TextApply.TextPanel.ApplyChanges | src/yamlEditor.js:47-77 | the shared lists are emptied and refilled in place exactly as `ApplyResult` says; the callback runs once only on success |
| TextApply.TextPanel.ApplyChecked | src/yamlEditor.js:47-77 | (corrected) the shared lists change only on success, as `CheckedResult` says; the callback runs once only on success |

## Left out

- Three.js rendering is not modelled: the camera, lights, fog, grid helper, orbit controls, the animation loop and resize handling. The root's children are only the three containers.
- Canvas text drawing, textures and geometry disposal are not modelled. A label is its text, scale and fill colour.
- A curve is its three control points; the 20 sampled points are not computed.
- Raycasting and the mouse-to-screen conversion are not modelled. A click takes the hit objects as a parameter, nearest first.
- The text parser (js-yaml) is not modelled; its outcome is a parameter. Items inside a section are taken to be well-formed entities; the code does not validate them either.
- A string section value is not modelled. Spreading a string would push its characters.
- Status texts, `console` logging, `alert` and the status reset timer are not modelled. The status is a datatype, and the engine's `TypeError` text for a failed spread is not given.
- The reset-to-defaults flow, the fetches, the editor toggle and live syntax validation of the text panel are not modelled.
- The label and colour controls of the inspector are registered, but their callbacks are not modelled: `updateNodeLabel` matches sprites by float equality, and the colour callback calls the material API.
- The statistics panel, the scene settings folder and the transform-mode and grid-snapping settings are not modelled.
- The update callback passed to the text panel is counted, not run. What it re-renders is not part of this model.
- `label` is a Dafny keyword, so the entities' label field is called `caption`.
- SceneGraph.ObjectByName: looks at the object and its direct children only. The library also searches deeper, but the outline and the wireframe are always direct children.
- SceneGraph.Scene.Build: split into the group pass and `RenderRest`, which changes only how the proof is laid out.
- BlockText.DocumentRoundTrip: a reader for the generated layout, not a YAML parser. It requires every string to be free of double quotes, backslashes and line breaks. Number printing and reading are parameters (`num`, `scan`). The lemma requires each coordinate the document holds to read back from its printed form, and that form to hold no comma or closing bracket. The model does not establish this for JavaScript's `String` on doubles.
- BlockText.Generate: positions, sizes and bounds are exactly three coordinates, and `wireframe` is a boolean.
- TextApply.CheckedAcceptsGenerated: how a text reader returns each generated section is given by `SectionRead`: a list, or an empty value for an empty list. It is not derived from a parser.
- Editing.Editor.DeleteObject: in `deleteObject`, removing an object without a parent throws after the prompt; the model changes nothing in that case.
- Panel.SetSize: requires a value inside the slider range instead of modelling dat.gui's clamping.
- Panel.Inspector.Show: does not record the order in which the folder lists its controls.

## Findings

| source | as written | input that shows it | evidently intended | confidence | as-written member | corrected member |
|---|---|---|---|---|---|---|
| src/yamlEditor.js:53 | the presence check runs after `parseYamlContent` has replaced every missing section by `[]`, so it never rejects | text holding only `connections: []` and `groups: []` | reject text that lacks a section and keep the document | not executed | TextApply.MissingSectionEmptiesData | TextApply.CheckedIsAtomic |
| src/yamlEditor.js:58-64 | all three lists are emptied before the spreads, and a spread can throw | text whose `connections:` holds a mapping | check every section before changing anything | not executed | TextApply.NotIterableAppliesPartly | TextApply.TextPanel.ApplyChecked |
| src/gui.js:223 | `THREE` is used but never imported in gui.js | pressing "Add New Node" | the new node is drawn | not executed | Panel.AddNewNodeAsWritten | Panel.AddNewNode |
| src/gui.js:305 | `THREE` is used but never imported in gui.js | pressing "Add Group" | the new group is drawn | not executed | Panel.AddNewGroupAsWritten | Panel.AddNewGroup |
| src/gui.js:196 | `THREE` is used but never imported in gui.js | moving the width slider of a selected node | the mesh is rebuilt with the new size | not executed | Panel.SetSizeAsWritten | Panel.SetSize |

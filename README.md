# xNode editor bookkeeping, modelled in Dafny

xNode is a node-graph editor for Unity. Its editor scripts mostly issue
immediate-mode draw calls. Beneath the drawing sit a few pieces of discrete
state, and this project models and verifies them:

- **`NodeEditorGUILayout`** (`gui_layout.dfy`). Several choices and callbacks are modelled:
  - For a field that is a node port, the choice between a label, an editable value and a dynamic port list.
  - The naming of dynamic ports (`field 0`, `field 1`, …) and how such names are recognised again.
  - The per-node cache of reorderable lists.
  - The list's callbacks: draw a row, row height, add, remove and reorder.
  - The sync that brings the number of dynamic ports and the size of the backing array into agreement when a list is created.
- **`NodeEditorBase<T, A, K>`** (`editor_base.dfy`). Three pieces are modelled:
  - The registry from inspected type to custom editor type. It is found by reflection and built on first use.
  - The lookup that walks up the base-type chain.
  - The cache that holds one editor per inspected object and keeps each editor's `window` current.

Supporting modules:

- `host.dfy` models the host objects the editor code changes. A .NET type is modelled together with its base-type chain. An xNode node is modelled as two parallel serialised lists, port names and ports. A serialised array property is modelled by its size only. Unity's `MoveArrayElement` is modelled as a function on sequences.
- `text.dfy` models the .NET string behaviour the naming depends on: `Int32.ToString` of a non-negative number and `String.Split(char)`.
- `wrappers.dfy` holds Option and Result.

`Node.cs` is not part of this model. `AddDynamicInput`/`AddDynamicOutput`, `RemoveDynamicPort`, `HasPort` and `DynamicInputs`/`DynamicOutputs` are modelled after upstream xNode:

- A port is appended at the end of the node's ports.
- A name that is already taken leaves the node unchanged.
- Removing a port keeps the other ports in order.

Reflection results are inputs:

- what `GetDerivedTypes` returns;
- each class's attributes;
- an object's runtime type;
- `FindProperty`.

Some properties are proved:

- A new dynamic port gets the first free name, and that name never collides with an existing one. The name search always terminates, because the first `n` names of a field are `n` different strings.
- For a field name without spaces, a generated name is recognised as a member of its list exactly when that list is cached for the node. A field name that contains a space splits into three or more pieces, so its generated names are never recognised.
- After a list is created over array data, the dynamic ports and the array elements both number the larger of the two initial counts.
- Reordering moves the same entry in the port-name and port arrays, so the node stays well formed.
- The editor registry's entries all come from eligible classes, and without a duplicate every eligible class is registered. Building it fails exactly when two eligible classes inspect the same type.
- A lookup returns the entry of the nearest registered type in the base-type chain, or nothing when no type in the chain is registered.
- `GetEditor` returns the cached editor for a known target. For a new target it creates and caches a single editor. It leaves every other editor unchanged.

Where the model differs from what a reader might expect, it follows the code:

- The array sync in `CreateReorderableList` gives new output ports the list's type constraint (Scripts/Editor/NodeEditorGUILayout.cs:496). The add callback gives new output ports `TypeConstraint.None` (Scripts/Editor/NodeEditorGUILayout.cs:466).
- `DynamicPortList` hands the list the dynamic ports as they were before the sync (lines 349 and 366). Ports that the sync adds appear in the list only from the next call.
- The reorder offset is 0 for an input list, so row 0 is moved as the node's first port. For an output list the offset is the number of leading input ports plus one, so row 0 is moved as the port just after the first non-input port. The rows line up with their ports only when an input list starts the node's ports, or when exactly one output port sits between the leading inputs and an output list. For example, with ports `[in, dynOut0, dynOut1]`, moving row 0 of the output list moves `dynOut1`.
- When `Dictionary.Add` throws on a duplicate inspected type, the registry keeps the entries added so far. Because the registry is then no longer null, it is never rebuilt.

## Model

| member | source | states |
|---|---|---|
| `Text.NatToString` | Scripts/Editor/NodeEditorGUILayout.cs:462-464 | the number suffix of a port name is a non-empty string of decimal digits, at least two of them from 10 on |
| `Text.NatToStringInjective` | Scripts/Editor/NodeEditorGUILayout.cs:462-464 | different indices give different suffixes |
| `Text.Split` | Scripts/Editor/NodeEditorGUILayout.cs:324 | splitting on a character gives one more piece than the character's occurrences, and no piece contains it |
| `Text.SplitJoin` | Scripts/Editor/NodeEditorGUILayout.cs:324 | joining the pieces with the separator gives back the string |
| `Text.SplitAroundOne` | Scripts/Editor/NodeEditorGUILayout.cs:324-325 | a name with exactly one space splits into the parts before and after it |
| `Host.DynamicPorts` | Scripts/Editor/NodeEditorGUILayout.cs:347-349 | the list's ports are exactly the node's dynamic ports of the list's direction |
| `Host.DynamicPortPositions` | Scripts/Editor/NodeEditorGUILayout.cs:347-349 | the list's rows are the node's ports at strictly increasing positions, so row order is the node's port order |
| `Host.DynamicPortPositionsComplete` | Scripts/Editor/NodeEditorGUILayout.cs:347-349 | every position of a dynamic port of the direction is one of the rows' positions |
| `Host.Node.AddDynamicPort` | Scripts/Editor/NodeEditorGUILayout.cs:466-467 | a fresh name appends one dynamic, unconnected port with the given settings, and a taken name changes nothing |
| `Host.Node.RemoveDynamicPort` | Scripts/Editor/NodeEditorGUILayout.cs:484 | the port's name leaves the node, and the remaining ports keep their order |
| `Host.MoveArrayElement` | Scripts/Editor/NodeEditorGUILayout.cs:444-445 | a move keeps the length and takes each position's element from a computed position of the old array, and an index out of range changes nothing |
| `Host.MoveKeepsDistinct` | Scripts/Editor/NodeEditorGUILayout.cs:444-445 | a move keeps port names free of duplicates |
| `Host.MoveKeepsParallel` | Scripts/Editor/NodeEditorGUILayout.cs:444-445 | moving the same positions in the name and port arrays keeps each name next to its port |
| `NodeEditorGUILayout.PortFieldView` | Scripts/Editor/NodeEditorGUILayout.cs:63-114 | the view decision: a dynamic list draws the port list, `Never` a label, `Always` an editable field, and `Unconnected` (also the default when there is no attribute) a label when connected and an editable field otherwise; the port list is requested without a type constraint, so its ports get `None` |
| `NodeEditorGUILayout.UsePropertyAttributes` | Scripts/Editor/NodeEditorGUILayout.cs:73-75 | decorators are drawn in place exactly when the backing value is not shown as an editable field |
| `NodeEditorGUILayout.PortName` | Scripts/Editor/NodeEditorGUILayout.cs:462-464 | a port name is the field name, one space, then the index; for a field name without spaces the name has exactly one space |
| `NodeEditorGUILayout.PortNameInjective` | Scripts/Editor/NodeEditorGUILayout.cs:462-464 | `field i` and `field j` are the same name only when i = j |
| `NodeEditorGUILayout.PortNamesCount` | Scripts/Editor/NodeEditorGUILayout.cs:462-464 | the first n names of a field are n different names |
| `NodeEditorGUILayout.PortNamesBound` | Scripts/Editor/NodeEditorGUILayout.cs:493-495 | if a node has the first n names of a field, it has at least n ports, so the name search ends |
| `NodeEditorGUILayout.NewPortName` | Scripts/Editor/NodeEditorGUILayout.cs:462-464 | the result is `field i` for the least i whose name the node does not have, and it is not a name of the node |
| `NodeEditorGUILayout.GeneratedNameIsListPort` | Scripts/Editor/NodeEditorGUILayout.cs:323-332 | a port named `field i` (field without spaces) is recognised as a dynamic-list port exactly when a list for that field is cached for its node |
| `NodeEditorGUILayout.ReorderBaseUnique` | Scripts/Editor/NodeEditorGUILayout.cs:423-440 | the reorder offset is determined by the ports and the direction |
| `NodeEditorGUILayout.ReorderBaseIndex` | Scripts/Editor/NodeEditorGUILayout.cs:423-440 | the offset is 0 for an input list, and for an output list one past the leading run of input ports |
| `NodeEditorGUILayout.PortList.DrawElement` | Scripts/Editor/NodeEditorGUILayout.cs:380-391 | with array data, a row at or past the array size gets the out-of-range label and no handle, and the array is read only inside its size; without array data, the row is a label with the port's name |
| `NodeEditorGUILayout.PortList.RowHeightOf` | Scripts/Editor/NodeEditorGUILayout.cs:398-405 | a row's height reads the array element exactly when the row is inside the array size; otherwise it is one line |
| `NodeEditorGUILayout.PortList.OnAdd` | Scripts/Editor/NodeEditorGUILayout.cs:459-476 | one port is appended under the first free name, unconstrained for outputs and with the list's constraint for inputs, and the array grows by one element when there is array data |
| `NodeEditorGUILayout.PortList.OnRemove` | Scripts/Editor/NodeEditorGUILayout.cs:477-487 | the selected row's port leaves the node, the other ports stay in their order, and the array is untouched; a row outside the list fails |
| `NodeEditorGUILayout.PortList.OnReorder` | Scripts/Editor/NodeEditorGUILayout.cs:417-445 | names and ports are moved with the same shifted indices, and the node stays well formed (parallel, duplicate-free) |
| `NodeEditorGUILayout.CreateReorderableList` | Scripts/Editor/NodeEditorGUILayout.cs:489-506 | with array data, ports are appended and then the array grown until both equal the larger initial count; existing ports are untouched and new ones get fresh names |
| `NodeEditorGUILayout.ListCache.IsDynamicPortListPort` | Scripts/Editor/NodeEditorGUILayout.cs:323-332 | true only for a name with exactly one space whose node has cached lists |
| `NodeEditorGUILayout.NameWithOneSpaceIsListPort` | Scripts/Editor/NodeEditorGUILayout.cs:323-332 | any name `a b` with space-free parts is recognised exactly when `a` names a list cached for the port's node, including names the list did not generate |
| `NodeEditorGUILayout.ListCache.DynamicPortList` | Scripts/Editor/NodeEditorGUILayout.cs:341-368 | a cached list is reused and a missing one created; afterwards the cache holds it, nothing else in the cache changes, and the list shows the dynamic ports as they were on entry; the node's existing ports stay in front, and without array data the node is unchanged |
| `NodeEditorBase.Register` | Scripts/Editor/NodeEditorBase.cs:50-55 | the registry the loop builds, stopping at the first duplicate inspected type, which is always a type an earlier class already registered |
| `NodeEditorBase.RegisterSound` | Scripts/Editor/NodeEditorBase.cs:50-55 | every registry entry comes from a non-abstract class with the attribute, keyed by its first attribute's inspected type |
| `NodeEditorBase.RegisterComplete` | Scripts/Editor/NodeEditorBase.cs:50-55 | without a duplicate, every such class is registered |
| `NodeEditorBase.RegisterFailsOnDuplicate` | Scripts/Editor/NodeEditorBase.cs:55 | building fails exactly when two eligible classes inspect the same type |
| `NodeEditorBase.RegisterStopsAtDuplicate` | Scripts/Editor/NodeEditorBase.cs:55 | after the throwing `Add`, the classes after it add nothing |
| `NodeEditorBase.Ancestry` | Scripts/Editor/NodeEditorBase.cs:42 | the chain starts at the type, steps to each base type, and ends at a type without a base |
| `NodeEditorBase.ResolveEditorType` | Scripts/Editor/NodeEditorBase.cs:36-43 | a lookup result is always a registered editor type |
| `NodeEditorBase.ResolveFindsNearest` | Scripts/Editor/NodeEditorBase.cs:39-42 | the lookup returns the entry of the nearest registered type in the chain |
| `NodeEditorBase.ResolveUnregistered` | Scripts/Editor/NodeEditorBase.cs:37-42 | with no type of the chain registered, the lookup returns null |
| `NodeEditorBase.EditorCache.CacheCustomEditors` | Scripts/Editor/NodeEditorBase.cs:45-57 | the registry becomes the fold over the derived classes, failing on a duplicate with the partial registry in place |
| `NodeEditorBase.EditorCache.GetEditorType` | Scripts/Editor/NodeEditorBase.cs:36-43 | null for a null type without building; otherwise the registry is built only if still null, and the nearest registered ancestor's editor is returned |
| `NodeEditorBase.EditorCache.GetEditor` | Scripts/Editor/NodeEditorBase.cs:21-34 | null for a null target; the cached editor for a known target; otherwise one new editor, cached under the target; the returned editor's window is the argument, and no other editor changes; the registry is built from the derived classes only if still null, and the new editor's type is its lookup there |

## Left out

- Drawing is not modelled. This covers label texts, port handles, colours, header decorators, the space padding and all `Rect` and `Vector2` arithmetic. It is immediate-mode rendering over floating-point layout values.
- `PortField`, `AddPortField`, `PortPair` and `DrawPortHandle` only draw, including the connection-index label, so they are not modelled.
- The `[Label]` attribute's renaming of the label is not modelled. It only changes drawn text.
- `PropertyField` for a property that is not a port only draws an ordinary field, so it is not modelled.
- Reflection is taken as given inputs: `GetDerivedTypes`, `GetCustomAttributes`, `GetFieldInfo`, `GetType(property)` and `FindProperty`.
- Unity serialisation and the editor lifecycle are host side effects and are not modelled: `ApplyModifiedProperties`, `Update`, `SetDirty`, `Repaint`, `delayCall`, `Editor.Initialize` (Scripts/Editor/NodeEditorBase.cs:31), and `RefreshValueType` after a reorder.
- `ReorderableList` internals are opaque host code. This covers the header callback, the selection callback and its static `reorderableListIndex`, and `DoLayoutList`. It also covers the widget moving the dragged row inside its own `list` before calling the reorder callback: `PortList.OnReorder` leaves `list` as it is, and the next `DynamicPortList` call replaces it with the node's ports in their new order.
- The user callbacks `onCreation` and `onAdd` are opaque user code and are not modelled.
- The obsolete wrappers `IsInstancePortListPort` and `InstancePortList` only delegate, so they are not modelled.
- Null ports inside a reorderable list are not modelled, because the lists only ever hold the node's dynamic ports. This also drops the draw callback's empty-label case for a null port.
- Port connections are reduced to an `isConnected` flag. `ClearConnections` on removal is not modelled.
- Port order in the node follows upstream xNode's serialised dictionary, with new ports appended at the end. Slot reuse in .NET's `Dictionary` after a removal is not modelled.
- `NodeEditorGUILayout.NewPortName`: its loop counter is an unbounded natural number. C#'s 32-bit `int` could only overflow after two billion ports.
- The sync in `CreateReorderableList` names ports after the array property's own name (`arrayData.name`). The model keeps that name as the property's. It does not assume the name equals the field name that `FindProperty` was given.

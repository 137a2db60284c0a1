/**
 * The bookkeeping beneath xNode's `NodeEditorGUILayout`: how a serialised
 * field of a node is shown (label, editable value or dynamic port list), how
 * the ports of a dynamic port list are named, recognised, added, removed and
 * reordered, and the per-node cache of reorderable lists.
 */
module NodeEditorGUILayout {
  import opened Wrappers
  import opened Text
  import opened Host

  // ---------------------------------------------------------------------------
  // Showing the backing value of a port field

  /** `Node.ShowBackingValue` */
  datatype ShowBackingValue = Never | Unconnected | Always

  /** What the `[Input]` or `[Output]` attribute of a port's field says. */
  datatype PortAttribute = PortAttribute(backingValue: ShowBackingValue, connectionType: ConnectionType, dynamicPortList: bool)

  /** What `PropertyField` draws for a field that is a port. */
  datatype FieldView =
    | ValueLabel                                    // the field's name as a label
    | ValueField                                    // an editable field for the backing value
    | PortListView(connectionType: ConnectionType, typeConstraint: TypeConstraint)  // a dynamic port list for the whole field

  /** The backing-value mode; a field without the attribute behaves as `Unconnected`. */
  function ShowBacking(attribute: Option<PortAttribute>): ShowBackingValue {
    if attribute.Some? then attribute.value.backingValue else Unconnected
  }

  predicate IsDynamicPortListField(attribute: Option<PortAttribute>) {
    attribute.Some? && attribute.value.dynamicPortList
  }

  /** The view chosen for a port field, for an input and an output port alike. */
  function PortFieldView(attribute: Option<PortAttribute>, isConnected: bool): (v: FieldView)
    ensures IsDynamicPortListField(attribute) ==> v == PortListView(attribute.value.connectionType, NoConstraint)
    ensures !IsDynamicPortListField(attribute) ==>
      (v == ValueLabel <==> ShowBacking(attribute) == Never || (ShowBacking(attribute) == Unconnected && isConnected))
    ensures !IsDynamicPortListField(attribute) ==>
      (v == ValueField <==> ShowBacking(attribute) == Always || (ShowBacking(attribute) == Unconnected && !isConnected))
    ensures attribute.None? ==> v == (if isConnected then ValueLabel else ValueField)
  {
    if IsDynamicPortListField(attribute) then
      // the list is requested without a type constraint, so the default `None` applies
      PortListView(attribute.value.connectionType, NoConstraint)
    else
      match ShowBacking(attribute)
      case Unconnected => if isConnected then ValueLabel else ValueField
      case Never => ValueLabel
      case Always => ValueField
  }

  /**
   * Whether `[Space]` and `[Header]` decorators are drawn in place (rather
   * than only widening the handle offset): exactly when the backing value is
   * not shown as an editable field.
   */
  function UsePropertyAttributes(attribute: Option<PortAttribute>, isConnected: bool): (use: bool)
    ensures use <==> PortFieldView(attribute, isConnected) != ValueField
  {
    || IsDynamicPortListField(attribute)
    || ShowBacking(attribute) == Never
    || (ShowBacking(attribute) == Unconnected && isConnected)
  }

  // ---------------------------------------------------------------------------
  // Names of dynamic ports

  /** `fieldName + " " + i`: the field's name, one space, and the index in decimal. */
  function PortName(fieldName: string, i: nat): (name: string)
    ensures |fieldName| + 2 <= |name| && name[..|fieldName|] == fieldName && name[|fieldName|] == ' '
    ensures ' ' !in fieldName ==> multiset(name)[' '] == 1
  {
    assert ' ' !in NatToString(i);
    fieldName + " " + NatToString(i)
  }

  lemma {:induction false} PortNameInjective(fieldName: string, i: nat, j: nat)
    requires PortName(fieldName, i) == PortName(fieldName, j)
    ensures i == j
  {
    assert PortName(fieldName, i)[|fieldName| + 1..] == NatToString(i);
    assert PortName(fieldName, j)[|fieldName| + 1..] == NatToString(j);
    NatToStringInjective(i, j);
  }

  /** The first `n` names of a field are `n` different names. */
  lemma {:induction false} PortNamesCount(fieldName: string, n: nat)
    ensures |set j | 0 <= j < n :: PortName(fieldName, j)| == n
  {
    if n > 0 {
      var below := set j | 0 <= j < n - 1 :: PortName(fieldName, j);
      PortNamesCount(fieldName, n - 1);
      assert (set j | 0 <= j < n :: PortName(fieldName, j)) == below + {PortName(fieldName, n - 1)};
      if PortName(fieldName, n - 1) in below {
        var j :| 0 <= j < n - 1 && PortName(fieldName, j) == PortName(fieldName, n - 1);
        PortNameInjective(fieldName, j, n - 1);
      }
    }
  }

  lemma {:induction false} ElementsCount<T>(s: seq<T>)
    ensures |set x | x in s| <= |s|
  {
    if s != [] {
      ElementsCount(s[1..]);
      assert (set x | x in s) == {s[0]} + (set x | x in s[1..]);
    }
  }

  lemma {:induction false} SubsetSize<T>(a: set<T>, b: set<T>)
    requires a <= b
    ensures |a| <= |b|
  {
    if a != {} {
      var x :| x in a;
      SubsetSize(a - {x}, b - {x});
    }
  }

  /** A node whose names include the first `n` names of a field has at least `n` ports. */
  lemma PortNamesBound(fieldName: string, n: nat, keys: seq<string>)
    requires forall j :: 0 <= j < n ==> PortName(fieldName, j) in keys
    ensures n <= |keys|
  {
    PortNamesCount(fieldName, n);
    ElementsCount(keys);
    SubsetSize(set j | 0 <= j < n :: PortName(fieldName, j), set x | x in keys);
  }

  /**
   * The name-search loop of the add callback and of the array sync: the first
   * of `fieldName 0`, `fieldName 1`, … that the node does not have.
   */
  method NewPortName(node: Node, fieldName: string) returns (name: string, i: nat)
    ensures name == PortName(fieldName, i)
    ensures !node.HasPort(name)
    ensures forall j :: 0 <= j < i ==> node.HasPort(PortName(fieldName, j))
    ensures i <= |node.keys|
  {
    name := fieldName + " 0";
    i := 0;
    assert name == PortName(fieldName, 0);
    while node.HasPort(name)
      invariant name == PortName(fieldName, i)
      invariant forall j :: 0 <= j < i ==> node.HasPort(PortName(fieldName, j))
      invariant i <= |node.keys|
      decreases |node.keys| - i
    {
      PortNamesBound(fieldName, i + 1, node.keys);
      i := i + 1;
      name := fieldName + " " + NatToString(i);
    }
  }

  /** `name` is the first name of the field not taken in `keys`. */
  ghost predicate IsFirstFreeName(keys: seq<string>, fieldName: string, name: string) {
    exists i: nat :: name == PortName(fieldName, i) && name !in keys &&
      forall j :: 0 <= j < i ==> PortName(fieldName, j) in keys
  }

  /** A generated name is recognised as belonging to its list exactly when that list is cached. */
  lemma GeneratedNameIsListPort(cache: ListCache, port: Port, fieldName: string, i: nat)
    requires ' ' !in fieldName
    requires port.fieldName == PortName(fieldName, i)
    ensures cache.IsDynamicPortListPort(port) <==> port.node in cache.lists && fieldName in cache.lists[port.node]
  {
    var digits := NatToString(i);
    assert ' ' !in digits;
    SplitAroundOne(fieldName, digits, ' ');
    assert fieldName + " " + digits == fieldName + [' '] + digits;
  }

  /**
   * Any name made of two space-free parts around one space is recognised
   * exactly when the first part names a list cached for the port's node,
   * whether or not the list generated the name.
   */
  lemma NameWithOneSpaceIsListPort(cache: ListCache, port: Port, a: string, b: string)
    requires ' ' !in a && ' ' !in b
    requires port.fieldName == a + " " + b
    ensures cache.IsDynamicPortListPort(port) <==> port.node in cache.lists && a in cache.lists[port.node]
  {
    SplitAroundOne(a, b, ' ');
    assert a + " " + b == a + [' '] + b;
  }

  // ---------------------------------------------------------------------------
  // Reordering

  /**
   * `baseIndex` is the offset between list positions and positions in the
   * node's serialised port arrays: 0 for an input list; for an output list the
   * number of input ports that start the node's ports, plus one (the position
   * just after the first port that is not an input).
   */
  ghost predicate IsReorderBase(ports: seq<Port>, io: IO, baseIndex: nat) {
    if io == Input then
      baseIndex == 0
    else
      && 1 <= baseIndex <= |ports| + 1
      && (forall k :: 0 <= k < baseIndex - 1 ==> ports[k].direction == Input)
      && (baseIndex - 1 < |ports| ==> ports[baseIndex - 1].direction == Output)
  }

  /** The offset is determined by the ports and the direction. */
  lemma ReorderBaseUnique(ports: seq<Port>, io: IO, b1: nat, b2: nat)
    requires IsReorderBase(ports, io, b1) && IsReorderBase(ports, io, b2)
    ensures b1 == b2
  {
  }

  /** The counting loop of the reorder callback. */
  method ReorderBaseIndex(ports: seq<Port>, io: IO) returns (baseIndex: nat)
    ensures io == Input ==> baseIndex == 0
    ensures io == Output ==> 1 <= baseIndex <= |ports| + 1
    ensures io == Output ==> forall k :: 0 <= k < baseIndex - 1 ==> ports[k].direction == Input
    ensures io == Output && baseIndex - 1 < |ports| ==> ports[baseIndex - 1].direction == Output
  {
    baseIndex := 0;
    if io == Output {
      while baseIndex < |ports| && ports[baseIndex].direction == Input
        invariant baseIndex <= |ports|
        invariant forall k :: 0 <= k < baseIndex ==> ports[k].direction == Input
      {
        baseIndex := baseIndex + 1;
      }
      baseIndex := baseIndex + 1;
    }
  }

  // ---------------------------------------------------------------------------
  // The reorderable list of a dynamic port list and its callbacks

  /** What the element callback draws for one row. */
  datatype ElementDrawing =
    | OutOfRangeLabel(text: string)            // the array has no element for this row; no port handle
    | ArrayElementField(index: nat, handle: Port) // the array element's field, then the port handle
    | PortNameLabel(text: string, handle: Port)   // no array data: the port's name, then the handle

  /** The height the element-height callback gives one row. */
  datatype RowHeight = SingleLine | ElementHeight(index: nat)

  /**
   * A `ReorderableList` made by `CreateReorderableList`, with what its
   * callbacks capture: the node, the field, its array data, and the settings
   * that added ports receive.
   */
  class PortList {
    const node: Node
    const fieldName: string
    const arrayData: ArrayProperty?
    const valueType: RuntimeType
    const io: IO
    const connectionType: ConnectionType
    const typeConstraint: TypeConstraint
    var list: seq<Port>

    constructor (node: Node, fieldName: string, arrayData: ArrayProperty?, valueType: RuntimeType, io: IO,
                 connectionType: ConnectionType, typeConstraint: TypeConstraint, ports: seq<Port>)
      ensures this.node == node && this.fieldName == fieldName && this.arrayData == arrayData
      ensures this.valueType == valueType && this.io == io
      ensures this.connectionType == connectionType && this.typeConstraint == typeConstraint
      ensures list == ports
    {
      this.node := node;
      this.fieldName := fieldName;
      this.arrayData := arrayData;
      this.valueType := valueType;
      this.io := io;
      this.connectionType := connectionType;
      this.typeConstraint := typeConstraint;
      list := ports;
    }

    /** `hasArrayData` */
    predicate HasArrayData() {
      arrayData != null && arrayData.isArray
    }

    /** `drawElementCallback` for row `index`. */
    function DrawElement(index: nat): (d: ElementDrawing)
      reads this, arrayData
      requires index < |list|
      ensures d.OutOfRangeLabel? <==> HasArrayData() && arrayData.arraySize <= index
      ensures d.ArrayElementField? ==> HasArrayData() && d.index == index < arrayData.arraySize
      ensures d.PortNameLabel? <==> !HasArrayData()
      ensures d.PortNameLabel? ==> d.text == list[index].fieldName
      ensures !d.OutOfRangeLabel? ==> d.handle == list[index]
    {
      var port := list[index];
      if HasArrayData() then
        if arrayData.arraySize <= index then
          OutOfRangeLabel("Array[" + NatToString(index) + "] data out of range")
        else
          ArrayElementField(index, port)
      else
        PortNameLabel(port.fieldName, port)
    }

    /** `elementHeightCallback` for row `index`: it reads the array exactly where the row draws it. */
    function RowHeightOf(index: nat): (h: RowHeight)
      reads arrayData
      ensures h.ElementHeight? ==> HasArrayData() && h.index == index < arrayData.arraySize
      ensures HasArrayData() && index < arrayData.arraySize ==> h.ElementHeight?
    {
      if HasArrayData() then
        if arrayData.arraySize <= index then SingleLine else ElementHeight(index)
      else
        SingleLine
    }

    /**
     * `onAddCallback`: a dynamic port under the first free name of the field
     * (outputs unconstrained, inputs with the list's constraint), and one more
     * array element at the end when there is array data.
     */
    method OnAdd() returns (newName: string)
      requires node.Valid()
      modifies node, arrayData
      ensures node.Valid()
      ensures IsFirstFreeName(old(node.keys), fieldName, newName)
      ensures node.keys == old(node.keys) + [newName]
      ensures node.values == old(node.values) +
        [Port(node, newName, valueType, io, connectionType, if io == Output then NoConstraint else typeConstraint, true, false)]
      ensures HasArrayData() ==> arrayData.arraySize == old(arrayData.arraySize) + 1
      ensures !HasArrayData() && arrayData != null ==> arrayData.arraySize == old(arrayData.arraySize)
    {
      var i;
      newName, i := NewPortName(node, fieldName);
      if io == Output {
        node.AddDynamicPort(valueType, io, connectionType, NoConstraint, newName);
      } else {
        node.AddDynamicPort(valueType, io, connectionType, typeConstraint, newName);
      }
      if HasArrayData() {
        arrayData.arraySize := arrayData.arraySize + 1;
      }
    }

    /**
     * `onRemoveCallback` with the list's selected row `index`: the port shown
     * there leaves the node; the array data is not touched. A row outside the
     * list makes xNode's C# throw, which `ok == false` stands for.
     */
    method OnRemove(index: int) returns (ok: bool)
      requires node.Valid()
      modifies node
      ensures node.Valid()
      ensures ok <==> 0 <= index < |list|
      ensures !ok ==> node.keys == old(node.keys) && node.values == old(node.values)
      ensures ok ==> forall name :: node.HasPort(name) <==> old(node.HasPort(name)) && name != list[index].fieldName
      ensures ok && list[index].fieldName in old(node.keys) ==>
        var k := IndexOf(old(node.keys), list[index].fieldName);
        node.keys == RemoveAt(old(node.keys), k) && node.values == RemoveAt(old(node.values), k)
      ensures ok && list[index].fieldName !in old(node.keys) ==>
        node.keys == old(node.keys) && node.values == old(node.values)
    {
      if !(0 <= index < |list|) {
        return false;
      }
      var port := list[index];
      node.RemoveDynamicPort(port);
      ok := true;
      if port.fieldName in old(node.keys) {
        var k := IndexOf(old(node.keys), port.fieldName);
        forall name | old(node.HasPort(name)) && name != port.fieldName ensures node.HasPort(name) {
          var j := IndexOf(old(node.keys), name);
          assert name == node.keys[if j < k then j else j - 1];
        }
      }
    }

    /**
     * `onReorderCallbackWithDetails`: the moved row's entry is moved in both
     * serialised port arrays, at positions shifted by the same offset, so the
     * arrays stay parallel and the node stays well formed.
     */
    method OnReorder(index: int, newIndex: int)
      requires node.Valid()
      modifies node
      ensures node.Valid()
      ensures exists baseIndex ::
        (&& IsReorderBase(old(node.values), io, baseIndex)
         && node.keys == MoveArrayElement(old(node.keys), index + baseIndex, newIndex + baseIndex)
         && node.values == MoveArrayElement(old(node.values), index + baseIndex, newIndex + baseIndex))
    {
      var baseIndex := ReorderBaseIndex(node.values, io);
      assert IsReorderBase(node.values, io, baseIndex);
      var src, dst := index + baseIndex, newIndex + baseIndex;
      MoveKeepsParallel(node.keys, node.values, src, dst);
      MoveKeepsDistinct(node.keys, src, dst);
      node.keys, node.values := MoveArrayElement(node.keys, src, dst), MoveArrayElement(node.values, src, dst);
    }
  }

  /** Ports that `CreateReorderableList` appended to a node for the array data. */
  ghost predicate IsSyncedPort(p: Port, list: PortList, oldKeys: seq<string>) {
    && p.isDynamic && !p.isConnected && p.direction == list.io
    && p.valueType == list.valueType && p.connectionType == list.connectionType
    && p.typeConstraint == list.typeConstraint
    && p.fieldName !in oldKeys
  }

  function Max(a: int, b: int): int {
    if a < b then b else a
  }

  lemma DynamicPortsAppend(ports: seq<Port>, p: Port, io: IO)
    requires p.isDynamic && p.direction == io
    ensures DynamicPorts(ports + [p], io) == DynamicPorts(ports, io) + [p]
  {
    assert (ports + [p])[..|ports|] == ports;
  }

  /**
   * `CreateReorderableList`: a new list over `dynamicPorts`; when there is
   * array data, ports are added until there are as many as array elements and
   * then elements are added until there are as many as ports, so both end at
   * the larger of the two and neither shrinks.
   */
  method CreateReorderableList(fieldName: string, dynamicPorts: seq<Port>, arrayData: ArrayProperty?,
                               valueType: RuntimeType, node: Node, io: IO,
                               connectionType: ConnectionType, typeConstraint: TypeConstraint)
    returns (list: PortList)
    requires node.Valid()
    modifies node, arrayData
    ensures fresh(list) && node.Valid()
    ensures list.node == node && list.fieldName == fieldName && list.arrayData == arrayData
    ensures list.valueType == valueType && list.io == io
    ensures list.connectionType == connectionType && list.typeConstraint == typeConstraint
    ensures list.list == dynamicPorts
    ensures !list.HasArrayData() ==> node.keys == old(node.keys) && node.values == old(node.values)
    ensures !list.HasArrayData() && arrayData != null ==> arrayData.arraySize == old(arrayData.arraySize)
    ensures list.HasArrayData() ==>
      && arrayData.arraySize == Max(old(arrayData.arraySize), |dynamicPorts|)
      && |node.values| == |old(node.values)| + Max(old(arrayData.arraySize), |dynamicPorts|) - |dynamicPorts|
      && node.values[..|old(node.values)|] == old(node.values)
      && (forall k :: |old(node.values)| <= k < |node.values| ==> IsSyncedPort(node.values[k], list, old(node.keys)))
      && |DynamicPorts(node.values, io)| ==
           |DynamicPorts(old(node.values), io)| + Max(old(arrayData.arraySize), |dynamicPorts|) - |dynamicPorts|
  {
    list := new PortList(node, fieldName, arrayData, valueType, io, connectionType, typeConstraint, dynamicPorts);
    if list.HasArrayData() {
      ghost var oldKeys, oldValues := node.keys, node.values;
      var dynamicPortCount := |dynamicPorts|;
      while dynamicPortCount < arrayData.arraySize
        modifies node
        invariant node.Valid()
        invariant |dynamicPorts| <= dynamicPortCount <= Max(arrayData.arraySize, |dynamicPorts|)
        invariant |node.values| == |oldValues| + dynamicPortCount - |dynamicPorts|
        invariant node.values[..|oldValues|] == oldValues
        invariant node.keys[..|oldKeys|] == oldKeys
        invariant forall k :: |oldValues| <= k < |node.values| ==> IsSyncedPort(node.values[k], list, oldKeys)
        invariant |DynamicPorts(node.values, io)| == |DynamicPorts(oldValues, io)| + dynamicPortCount - |dynamicPorts|
      {
        var newName, i := NewPortName(node, arrayData.name);
        assert newName !in oldKeys by {
          assert forall k :: 0 <= k < |oldKeys| ==> oldKeys[k] == node.keys[k];
        }
        ghost var keysBefore, valuesBefore := node.keys, node.values;
        node.AddDynamicPort(valueType, io, connectionType, typeConstraint, newName);
        AppendKeepsSynced(valuesBefore, keysBefore, |oldValues|, node.values[|node.values| - 1], newName, list, oldKeys);
        DynamicPortsAppend(valuesBefore, node.values[|node.values| - 1], io);
        dynamicPortCount := dynamicPortCount + 1;
      }
      assert dynamicPortCount == Max(arrayData.arraySize, |dynamicPorts|);
      while arrayData.arraySize < dynamicPortCount
        modifies arrayData
        invariant arrayData.arraySize <= dynamicPortCount
        invariant old(arrayData.arraySize) <= arrayData.arraySize
      {
        arrayData.arraySize := arrayData.arraySize + 1;
      }
    }
  }

  /** Appending one synced port keeps the node's old ports in front and the added ones synced. */
  lemma AppendKeepsSynced(values: seq<Port>, keys: seq<string>, n: nat, p: Port, name: string,
                          list: PortList, oldKeys: seq<string>)
    requires n <= |values| && |oldKeys| <= |keys|
    requires forall k :: n <= k < |values| ==> IsSyncedPort(values[k], list, oldKeys)
    requires IsSyncedPort(p, list, oldKeys)
    ensures forall k :: n <= k < |values + [p]| ==> IsSyncedPort((values + [p])[k], list, oldKeys)
    ensures (values + [p])[..n] == values[..n]
    ensures (keys + [name])[..|oldKeys|] == keys[..|oldKeys|]
  {
  }

  // ---------------------------------------------------------------------------
  // The cache of reorderable lists

  /** `reorderableListCache`: node → field name → list. */
  class ListCache {
    var lists: map<Node, map<string, PortList>>

    ghost predicate Valid()
      reads this
    {
      forall n, f :: n in lists && f in lists[n] ==> lists[n][f].node == n && lists[n][f].fieldName == f
    }

    constructor ()
      ensures Valid() && lists == map[]
    {
      lists := map[];
    }

    /** The lists cached for one node. */
    function ListsOf(node: Node): map<string, PortList>
      reads this
    {
      if node in lists then lists[node] else map[]
    }

    function Cached(node: Node, fieldName: string): PortList?
      reads this
    {
      if node in lists && fieldName in lists[node] then lists[node][fieldName] else null
    }

    /**
     * `IsDynamicPortListPort`: the port's name has exactly one space, and the
     * part before it names a list cached for the port's node.
     */
    function IsDynamicPortListPort(port: Port): (r: bool)
      reads this
      ensures r ==> multiset(port.fieldName)[' '] == 1
      ensures r ==> port.node in lists
    {
      var parts := Split(port.fieldName, ' ');
      |parts| == 2 && port.node in lists && parts[0] in lists[port.node]
    }

    /**
     * `DynamicPortList`, apart from drawing: the list cached for (node, field)
     * is reused, or created and cached when there is none; either way it is
     * then given the node's dynamic ports of that direction as they were on
     * entry.
     */
    method DynamicPortList(fieldName: string, valueType: RuntimeType, node: Node, arrayData: ArrayProperty?,
                           io: IO, connectionType: ConnectionType, typeConstraint: TypeConstraint)
      returns (list: PortList)
      requires Valid() && node.Valid()
      modifies this, node, arrayData, Cached(node, fieldName)
      ensures Valid() && node.Valid()
      ensures lists == old(lists)[node := old(ListsOf(node))[fieldName := list]]
      ensures list.list == DynamicPorts(old(node.values), io)
      ensures list.node == node && list.fieldName == fieldName
      ensures |old(node.values)| <= |node.values| && node.values[..|old(node.values)|] == old(node.values)
      ensures !(arrayData != null && arrayData.isArray) ==> node.keys == old(node.keys) && node.values == old(node.values)
      ensures old(Cached(node, fieldName)) != null ==>
        && list == old(Cached(node, fieldName))
        && node.keys == old(node.keys) && node.values == old(node.values)
        && (arrayData != null ==> arrayData.arraySize == old(arrayData.arraySize))
      ensures old(Cached(node, fieldName)) == null ==>
        && fresh(list) && list.node == node && list.fieldName == fieldName && list.arrayData == arrayData
        && list.valueType == valueType && list.io == io
        && list.connectionType == connectionType && list.typeConstraint == typeConstraint
      ensures old(Cached(node, fieldName)) == null && list.HasArrayData() ==>
        arrayData.arraySize == |DynamicPorts(node.values, io)|
          == Max(old(arrayData.arraySize), |DynamicPorts(old(node.values), io)|)
    {
      var dynamicPorts := DynamicPorts(node.values, io);
      var cached := Cached(node, fieldName);
      if cached == null {
        list := CreateReorderableList(fieldName, dynamicPorts, arrayData, valueType, node, io, connectionType, typeConstraint);
        lists := lists[node := ListsOf(node)[fieldName := list]];
      } else {
        list := cached;
        assert ListsOf(node)[fieldName := list] == lists[node];
        assert lists == lists[node := lists[node]];
      }
      list.list := dynamicPorts;
    }
  }
}

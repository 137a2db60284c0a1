/**
 * The objects the editor code reads and changes, reduced to what it observes:
 * .NET types with their base-type chain, xNode's node with its ordered,
 * serialised port dictionary, and a serialised array property that is only
 * ever inspected through its size.
 */
module Host {
  import opened Wrappers

  /** A runtime type; `baseType` is `Type.BaseType`, absent for the root of the hierarchy. */
  datatype RuntimeType = RuntimeType(name: string, baseType: Option<RuntimeType>)

  /** `NodePort.IO` */
  datatype IO = Input | Output

  /** `Node.ConnectionType` */
  datatype ConnectionType = Multiple | Override

  /** `Node.TypeConstraint`; `NoConstraint` is xNode's `TypeConstraint.None`. */
  datatype TypeConstraint = NoConstraint | Inherited | Strict | InheritedInverse

  /** A node port as the editor reads it. */
  datatype Port = Port(
    node: Node,
    fieldName: string,
    valueType: RuntimeType,
    direction: IO,
    connectionType: ConnectionType,
    typeConstraint: TypeConstraint,
    isDynamic: bool,
    isConnected: bool)

  predicate Distinct<T(==)>(s: seq<T>) {
    forall i, j :: 0 <= i < j < |s| ==> s[i] != s[j]
  }

  /** The position of the first occurrence of `x` in `s`. */
  function IndexOf<T(==)>(s: seq<T>, x: T): (k: nat)
    requires x in s
    ensures k < |s| && s[k] == x && x !in s[..k]
  {
    if s[0] == x then 0 else 1 + IndexOf(s[1..], x)
  }

  function RemoveAt<T>(s: seq<T>, k: nat): seq<T>
    requires k < |s|
  {
    s[..k] + s[k + 1..]
  }

  /**
   * An xNode node. Its port dictionary is kept by Unity's serialiser as two
   * parallel lists, port names (`keys`) and ports (`values`); `node.Ports`
   * enumerates `values` in that order.
   */
  class Node {
    var keys: seq<string>
    var values: seq<Port>

    ghost predicate Valid()
      reads this
    {
      && |keys| == |values|
      && Distinct(keys)
      && forall k :: 0 <= k < |keys| ==> values[k].fieldName == keys[k] && values[k].node == this
    }

    /** A node without ports. */
    constructor ()
      ensures Valid() && keys == [] && values == []
    {
      keys, values := [], [];
    }

    predicate HasPort(fieldName: string)
      reads this
    {
      fieldName in keys
    }

    /**
     * `AddDynamicInput` / `AddDynamicOutput`: a dynamic, unconnected port is
     * appended; a name that is already taken leaves the node as it is.
     */
    method AddDynamicPort(valueType: RuntimeType, direction: IO, connectionType: ConnectionType,
                          typeConstraint: TypeConstraint, fieldName: string)
      requires Valid()
      modifies this
      ensures Valid()
      ensures old(HasPort(fieldName)) ==> keys == old(keys) && values == old(values)
      ensures !old(HasPort(fieldName)) ==>
        && keys == old(keys) + [fieldName]
        && values == old(values) + [Port(this, fieldName, valueType, direction, connectionType, typeConstraint, true, false)]
    {
      if !HasPort(fieldName) {
        keys := keys + [fieldName];
        values := values + [Port(this, fieldName, valueType, direction, connectionType, typeConstraint, true, false)];
      }
    }

    /** `RemoveDynamicPort`: the entry under the port's name leaves the dictionary; the rest keep their order. */
    method RemoveDynamicPort(port: Port)
      requires Valid()
      modifies this
      ensures Valid()
      ensures !HasPort(port.fieldName)
      ensures !old(HasPort(port.fieldName)) ==> keys == old(keys) && values == old(values)
      ensures old(HasPort(port.fieldName)) ==>
        var k := IndexOf(old(keys), port.fieldName);
        keys == RemoveAt(old(keys), k) && values == RemoveAt(old(values), k)
    {
      if HasPort(port.fieldName) {
        var k := IndexOf(keys, port.fieldName);
        keys, values := RemoveAt(keys, k), RemoveAt(values, k);
        assert forall i :: 0 <= i < |keys| ==> keys[i] == old(keys)[if i < k then i else i + 1];
      }
    }
  }

  /** `node.DynamicInputs` / `node.DynamicOutputs`: the dynamic ports of one direction, in port order. */
  function DynamicPorts(ports: seq<Port>, io: IO): (r: seq<Port>)
    ensures |r| <= |ports|
    ensures forall k :: 0 <= k < |r| ==> r[k] in ports && r[k].isDynamic && r[k].direction == io
    ensures forall k :: 0 <= k < |ports| && ports[k].isDynamic && ports[k].direction == io ==> ports[k] in r
  {
    if ports == [] then
      []
    else
      var last := ports[|ports| - 1];
      var rest := DynamicPorts(ports[..|ports| - 1], io);
      assert ports == ports[..|ports| - 1] + [last];
      if last.isDynamic && last.direction == io then rest + [last] else rest
  }

  /**
   * Where the dynamic ports of one direction sit among the node's ports:
   * `DynamicPorts` takes exactly the ports at these positions, and the
   * positions increase, so the list rows keep the node's port order.
   */
  function DynamicPortPositions(ports: seq<Port>, io: IO): (idx: seq<nat>)
    ensures |idx| == |DynamicPorts(ports, io)|
    ensures forall k :: 0 <= k < |idx| ==> idx[k] < |ports| && DynamicPorts(ports, io)[k] == ports[idx[k]]
    ensures forall k, l :: 0 <= k < l < |idx| ==> idx[k] < idx[l]
  {
    if ports == [] then
      []
    else
      var n := |ports| - 1;
      var rest := DynamicPortPositions(ports[..n], io);
      assert ports == ports[..n] + [ports[n]];
      assert forall k :: 0 <= k < |rest| ==> ports[..n][rest[k]] == ports[rest[k]];
      if ports[n].isDynamic && ports[n].direction == io then
        assert DynamicPorts(ports, io) == DynamicPorts(ports[..n], io) + [ports[n]];
        rest + [n]
      else
        assert DynamicPorts(ports, io) == DynamicPorts(ports[..n], io);
        rest
  }

  /** Every position holding a dynamic port of the direction is among `DynamicPortPositions`. */
  lemma {:induction false} DynamicPortPositionsComplete(ports: seq<Port>, io: IO, j: nat)
    requires j < |ports| && ports[j].isDynamic && ports[j].direction == io
    ensures j in DynamicPortPositions(ports, io)
  {
    var n := |ports| - 1;
    if j < n {
      assert ports[..n][j] == ports[j];
      DynamicPortPositionsComplete(ports[..n], io, j);
    }
  }

  /** A serialised array property; the model keeps only its name, whether it is an array, and its size. */
  class ArrayProperty {
    const name: string
    const isArray: bool
    var arraySize: nat

    constructor (name: string, isArray: bool, arraySize: nat)
      ensures this.name == name && this.isArray == isArray && this.arraySize == arraySize
    {
      this.name := name;
      this.isArray := isArray;
      this.arraySize := arraySize;
    }
  }

  /** The index in the original array of the element that `MoveArrayElement(src, dst)` leaves at `k`. */
  function MovedFrom(n: nat, src: int, dst: int, k: nat): (j: nat)
    requires k < n
    ensures j < n
  {
    if !(0 <= src < n && 0 <= dst < n) then k
    else if k == dst then src
    else if src < dst && src <= k < dst then k + 1
    else if dst < src && dst < k <= src then k - 1
    else k
  }

  /**
   * Unity's `SerializedProperty.MoveArrayElement(src, dst)`: the element at
   * `src` is taken out and put back so that it sits at `dst`; an index out of
   * range leaves the array as it is.
   */
  function MoveArrayElement<T>(s: seq<T>, src: int, dst: int): (r: seq<T>)
    ensures |r| == |s|
    ensures forall k :: 0 <= k < |r| ==> r[k] == s[MovedFrom(|s|, src, dst, k)]
  {
    if 0 <= src < |s| && 0 <= dst < |s| then
      var rest := s[..src] + s[src + 1..];
      rest[..dst] + [s[src]] + rest[dst..]
    else
      s
  }

  /** Moving an element is a permutation: it keeps a sequence free of duplicates. */
  lemma MoveKeepsDistinct<T>(s: seq<T>, src: int, dst: int)
    requires Distinct(s)
    ensures Distinct(MoveArrayElement(s, src, dst))
  {
  }

  /** Moving the same element in two parallel arrays keeps them parallel. */
  lemma MoveKeepsParallel(keys: seq<string>, values: seq<Port>, src: int, dst: int)
    requires |keys| == |values|
    requires forall k :: 0 <= k < |keys| ==> values[k].fieldName == keys[k]
    ensures var keys', values' := MoveArrayElement(keys, src, dst), MoveArrayElement(values, src, dst);
      |keys'| == |values'| && forall k :: 0 <= k < |keys'| ==> values'[k].fieldName == keys'[k]
  {
  }
}

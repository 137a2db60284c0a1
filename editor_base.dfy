/**
 * xNode's `NodeEditorBase<T, A, K>`: the static registry from inspected
 * types to custom editor types, found by reflection and built on first use,
 * the lookup that walks up the base-type chain, and the cache of one editor
 * per inspected object.
 */
module NodeEditorBase {
  import opened Wrappers
  import opened Host

  // ---------------------------------------------------------------------------
  // The registry of custom editors

  /**
   * A class deriving from the editor type, as reflection reports it: whether
   * it is abstract, and the inspected type of each of its editor attributes,
   * in the order `GetCustomAttributes` returns them.
   */
  datatype EditorClass = EditorClass(editorType: RuntimeType, isAbstract: bool, inspectedTypes: seq<RuntimeType>)

  /** Classes that get an entry: not abstract, and carrying the attribute. */
  predicate Eligible(c: EditorClass) {
    !c.isAbstract && |c.inspectedTypes| > 0
  }

  /**
   * What `CacheCustomEditors` leaves behind: the entries added so far and,
   * when `Dictionary.Add` met an inspected type twice, that type (the loop
   * stops there, leaving the entries added before it in place). The
   * duplicate is always a type an earlier class already registered.
   */
  datatype Registration = Registration(editorTypes: map<RuntimeType, RuntimeType>, duplicate: Option<RuntimeType>)

  function Register(classes: seq<EditorClass>): (r: Registration)
    ensures r.duplicate.Some? ==> r.duplicate.value in r.editorTypes
  {
    if classes == [] then
      Registration(map[], None)
    else
      var prev := Register(classes[..|classes| - 1]);
      var c := classes[|classes| - 1];
      if prev.duplicate.Some? || !Eligible(c) then
        prev
      else if c.inspectedTypes[0] in prev.editorTypes then
        Registration(prev.editorTypes, Some(c.inspectedTypes[0]))
      else
        Registration(prev.editorTypes[c.inspectedTypes[0] := c.editorType], None)
  }

  /** No two eligible classes name the same inspected type first. */
  ghost predicate DistinctInspectedTypes(classes: seq<EditorClass>) {
    forall i, j :: 0 <= i < j < |classes| && Eligible(classes[i]) && Eligible(classes[j]) ==>
      classes[i].inspectedTypes[0] != classes[j].inspectedTypes[0]
  }

  /** Every entry comes from an eligible class, keyed by its first attribute's inspected type. */
  lemma {:induction false} RegisterSound(classes: seq<EditorClass>)
    ensures forall t :: t in Register(classes).editorTypes ==>
      exists i :: 0 <= i < |classes| && Eligible(classes[i]) &&
        classes[i].inspectedTypes[0] == t && classes[i].editorType == Register(classes).editorTypes[t]
  {
    if classes != [] {
      var front := classes[..|classes| - 1];
      RegisterSound(front);
      forall t | t in Register(classes).editorTypes
        ensures exists i :: (0 <= i < |classes| && Eligible(classes[i]) &&
          classes[i].inspectedTypes[0] == t && classes[i].editorType == Register(classes).editorTypes[t])
      {
        var last := classes[|classes| - 1];
        if Register(front).duplicate.None? && Eligible(last) && last.inspectedTypes[0] !in Register(front).editorTypes
           && t == last.inspectedTypes[0] {
          assert classes[|classes| - 1] == last;
        } else {
          var i :| 0 <= i < |front| && Eligible(front[i]) &&
            front[i].inspectedTypes[0] == t && front[i].editorType == Register(front).editorTypes[t];
          assert classes[i] == front[i];
        }
      }
    }
  }

  /** Without a duplicate, every eligible class is registered under its inspected type. */
  lemma {:induction false} RegisterComplete(classes: seq<EditorClass>)
    requires Register(classes).duplicate.None?
    ensures forall i :: 0 <= i < |classes| && Eligible(classes[i]) ==>
      classes[i].inspectedTypes[0] in Register(classes).editorTypes &&
      Register(classes).editorTypes[classes[i].inspectedTypes[0]] == classes[i].editorType
  {
    if classes != [] {
      var front := classes[..|classes| - 1];
      assert Register(front).duplicate.None?;
      RegisterComplete(front);
      forall i | 0 <= i < |classes| - 1 && Eligible(classes[i])
        ensures classes[i].inspectedTypes[0] in Register(classes).editorTypes &&
          Register(classes).editorTypes[classes[i].inspectedTypes[0]] == classes[i].editorType
      {
        assert classes[i] == front[i];
      }
    }
  }

  /** Building the registry fails exactly when two eligible classes inspect the same type. */
  lemma {:induction false} RegisterFailsOnDuplicate(classes: seq<EditorClass>)
    ensures Register(classes).duplicate.None? <==> DistinctInspectedTypes(classes)
  {
    if classes != [] {
      var front := classes[..|classes| - 1];
      var last := classes[|classes| - 1];
      RegisterFailsOnDuplicate(front);
      assert forall i :: 0 <= i < |front| ==> classes[i] == front[i];
      if Register(front).duplicate.None? && Eligible(last) {
        if last.inspectedTypes[0] in Register(front).editorTypes {
          RegisterSound(front);
          var i :| 0 <= i < |front| && Eligible(front[i]) && front[i].inspectedTypes[0] == last.inspectedTypes[0];
          assert !DistinctInspectedTypes(classes) by {
            assert Eligible(classes[i]) && Eligible(classes[|classes| - 1]);
          }
        } else {
          RegisterComplete(front);
        }
      }
    }
  }

  /** Once a duplicate is met, the classes after it change nothing. */
  lemma {:induction false} RegisterStopsAtDuplicate(classes: seq<EditorClass>, n: nat)
    requires n <= |classes|
    requires Register(classes[..n]).duplicate.Some?
    ensures Register(classes) == Register(classes[..n])
    decreases |classes| - n
  {
    if n < |classes| {
      assert classes[..n + 1][..n] == classes[..n];
      RegisterStopsAtDuplicate(classes, n + 1);
    } else {
      assert classes[..n] == classes;
    }
  }

  // ---------------------------------------------------------------------------
  // Looking up an editor type

  /** A type followed by its base types, up to the root. */
  function Ancestry(t: RuntimeType): (chain: seq<RuntimeType>)
    ensures 1 <= |chain| && chain[0] == t
    ensures forall k :: 0 <= k < |chain| - 1 ==> chain[k].baseType == Some(chain[k + 1])
    ensures chain[|chain| - 1].baseType.None?
  {
    match t.baseType
    case None => [t]
    case Some(b) => [t] + Ancestry(b)
  }

  /** The recursion of `GetEditorType` over a built registry: try the type, then its base type. */
  function ResolveEditorType(editorTypes: map<RuntimeType, RuntimeType>, t: Option<RuntimeType>): (r: Option<RuntimeType>)
    ensures r.Some? ==> r.value in editorTypes.Values
  {
    match t
    case None => None
    case Some(ty) => if ty in editorTypes then Some(editorTypes[ty]) else ResolveEditorType(editorTypes, ty.baseType)
  }

  /** The lookup yields the entry of the nearest registered type in the chain. */
  lemma {:induction false} ResolveFindsNearest(editorTypes: map<RuntimeType, RuntimeType>, t: RuntimeType, k: nat)
    requires k < |Ancestry(t)| && Ancestry(t)[k] in editorTypes
    requires forall j :: 0 <= j < k ==> Ancestry(t)[j] !in editorTypes
    ensures ResolveEditorType(editorTypes, Some(t)) == Some(editorTypes[Ancestry(t)[k]])
  {
    if k > 0 {
      var b := t.baseType.value;
      assert Ancestry(t) == [t] + Ancestry(b);
      assert t !in editorTypes by { assert Ancestry(t)[0] == t; }
      forall j | 0 <= j < k - 1 ensures Ancestry(b)[j] !in editorTypes {
        assert Ancestry(b)[j] == Ancestry(t)[j + 1];
      }
      ResolveFindsNearest(editorTypes, b, k - 1);
    }
  }

  /** With no type of the chain registered, the lookup yields nothing. */
  lemma {:induction false} ResolveUnregistered(editorTypes: map<RuntimeType, RuntimeType>, t: RuntimeType)
    requires forall j :: 0 <= j < |Ancestry(t)| ==> Ancestry(t)[j] !in editorTypes
    ensures ResolveEditorType(editorTypes, Some(t)).None?
  {
    assert Ancestry(t)[0] == t;
    if t.baseType.Some? {
      var b := t.baseType.value;
      assert Ancestry(t) == [t] + Ancestry(b);
      forall j | 0 <= j < |Ancestry(b)| ensures Ancestry(b)[j] !in editorTypes {
        assert Ancestry(b)[j] == Ancestry(t)[j + 1];
      }
      ResolveUnregistered(editorTypes, b);
    }
  }

  // ---------------------------------------------------------------------------
  // Editors and their cache

  type WindowId = nat

  /** An inspected object: its identity and its runtime type. */
  datatype Target = Target(id: nat, runtimeType: RuntimeType)

  datatype EditorError = DuplicateInspectedType(inspected: RuntimeType)

  /** An editor made by `Editor.CreateEditor` for one target. */
  class NodeEditor {
    const target: Target
    const editorType: Option<RuntimeType>
    var window: Option<WindowId>

    constructor (target: Target, editorType: Option<RuntimeType>, window: Option<WindowId>)
      ensures this.target == target && this.editorType == editorType && this.window == window
    {
      this.target := target;
      this.editorType := editorType;
      this.window := window;
    }
  }

  /**
   * The static state of one instantiation of `NodeEditorBase<T, A, K>`:
   * `editorTypes` (null until first needed), `editors`, and what reflection
   * reports about the classes deriving from `T`.
   */
  class EditorCache {
    const derivedTypes: seq<EditorClass>
    var editorTypes: Option<map<RuntimeType, RuntimeType>>
    var editors: map<Target, NodeEditor>

    /** Each cached editor is the one made for its key. */
    ghost predicate Valid()
      reads this
    {
      forall t :: t in editors ==> editors[t].target == t
    }

    constructor (derivedTypes: seq<EditorClass>)
      ensures Valid()
      ensures this.derivedTypes == derivedTypes && editorTypes.None? && editors == map[]
    {
      this.derivedTypes := derivedTypes;
      editorTypes := None;
      editors := map[];
    }

    /**
     * `CacheCustomEditors`: a fresh registry filled from the eligible derived
     * classes; a repeated inspected type makes `Dictionary.Add` throw and
     * leaves the registry as filled so far.
     */
    method CacheCustomEditors() returns (error: Option<EditorError>)
      modifies this
      ensures editors == old(editors)
      ensures editorTypes == Some(Register(derivedTypes).editorTypes)
      ensures error.None? <==> Register(derivedTypes).duplicate.None?
      ensures error.Some? ==> error.value == DuplicateInspectedType(Register(derivedTypes).duplicate.value)
    {
      editorTypes := Some(map[]);
      for i := 0 to |derivedTypes|
        invariant editorTypes == Some(Register(derivedTypes[..i]).editorTypes)
        invariant Register(derivedTypes[..i]).duplicate.None?
        invariant editors == old(editors)
      {
        assert derivedTypes[..i + 1][..i] == derivedTypes[..i];
        var c := derivedTypes[i];
        if c.isAbstract {
          continue;
        }
        if |c.inspectedTypes| == 0 {
          continue;
        }
        var inspected := c.inspectedTypes[0];
        if inspected in editorTypes.value {
          RegisterStopsAtDuplicate(derivedTypes, i + 1);
          return Some(DuplicateInspectedType(inspected));
        }
        editorTypes := Some(editorTypes.value[inspected := c.editorType]);
      }
      assert derivedTypes[..|derivedTypes|] == derivedTypes;
      error := None;
    }

    /**
     * `GetEditorType`: nothing for a null type; otherwise the registry is
     * built if it is still null (and only then), and the type's chain is
     * searched for the nearest registered type.
     */
    method GetEditorType(t: Option<RuntimeType>) returns (r: Result<Option<RuntimeType>, EditorError>)
      modifies this
      ensures editors == old(editors)
      ensures old(editorTypes).Some? ==> editorTypes == old(editorTypes)
      ensures t.None? ==> r == Ok(None) && editorTypes == old(editorTypes)
      ensures t.Some? && old(editorTypes).None? ==> editorTypes == Some(Register(derivedTypes).editorTypes)
      ensures t.Some? && old(editorTypes).None? && Register(derivedTypes).duplicate.Some? ==>
        r == Err(DuplicateInspectedType(Register(derivedTypes).duplicate.value))
      ensures t.Some? && !(old(editorTypes).None? && Register(derivedTypes).duplicate.Some?) ==>
        editorTypes.Some? && r == Ok(ResolveEditorType(editorTypes.value, t))
    {
      if t.None? {
        return Ok(None);
      }
      if editorTypes.None? {
        var error := CacheCustomEditors();
        if error.Some? {
          return Err(error.value);
        }
      }
      r := Ok(ResolveEditorType(editorTypes.value, t));
    }

    /**
     * `GetEditor`: nothing for a null target; the cached editor for a known
     * target; otherwise a new editor for the target's editor type, cached.
     * The returned editor's window is `window`; no other editor changes.
     */
    method GetEditor(target: Option<Target>, window: Option<WindowId>) returns (r: Result<NodeEditor?, EditorError>)
      requires Valid()
      modifies this, editors.Values
      ensures Valid()
      ensures target.None? ==> r == Ok(null) && editors == old(editors) && editorTypes == old(editorTypes)
      ensures target.Some? && target.value in old(editors) ==>
        r == Ok(old(editors)[target.value]) && editors == old(editors) && editorTypes == old(editorTypes)
      ensures target.Some? && target.value !in old(editors) && r.Ok? ==>
        && r.value != null && fresh(r.value) && r.value.target == target.value
        && editors == old(editors)[target.value := r.value]
        && editorTypes.Some?
        && r.value.editorType == ResolveEditorType(editorTypes.value, Some(target.value.runtimeType))
      ensures r.Err? ==> target.Some? && target.value !in old(editors) && editors == old(editors)
      ensures old(editorTypes).Some? ==> editorTypes == old(editorTypes)
      ensures target.Some? && target.value !in old(editors) && old(editorTypes).None? ==>
        editorTypes == Some(Register(derivedTypes).editorTypes)
      ensures r.Ok? && r.value != null ==> r.value.window == window
      ensures forall e :: e in old(editors.Values) && !(r.Ok? && e == r.value) ==> e.window == old(e.window)
    {
      if target.None? {
        return Ok(null);
      }
      var t := target.value;
      var editor: NodeEditor;
      if t in editors {
        editor := editors[t];
      } else {
        var editorType := GetEditorType(Some(t.runtimeType));
        if editorType.Err? {
          return Err(editorType.error);
        }
        editor := new NodeEditor(t, editorType.value, window);
        editors := editors[t := editor];
      }
      if editor.window != window {
        editor.window := window;
      }
      r := Ok(editor);
    }
  }
}

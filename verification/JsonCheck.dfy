/**
  The strict-JSON validator on an object graph with sharing and cycles.

  The heap is a finite map from references to own-property tables; references may form cycles.
 */
module JsonCheck {
  import opened Wrappers

  type Ref = nat

  datatype Value =
    | Null
    | Text
    | Boolean
    | Number(finite: bool)
    | Object(ref: Ref)        // arrays and objects
    | Other                   // undefined, functions, symbols, bigints

  /** An own property descriptor. */
  datatype Property = Property(enumerable: bool, isData: bool, value: Value)

  /**
    An array: its length, the number of its own keys, whether some key is a symbol, and the descriptors
    at its indices, where a hole has none. An object: whether its prototype is plain, whether some key is
    a symbol, and its descriptors.
   */
  datatype Node =
    | Array(keyCount: nat, symbolKey: bool, slots: seq<Option<Property>>)
    | Record(plain: bool, symbolKey: bool, properties: seq<Property>)

  type Heap = map<Ref, Node>

  const MAX_DEPTH := 512

  /** Every reference leads to a node of the heap. */
  ghost predicate Closed(heap: Heap) {
    forall r :: r in heap ==>
      forall i :: 0 <= i < Width(heap[r]) && Slot(heap[r], i).Some? ==> InHeap(heap, Slot(heap[r], i).value.value)
  }

  ghost predicate InHeap(heap: Heap, v: Value) {
    v.Object? ==> v.ref in heap
  }

  function Width(node: Node): nat {
    if node.Array? then |node.slots| else |node.properties|
  }

  function Slot(node: Node, i: nat): Option<Property>
    requires i < Width(node)
  {
    if node.Array? then node.slots[i] else Some(node.properties[i])
  }

  /** The checks on a node that come before its children. */
  predicate ShapeOk(node: Node) {
    if node.Array? then node.keyCount == |node.slots| + 1 && !node.symbolKey
    else node.plain && !node.symbolKey
  }

  predicate SlotOk(slot: Option<Property>) {
    slot.Some? && slot.value.enumerable && slot.value.isData
  }

  /** A node that is fine apart from its children. */
  ghost predicate NodeOk(node: Node) {
    ShapeOk(node) && forall i :: 0 <= i < Width(node) ==> SlotOk(Slot(node, i))
  }

  /** A value that is fine apart from its children. */
  ghost predicate ValueOk(heap: Heap, v: Value)
    requires InHeap(heap, v)
  {
    match v
    case Null => true
    case Text => true
    case Boolean => true
    case Number(finite) => finite
    case Object(r) => NodeOk(heap[r])
    case Other => false
  }

  // ---- Paths -------------------------------------------------------------------------

  /** The value at the end of a path of property positions, if the path exists. */
  ghost function At(heap: Heap, v: Value, path: seq<nat>): Option<Value>
    requires Closed(heap) && InHeap(heap, v)
    ensures At(heap, v, path).Some? ==> InHeap(heap, At(heap, v, path).value)
    decreases |path|
  {
    if path == [] then Some(v)
    else if !v.Object? || path[0] >= Width(heap[v.ref]) || Slot(heap[v.ref], path[0]).None? then None
    else At(heap, Slot(heap[v.ref], path[0]).value.value, path[1..])
  }

  lemma {:induction false} AtConcat(heap: Heap, v: Value, p: seq<nat>, q: seq<nat>)
    requires Closed(heap) && InHeap(heap, v)
    requires At(heap, v, p).Some?
    ensures At(heap, v, p + q) == At(heap, At(heap, v, p).value, q)
    decreases |p|
  {
    if p == [] {
      assert p + q == q;
    } else {
      assert (p + q)[0] == p[0] && (p + q)[1..] == p[1..] + q;
      AtConcat(heap, Slot(heap[v.ref], p[0]).value.value, p[1..], q);
    }
  }

  /** Some nonempty path leads from `a` to `v`. */
  ghost predicate Reaches(heap: Heap, a: Value, v: Value)
    requires Closed(heap) && InHeap(heap, a)
  {
    exists p :: p != [] && At(heap, a, p) == Some(v)
  }

  // ---- The depth-only check ----------------------------------------------------------

  /** The reference: no ancestor set, only the depth limit. */
  ghost predicate DepthCheck(heap: Heap, v: Value, depth: nat)
    requires Closed(heap) && InHeap(heap, v)
    decreases MAX_DEPTH + 1 - depth
  {
    && depth <= MAX_DEPTH
    && ValueOk(heap, v)
    && (v.Object? ==> forall i :: 0 <= i < Width(heap[v.ref]) ==>
        DepthCheck(heap, Slot(heap[v.ref], i).value.value, depth + 1))
  }

  /** The check at the root holds all along every path. */
  lemma {:induction false} DepthCheckAlong(heap: Heap, v: Value, depth: nat, path: seq<nat>)
    requires Closed(heap) && InHeap(heap, v)
    requires DepthCheck(heap, v, depth) && At(heap, v, path).Some?
    ensures DepthCheck(heap, At(heap, v, path).value, depth + |path|)
    decreases |path|
  {
    if path != [] {
      DepthCheckAlong(heap, Slot(heap[v.ref], path[0]).value.value, depth + 1, path[1..]);
    }
  }

  /** Going round a cycle deepens every check, so no check on a cycle holds. */
  lemma {:induction false} CyclesFail(heap: Heap, v: Value, depth: nat)
    requires Closed(heap) && InHeap(heap, v) && Reaches(heap, v, v)
    ensures !DepthCheck(heap, v, depth)
    decreases MAX_DEPTH + 1 - depth
  {
    if DepthCheck(heap, v, depth) {
      var p :| p != [] && At(heap, v, p) == Some(v);
      DepthCheckAlong(heap, v, depth, p);
      CyclesFail(heap, v, depth + |p|);
    }
  }

  /** Every value within reach is well formed and at most 512 steps away. */
  ghost predicate Strict(heap: Heap, v: Value, depth: nat)
    requires Closed(heap) && InHeap(heap, v)
  {
    forall p :: At(heap, v, p).Some? ==> depth + |p| <= MAX_DEPTH && ValueOk(heap, At(heap, v, p).value)
  }

  /** The depth-only check says exactly that. */
  lemma {:induction false} DepthCheckMeaning(heap: Heap, v: Value, depth: nat)
    requires Closed(heap) && InHeap(heap, v)
    ensures DepthCheck(heap, v, depth) <==> Strict(heap, v, depth)
    decreases MAX_DEPTH + 1 - depth
  {
    if DepthCheck(heap, v, depth) {
      forall p | At(heap, v, p).Some? ensures depth + |p| <= MAX_DEPTH && ValueOk(heap, At(heap, v, p).value) {
        DepthCheckAlong(heap, v, depth, p);
      }
    }
    if Strict(heap, v, depth) {
      assert At(heap, v, []) == Some(v);
      if v.Object? {
        forall i | 0 <= i < Width(heap[v.ref]) ensures DepthCheck(heap, Slot(heap[v.ref], i).value.value, depth + 1) {
          var child := Slot(heap[v.ref], i).value.value;
          forall p | At(heap, child, p).Some?
              ensures depth + 1 + |p| <= MAX_DEPTH && ValueOk(heap, At(heap, child, p).value) {
            assert ([i] + p)[0] == i && ([i] + p)[1..] == p;
            assert At(heap, v, [i] + p) == At(heap, child, p);
          }
          DepthCheckMeaning(heap, child, depth + 1);
        }
      }
    }
  }

  // ---- The validator -----------------------------------------------------------------

  class Checker {
    const heap: Heap
    var ancestors: set<Ref>

    constructor (heap: Heap)
      ensures this.heap == heap && ancestors == {}
    {
      this.heap := heap;
      ancestors := {};
    }

    /** Every ancestor reaches the value at hand by a nonempty path. */
    ghost predicate Above(v: Value)
      requires Closed(heap) && InHeap(heap, v)
      reads this
    {
      forall a :: a in ancestors ==> a in heap && Reaches(heap, Object(a), v)
    }

    /**
      `check`: the ancestor set is shared and restored on every way out, and the answer is that of the
      depth-only check.
     */
    method Check(value: Value, depth: nat) returns (ok: bool)
      requires Closed(heap) && InHeap(heap, value) && Above(value)
      requires depth <= MAX_DEPTH + 1
      modifies this`ancestors
      ensures ancestors == old(ancestors)
      ensures ok <==> DepthCheck(heap, value, depth)
      decreases MAX_DEPTH + 1 - depth
    {
      if depth > MAX_DEPTH {
        return false;
      }
      match value
      case Null => return true;
      case Text => return true;
      case Boolean => return true;
      case Number(finite) => return finite;
      case Other => return false;
      case Object(ref) =>
        var node := heap[ref];
        if !ShapeOk(node) {
          return false;
        }
        if ref in ancestors {
          CyclesFail(heap, value, depth);
          return false;
        }
        ancestors := ancestors + {ref};
        var i := 0;
        ok := true;
        while i < Width(node) && ok
          modifies this`ancestors
          invariant 0 <= i <= Width(node)
          invariant ancestors == old(ancestors) + {ref}
          invariant ok ==> forall k :: 0 <= k < i ==>
              SlotOk(Slot(node, k)) && DepthCheck(heap, Slot(node, k).value.value, depth + 1)
          invariant !ok ==> !DepthCheck(heap, value, depth)
        {
          var slot := Slot(node, i);
          if !SlotOk(slot) {
            ok := false;
          } else {
            StepBelow(heap, value, i);
            ok := Check(slot.value.value, depth + 1);
          }
          i := i + 1;
        }
        ancestors := ancestors - {ref};
    }

    /** Descending keeps every ancestor above. */
    lemma StepBelow(h: Heap, v: Value, i: nat)
      requires h == heap && Closed(heap) && v.Object? && v.ref in heap && v.ref in ancestors
      requires forall a :: a in ancestors && a != v.ref ==> a in heap && Reaches(heap, Object(a), v)
      requires i < Width(heap[v.ref]) && Slot(heap[v.ref], i).Some?
      ensures Above(Slot(heap[v.ref], i).value.value)
    {
      var child := Slot(heap[v.ref], i).value.value;
      assert At(heap, v, [i]) == Some(child) by {
        assert [i][1..] == [];
      }
      forall a | a in ancestors ensures a in heap && Reaches(heap, Object(a), child) {
        if a == v.ref {
          assert [i] != [];
        } else {
          var p :| p != [] && At(heap, Object(a), p) == Some(v);
          AtConcat(heap, Object(a), p, [i]);
          assert p + [i] != [];
        }
      }
    }

    /**
      `isJsonValue`: true exactly when every value within reach is well formed and at most 512 steps
      away, so cycles are rejected and shared acyclic nodes are not.
     */
    method IsJsonValue(value: Value) returns (ok: bool)
      requires Closed(heap) && InHeap(heap, value) && ancestors == {}
      modifies this`ancestors
      ensures ok <==> Strict(heap, value, 0)
      ensures ancestors == {}
    {
      ok := Check(value, 0);
      DepthCheckMeaning(heap, value, 0);
    }
  }

  /** A well-formed node is strict if its children are, however many of its slots share one child. */
  lemma SharingIsHarmless(heap: Heap, r: Ref, depth: nat)
    requires Closed(heap) && r in heap && NodeOk(heap[r]) && depth <= MAX_DEPTH
    requires forall i :: 0 <= i < Width(heap[r]) ==> Strict(heap, Slot(heap[r], i).value.value, depth + 1)
    ensures Strict(heap, Object(r), depth)
  {
    forall i | 0 <= i < Width(heap[r]) ensures DepthCheck(heap, Slot(heap[r], i).value.value, depth + 1) {
      DepthCheckMeaning(heap, Slot(heap[r], i).value.value, depth + 1);
    }
    DepthCheckMeaning(heap, Object(r), depth);
  }

  /** A value that reaches a cycle is never strict JSON, whatever the heap. */
  lemma CyclicIsNotStrict(heap: Heap, root: Value, p: seq<nat>)
    requires Closed(heap) && InHeap(heap, root)
    requires At(heap, root, p).Some? && Reaches(heap, At(heap, root, p).value, At(heap, root, p).value)
    ensures !Strict(heap, root, 0)
  {
    if Strict(heap, root, 0) {
      DepthCheckMeaning(heap, root, 0);
      DepthCheckAlong(heap, root, 0, p);
      CyclesFail(heap, At(heap, root, p).value, |p|);
    }
  }
}

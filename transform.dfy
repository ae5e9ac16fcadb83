/**
  The annotation pass `transformModel` (src/model-transform.ts:152-319).

  The source keeps two maps in local variables shared by closures: the node registry
  `xmiNodes` and the datatype map `extDataTypesMap`, and it writes annotation fields
  into the parser's objects, among them the association descriptors of the pool.
  Here that state is one `State` value handed from step to step; each step returns
  the new state or the error that aborts the run.
*/
module Transform {
  import opened Wrappers
  import opened Ids
  import opened Registry

  /** The four fatal errors of the pass, plus the TypeError of reading `type.name` of an untyped property. */
  datatype Error =
    | UnexpectedStereotype
    | FromNodeNotFound(name: string)
    | VisibilityModifierNotFound
    | AssociationNotFound
    | PropertyTypeMissing

  /** An association descriptor of the pool together with the annotation written into it, if any. */
  datatype PoolEntry = PoolEntry(fromName: string, toName: string, annotation: Option<Association>)

  /**
    The pass's state: the registry, the datatype map (id and name of each datatype),
    the association pool, and the number of random tokens drawn so far.
  */
  datatype State = State(
    nodes: Entries,
    dataTypes: seq<(string, string)>,
    pool: seq<PoolEntry>,
    draws: nat)

  /** A stream of random tokens as randomHex produces them. */
  ghost predicate TokensOk(tokens: nat -> string)
  {
    forall n: nat :: IsHexToken(tokens(n))
  }

  /** The keys of the datatype map. */
  function DataTypeKeys(dts: seq<(string, string)>): (ks: seq<string>)
    ensures |ks| == |dts|
    ensures forall j :: 0 <= j < |dts| ==> ks[j] == dts[j].0
  {
    seq(|dts|, j requires 0 <= j < |dts| => dts[j].0)
  }

  // ---------------------------------------------------------------------------
  // Looking up input classes and pool entries by name

  /** The stereotypes the pass accepts: 0 and 2. */
  predicate StereotypeOk(c: ClassDecl)
  {
    c.stereotype == 0 || c.stereotype == 2
  }

  predicate IsClassName(classes: seq<ClassDecl>, name: string)
  {
    exists k :: 0 <= k < |classes| && classes[k].name == name
  }

  /** The position of the first input class with the given name. */
  function ClassIndex(classes: seq<ClassDecl>, name: string): (r: Option<nat>)
    ensures r.Some? <==> IsClassName(classes, name)
    ensures r.Some? ==> r.value < |classes| && classes[r.value].name == name &&
                        forall j :: 0 <= j < r.value ==> classes[j].name != name
  {
    if classes == [] then None
    else if classes[0].name == name then Some(0)
    else match ClassIndex(classes[1..], name)
      case None => None
      case Some(k) => Some(k + 1)
  }

  /** `associations.toArray().filter(a => a.fromName == from && a.toName == to)[0]`, as a position. */
  function PoolIndex(pool: seq<PoolEntry>, from: string, to: string): (r: Option<nat>)
    ensures r.Some? ==> r.value < |pool| && pool[r.value].fromName == from && pool[r.value].toName == to
    ensures r.Some? ==> forall j :: 0 <= j < r.value ==> !(pool[j].fromName == from && pool[j].toName == to)
    ensures r.None? ==> forall j :: 0 <= j < |pool| ==> !(pool[j].fromName == from && pool[j].toName == to)
  {
    if pool == [] then None
    else if pool[0].fromName == from && pool[0].toName == to then Some(0)
    else match PoolIndex(pool[1..], from, to)
      case None => None
      case Some(k) => Some(k + 1)
  }

  /** The pool as the parser hands it over: nothing annotated yet. */
  function InitialPool(assocs: seq<AssociationDecl>): (pool: seq<PoolEntry>)
    ensures |pool| == |assocs|
    ensures forall j :: 0 <= j < |assocs| ==>
              pool[j] == PoolEntry(assocs[j].fromName, assocs[j].toName, None)
  {
    seq(|assocs|, j requires 0 <= j < |assocs| => PoolEntry(assocs[j].fromName, assocs[j].toName, None))
  }

  /**
    What a resolved type name refers to: the first class of that name if there is one,
    otherwise the datatype of that name.
  */
  predicate Resolves(classes: seq<ClassDecl>, ids: seq<string>, dataTypes: seq<(string, string)>,
                     name: string, target: string)
    requires |ids| == |classes|
  {
    match ClassIndex(classes, name)
    case Some(k) => target == ids[k]
    case None => (target, name) in dataTypes
  }

  // ---------------------------------------------------------------------------
  // Invariants of the state

  /*
    The next three predicates name registry positions by what they hold. The invariants
    below quantify over positions through them only, so that the existential facts those
    invariants state (a key is in some other map) do not feed back into them.
  */

  /** Position i holds a key starting with c. */
  predicate KeyStartsAt(nodes: Entries, i: int, c: char)
  {
    0 <= i < |nodes| && |nodes[i].0| > 0 && nodes[i].0[0] == c
  }

  /** Position i holds a datatype. */
  predicate DataTypeAt(nodes: Entries, i: int)
  {
    0 <= i < |nodes| && nodes[i].1.DataTypeNode?
  }

  /** Pool entry j carries an annotation. */
  predicate AnnotatedAt(pool: seq<PoolEntry>, j: int)
  {
    0 <= j < |pool| && pool[j].annotation.Some?
  }

  /** Position i holds an association. */
  predicate AssociationAt(nodes: Entries, i: int)
  {
    0 <= i < |nodes| && nodes[i].1.AssociationNode?
  }

  /**
    The bookkeeping that keeps identifiers fresh. Keys made from a random token start
    with '0', datatype keys with 'd', parameter keys with 'o', association keys with 'A'.
    Every 'd' key is a key of the datatype map, whose keys are datatype_0, datatype_1, ...;
    every 'A' key is "ASSOC_" followed by a key that was set before it.
  */
  predicate KeysOk(nodes: Entries, dts: seq<(string, string)>)
  {
    KeysDistinct(nodes) &&
    (forall i :: 0 <= i < |nodes| ==> |nodes[i].0| > 0) &&
    (forall j :: 0 <= j < |dts| ==> dts[j].0 == Suffixed("datatype", j)) &&
    (forall i {:trigger KeyStartsAt(nodes, i, 'd')} :: 0 <= i < |nodes| && KeyStartsAt(nodes, i, 'd') ==>
       nodes[i].0 in DataTypeKeys(dts)) &&
    (forall i {:trigger KeyStartsAt(nodes, i, 'A')} :: 0 <= i < |nodes| && KeyStartsAt(nodes, i, 'A') ==>
       |nodes[i].0| >= 6 && nodes[i].0[6..] in Keys(nodes[..i]))
  }

  /** The registry starts with the input classes, in input order, and holds no other class. */
  predicate ClassesAt(classes: seq<ClassDecl>, ids: seq<string>, nodes: Entries)
  {
    |ids| == |classes| <= |nodes| &&
    (forall k :: 0 <= k < |classes| ==>
       nodes[k].0 == ids[k] && nodes[k].1.ClassNode? && nodes[k].1.id == ids[k] &&
       nodes[k].1.name == classes[k].name) &&
    (forall i :: |classes| <= i < |nodes| ==> !nodes[i].1.ClassNode?)
  }

  /**
    The datatype map and the datatype nodes of the registry hold the same datatypes;
    their names are distinct and none is the name of an input class.
  */
  predicate DataTypesOk(classes: seq<ClassDecl>, nodes: Entries, dts: seq<(string, string)>)
  {
    (forall j :: 0 <= j < |dts| ==>
       (dts[j].0, DataTypeNode(dts[j].0, dts[j].1)) in nodes) &&
    (forall i {:trigger DataTypeAt(nodes, i)} :: 0 <= i < |nodes| && DataTypeAt(nodes, i) ==>
       nodes[i].1.id == nodes[i].0 && (nodes[i].0, nodes[i].1.name) in dts) &&
    (forall j, k :: 0 <= j < k < |dts| ==> dts[j].1 != dts[k].1) &&
    (forall j :: 0 <= j < |dts| ==> !IsClassName(classes, dts[j].1))
  }

  /** An annotation written into pool entry j. */
  predicate AnnotationOk(model: CodeModel, ids: seq<string>, st: State, j: nat, a: Association)
    requires |ids| == |model.classes| && j < |st.pool|
  {
    var e := st.pool[j];
    PoolIndex(st.pool, e.fromName, e.toName) == Some(j) &&
    (a.id, AssociationNode(a)) in st.nodes &&
    !a.navigable &&
    (exists c :: 0 <= c < |model.classes| && model.classes[c].name == e.fromName && a.fromId == ids[c]) &&
    ClassIndex(model.classes, e.toName).Some? &&
    a.toId == ids[ClassIndex(model.classes, e.toName).value]
  }

  /**
    The pool keeps the parser's descriptors; only the first descriptor of a name pair is
    ever annotated, and the registry's association nodes are exactly the annotations.
  */
  predicate PoolOk(model: CodeModel, ids: seq<string>, st: State)
    requires |ids| == |model.classes|
  {
    |st.pool| == |model.associations| &&
    (forall j :: 0 <= j < |st.pool| ==>
       st.pool[j].fromName == model.associations[j].fromName &&
       st.pool[j].toName == model.associations[j].toName) &&
    (forall j {:trigger AnnotatedAt(st.pool, j)} :: 0 <= j < |st.pool| && AnnotatedAt(st.pool, j) ==>
       AnnotationOk(model, ids, st, j, st.pool[j].annotation.value)) &&
    (forall i {:trigger AssociationAt(st.nodes, i)} :: 0 <= i < |st.nodes| && AssociationAt(st.nodes, i) ==>
       st.nodes[i].0 == st.nodes[i].1.association.id &&
       exists j :: 0 <= j < |st.pool| && st.pool[j].annotation == Some(st.nodes[i].1.association))
  }

  predicate Inv(model: CodeModel, ids: seq<string>, st: State)
  {
    KeysOk(st.nodes, st.dataTypes) && ClassesAt(model.classes, ids, st.nodes) &&
    DataTypesOk(model.classes, st.nodes, st.dataTypes) &&
    PoolOk(model, ids, st)
  }

  /** Entries after the classes never change once added; the datatype map only grows. */
  predicate Grows(n: nat, st: State, st': State)
  {
    |st.nodes| <= |st'.nodes| &&
    (forall i :: n <= i < |st.nodes| ==> st'.nodes[i] == st.nodes[i]) &&
    st.dataTypes <= st'.dataTypes
  }

  // ---------------------------------------------------------------------------
  // Lemmas about lookups

  lemma TagClass(n: Node)
    ensures TypeTag(n) == TYPE_CLASS <==> n.ClassNode?
  {
  }

  lemma TagDataType(n: Node)
    ensures TypeTag(n) == TYPE_EXT_DATA_TYPE <==> n.DataTypeNode?
  {
  }

  /** findXmiNode(name, TYPE_CLASS) finds the first input class of that name. */
  lemma LookupClass(classes: seq<ClassDecl>, ids: seq<string>, nodes: Entries, name: string)
    requires ClassesAt(classes, ids, nodes)
    ensures FirstMatch(nodes, name, Some(TYPE_CLASS)) == ClassIndex(classes, name)
  {
    forall i | 0 <= i < |nodes|
      ensures Matches(nodes[i].1, name, Some(TYPE_CLASS)) <==> i < |classes| && classes[i].name == name
    {
      TagClass(nodes[i].1);
    }
  }

  /** findXmiNode(name, TYPE_EXT_DATA_TYPE) finds the datatype of that name, if there is one. */
  lemma LookupDataType(classes: seq<ClassDecl>, st: State, name: string)
    requires DataTypesOk(classes, st.nodes, st.dataTypes)
    ensures var f := FirstMatch(st.nodes, name, Some(TYPE_EXT_DATA_TYPE));
            (f.None? <==> forall j :: 0 <= j < |st.dataTypes| ==> st.dataTypes[j].1 != name) &&
            (f.Some? ==> st.nodes[f.value].1 == DataTypeNode(st.nodes[f.value].0, name) &&
                         (st.nodes[f.value].0, name) in st.dataTypes)
  {
    var f := FirstMatch(st.nodes, name, Some(TYPE_EXT_DATA_TYPE));
    if f.Some? {
      TagDataType(st.nodes[f.value].1);
      assert DataTypeAt(st.nodes, f.value);
    } else {
      forall j | 0 <= j < |st.dataTypes| ensures st.dataTypes[j].1 != name {
        var d := st.dataTypes[j];
        var i :| 0 <= i < |st.nodes| && st.nodes[i] == (d.0, DataTypeNode(d.0, d.1));
        TagDataType(st.nodes[i].1);
        assert !Matches(st.nodes[i].1, name, Some(TYPE_EXT_DATA_TYPE));
      }
    }
  }

  /** The datatypes named `name`, if any, all have the given id (names are distinct). */
  lemma DataTypeNamedUnique(classes: seq<ClassDecl>, st: State, id: string, id': string, name: string)
    requires DataTypesOk(classes, st.nodes, st.dataTypes)
    requires (id, name) in st.dataTypes && (id', name) in st.dataTypes
    ensures id == id'
  {
  }

  // ---------------------------------------------------------------------------
  // Helper lemmas about growing the state

  lemma SetExisting(nodes: Entries, i: nat, v: Node)
    requires KeysDistinct(nodes) && i < |nodes|
    ensures Set(nodes, nodes[i].0, v) == nodes[i := (nodes[i].0, v)]
  {
    assert nodes[i].0 in Keys(nodes) by { assert Keys(nodes)[i] == nodes[i].0; }
  }

  lemma InPrefix<T>(x: T, a: seq<T>, b: seq<T>)
    requires x in a && a <= b
    ensures x in b
  {
    var i :| 0 <= i < |a| && a[i] == x;
    assert b[i] == x;
  }

  /** What a name resolves to stays so while the datatype map grows. */
  lemma ResolvesGrows(classes: seq<ClassDecl>, ids: seq<string>, dts: seq<(string, string)>,
                      dts': seq<(string, string)>, name: string, target: string)
    requires |ids| == |classes| && dts <= dts'
    requires Resolves(classes, ids, dts, name, target)
    ensures Resolves(classes, ids, dts', name, target)
  {
    if ClassIndex(classes, name).None? {
      InPrefix((target, name), dts, dts');
    }
  }

  // ---------------------------------------------------------------------------
  // addExtDataType and datatype resolution

  /** A fresh datatype id is the number of datatypes so far. */
  lemma DataTypeIdIsCount(dts: seq<(string, string)>, id: string)
    requires forall j :: 0 <= j < |dts| ==> dts[j].0 == Suffixed("datatype", j)
    requires id !in DataTypeKeys(dts)
    requires exists i: nat :: id == Suffixed("datatype", i) &&
                              forall j :: 0 <= j < i ==> Suffixed("datatype", j) in DataTypeKeys(dts)
    ensures id == Suffixed("datatype", |dts|)
  {
    var ks := DataTypeKeys(dts);
    var i: nat :| id == Suffixed("datatype", i) &&
                  forall j :: 0 <= j < i ==> Suffixed("datatype", j) in ks;
    if i > |dts| {
      assert Suffixed("datatype", |dts|) in ks;
      var m :| 0 <= m < |ks| && ks[m] == Suffixed("datatype", |dts|);
      SuffixedInjective("datatype", m, |dts|);
    }
  }

  /**
    addExtDataType: a new datatype gets the least free `datatype_<n>` of the datatype map
    and is set in both maps. The new key is not in the registry either, so both sets append.
  */
  method AddExtDataType(model: CodeModel, ids: seq<string>, st: State, name: string)
    returns (st': State, id: string)
    requires Inv(model, ids, st)
    requires !IsClassName(model.classes, name)
    requires forall j :: 0 <= j < |st.dataTypes| ==> st.dataTypes[j].1 != name
    ensures id == Suffixed("datatype", |st.dataTypes|)
    ensures st' == st.(nodes := st.nodes + [(id, DataTypeNode(id, name))],
                       dataTypes := st.dataTypes + [(id, name)])
    ensures Inv(model, ids, st')
  {
    id := NewNodeCustomId(DataTypeKeys(st.dataTypes), "datatype");
    DataTypeIdIsCount(st.dataTypes, id);
    assert id[0] == 'd' by { assert id[..8] == "datatype"; }
    forall m | 0 <= m < |st.nodes| ensures st.nodes[m].0 != id {
      if KeyStartsAt(st.nodes, m, 'd') {
        assert st.nodes[m].0 in DataTypeKeys(st.dataTypes);
      }
    }
    st' := st.(nodes := Set(st.nodes, id, DataTypeNode(id, name)),
               dataTypes := st.dataTypes + [(id, name)]);
    InvAddDataType(model, ids, st, id, name);
  }

  lemma InvAddDataType(model: CodeModel, ids: seq<string>, st: State, id: string, name: string)
    requires Inv(model, ids, st)
    requires !IsClassName(model.classes, name)
    requires forall j :: 0 <= j < |st.dataTypes| ==> st.dataTypes[j].1 != name
    requires id == Suffixed("datatype", |st.dataTypes|) && id !in Keys(st.nodes)
    ensures Inv(model, ids, st.(nodes := st.nodes + [(id, DataTypeNode(id, name))],
                                dataTypes := st.dataTypes + [(id, name)]))
  {
    var dts := st.dataTypes + [(id, name)];
    var nodes := st.nodes + [(id, DataTypeNode(id, name))];
    var st' := st.(nodes := nodes, dataTypes := dts);
    KeysOkAddDataType(st, id, name);
    assert ClassesAt(model.classes, ids, st'.nodes);
    DataTypesOkAdd(model.classes, st, id, name);
    PoolOkAppend(model, ids, st, st');
  }

  lemma DataTypesOkAdd(classes: seq<ClassDecl>, st: State, id: string, name: string)
    requires DataTypesOk(classes, st.nodes, st.dataTypes)
    requires !IsClassName(classes, name)
    requires forall j :: 0 <= j < |st.dataTypes| ==> st.dataTypes[j].1 != name
    ensures DataTypesOk(classes, st.nodes + [(id, DataTypeNode(id, name))], st.dataTypes + [(id, name)])
  {
    var dts := st.dataTypes + [(id, name)];
    var nodes := st.nodes + [(id, DataTypeNode(id, name))];
    {
      forall j | 0 <= j < |dts| ensures (dts[j].0, DataTypeNode(dts[j].0, dts[j].1)) in nodes {
        if j < |st.dataTypes| {
          var d := st.dataTypes[j];
          var i :| 0 <= i < |st.nodes| && st.nodes[i] == (d.0, DataTypeNode(d.0, d.1));
          assert nodes[i] == st.nodes[i];
        } else {
          assert nodes[|st.nodes|] == (id, DataTypeNode(id, name));
        }
      }
      forall i | 0 <= i < |nodes| && DataTypeAt(nodes, i)
        ensures nodes[i].1.id == nodes[i].0 && (nodes[i].0, nodes[i].1.name) in dts
      {
        if i < |st.nodes| {
          assert DataTypeAt(st.nodes, i);
          InPrefix((nodes[i].0, nodes[i].1.name), st.dataTypes, dts);
        } else {
          assert dts[|st.dataTypes|] == (id, name);
        }
      }
    }
  }

  lemma KeysOkAddDataType(st: State, id: string, name: string)
    requires KeysOk(st.nodes, st.dataTypes)
    requires id == Suffixed("datatype", |st.dataTypes|) && id !in Keys(st.nodes)
    ensures KeysOk(st.nodes + [(id, DataTypeNode(id, name))], st.dataTypes + [(id, name)])
  {
    var st' := st.(nodes := st.nodes + [(id, DataTypeNode(id, name))],
                   dataTypes := st.dataTypes + [(id, name)]);
    assert id[..8] == "datatype";
    assert KeysDistinct(st'.nodes) by {
      forall i | 0 <= i < |st.nodes| ensures st.nodes[i].0 != id {
        assert Keys(st.nodes)[i] == st.nodes[i].0;
      }
    }
    forall i | 0 <= i < |st'.nodes| && KeyStartsAt(st'.nodes, i, 'd')
      ensures st'.nodes[i].0 in DataTypeKeys(st'.dataTypes)
    {
      if i < |st.nodes| {
        assert KeyStartsAt(st.nodes, i, 'd');
        var m :| 0 <= m < |st.dataTypes| && DataTypeKeys(st.dataTypes)[m] == st.nodes[i].0;
        assert DataTypeKeys(st'.dataTypes)[m] == st.nodes[i].0;
      } else {
        assert DataTypeKeys(st'.dataTypes)[|st.dataTypes|] == id;
      }
    }
    forall i | 0 <= i < |st'.nodes| && KeyStartsAt(st'.nodes, i, 'A')
      ensures |st'.nodes[i].0| >= 6 && st'.nodes[i].0[6..] in Keys(st'.nodes[..i])
    {
      assert KeyStartsAt(st.nodes, i, 'A');
      assert st'.nodes[..i] == st.nodes[..i];
    }
  }

  /** Appending entries that are neither associations nor classes keeps the pool invariant. */
  lemma PoolOkAppend(model: CodeModel, ids: seq<string>, st: State, st': State)
    requires |ids| == |model.classes| && PoolOk(model, ids, st)
    requires st'.pool == st.pool && st.nodes <= st'.nodes
    requires forall i :: |st.nodes| <= i < |st'.nodes| ==> !st'.nodes[i].1.AssociationNode?
    ensures PoolOk(model, ids, st')
  {
    forall j | 0 <= j < |st.pool| && AnnotatedAt(st.pool, j)
      ensures AnnotationOk(model, ids, st', j, st.pool[j].annotation.value)
    {
      var a := st.pool[j].annotation.value;
      InPrefix((a.id, AssociationNode(a)), st.nodes, st'.nodes);
    }
    forall i | 0 <= i < |st'.nodes| && AssociationAt(st'.nodes, i)
      ensures st'.nodes[i].0 == st'.nodes[i].1.association.id &&
              exists j :: 0 <= j < |st'.pool| && st'.pool[j].annotation == Some(st'.nodes[i].1.association)
    {
      assert AssociationAt(st.nodes, i);
    }
  }

  // ---------------------------------------------------------------------------
  // Preserving the invariant when an entry is appended or a registered object changes

  /** Appending a fresh entry that is not a class, datatype or association. */
  lemma InvAppend(model: CodeModel, ids: seq<string>, st: State, key: string, v: Node)
    requires Inv(model, ids, st)
    requires key !in Keys(st.nodes) && |key| > 0 && key[0] != 'd' && key[0] != 'A'
    requires !v.ClassNode? && !v.DataTypeNode? && !v.AssociationNode?
    ensures Inv(model, ids, st.(nodes := st.nodes + [(key, v)]))
  {
    var st' := st.(nodes := st.nodes + [(key, v)]);
    KeysOkAppend(st, key, v);
    DataTypesOkAppend(model.classes, st, key, v);
    PoolOkAppend(model, ids, st, st');
  }

  lemma KeysOkAppend(st: State, key: string, v: Node)
    requires KeysOk(st.nodes, st.dataTypes)
    requires key !in Keys(st.nodes) && |key| > 0 && key[0] != 'd'
    requires key[0] == 'A' ==> |key| >= 6 && key[6..] in Keys(st.nodes)
    ensures KeysOk(st.nodes + [(key, v)], st.dataTypes)
  {
    var nodes := st.nodes + [(key, v)];
    assert KeysDistinct(nodes) by {
      forall i | 0 <= i < |st.nodes| ensures st.nodes[i].0 != key {
        assert Keys(st.nodes)[i] == st.nodes[i].0;
      }
    }
    forall i | 0 <= i < |nodes| && KeyStartsAt(nodes, i, 'd')
      ensures nodes[i].0 in DataTypeKeys(st.dataTypes)
    {
      assert KeyStartsAt(st.nodes, i, 'd');
    }
    forall i | 0 <= i < |nodes| && KeyStartsAt(nodes, i, 'A')
      ensures |nodes[i].0| >= 6 && nodes[i].0[6..] in Keys(nodes[..i])
    {
      if i < |st.nodes| {
        assert KeyStartsAt(st.nodes, i, 'A');
        assert nodes[..i] == st.nodes[..i];
      } else {
        assert nodes[..i] == st.nodes;
      }
    }
  }

  lemma DataTypesOkAppend(classes: seq<ClassDecl>, st: State, key: string, v: Node)
    requires DataTypesOk(classes, st.nodes, st.dataTypes) && !v.DataTypeNode?
    ensures DataTypesOk(classes, st.nodes + [(key, v)], st.dataTypes)
  {
    var nodes := st.nodes + [(key, v)];
    forall j | 0 <= j < |st.dataTypes|
      ensures (st.dataTypes[j].0, DataTypeNode(st.dataTypes[j].0, st.dataTypes[j].1)) in nodes
    {
      InPrefix((st.dataTypes[j].0, DataTypeNode(st.dataTypes[j].0, st.dataTypes[j].1)), st.nodes, nodes);
    }
    forall i | 0 <= i < |nodes| && DataTypeAt(nodes, i)
      ensures nodes[i].1.id == nodes[i].0 && (nodes[i].0, nodes[i].1.name) in st.dataTypes
    {
      assert DataTypeAt(st.nodes, i);
    }
  }

  /** Changing a registered object other than a class, datatype or association. */
  lemma InvUpdateMember(model: CodeModel, ids: seq<string>, st: State, i: nat, v: Node)
    requires Inv(model, ids, st) && |model.classes| <= i < |st.nodes|
    requires !st.nodes[i].1.DataTypeNode? && !st.nodes[i].1.AssociationNode?
    requires !v.ClassNode? && !v.DataTypeNode? && !v.AssociationNode?
    ensures Inv(model, ids, st.(nodes := st.nodes[i := (st.nodes[i].0, v)]))
  {
    InvUpdate(model, ids, st, i, v);
  }

  /** Changing the class object registered at position k, keeping its id and name. */
  lemma InvUpdateClass(model: CodeModel, ids: seq<string>, st: State, k: nat, v: Node)
    requires Inv(model, ids, st) && k < |model.classes|
    requires v.ClassNode? && v.id == ids[k] && v.name == model.classes[k].name
    ensures Inv(model, ids, st.(nodes := st.nodes[k := (st.nodes[k].0, v)]))
  {
    InvUpdate(model, ids, st, k, v);
  }

  lemma InvUpdate(model: CodeModel, ids: seq<string>, st: State, i: nat, v: Node)
    requires Inv(model, ids, st) && i < |st.nodes|
    requires !st.nodes[i].1.DataTypeNode? && !st.nodes[i].1.AssociationNode?
    requires !v.DataTypeNode? && !v.AssociationNode?
    requires i < |model.classes| ==> v.ClassNode? && v.id == ids[i] && v.name == model.classes[i].name
    requires i >= |model.classes| ==> !v.ClassNode?
    ensures Inv(model, ids, st.(nodes := st.nodes[i := (st.nodes[i].0, v)]))
  {
    var nodes := st.nodes[i := (st.nodes[i].0, v)];
    KeysOkUpdate(st, i, v);
    assert ClassesAt(model.classes, ids, nodes);
    DataTypesOkUpdate(model.classes, st, i, v);
    PoolOkUpdate(model, ids, st, i, v);
  }

  lemma KeysOkUpdate(st: State, i: nat, v: Node)
    requires KeysOk(st.nodes, st.dataTypes) && i < |st.nodes|
    ensures KeysOk(st.nodes[i := (st.nodes[i].0, v)], st.dataTypes)
  {
    var nodes := st.nodes[i := (st.nodes[i].0, v)];
    assert Keys(nodes) == Keys(st.nodes);
    forall m | 0 <= m < |nodes| && KeyStartsAt(nodes, m, 'd')
      ensures nodes[m].0 in DataTypeKeys(st.dataTypes)
    {
      assert KeyStartsAt(st.nodes, m, 'd');
    }
    forall m | 0 <= m < |nodes| && KeyStartsAt(nodes, m, 'A')
      ensures |nodes[m].0| >= 6 && nodes[m].0[6..] in Keys(nodes[..m])
    {
      assert KeyStartsAt(st.nodes, m, 'A');
      assert Keys(nodes[..m]) == Keys(st.nodes[..m]);
    }
  }

  lemma DataTypesOkUpdate(classes: seq<ClassDecl>, st: State, i: nat, v: Node)
    requires DataTypesOk(classes, st.nodes, st.dataTypes) && i < |st.nodes|
    requires !st.nodes[i].1.DataTypeNode? && !v.DataTypeNode?
    ensures DataTypesOk(classes, st.nodes[i := (st.nodes[i].0, v)], st.dataTypes)
  {
    var nodes := st.nodes[i := (st.nodes[i].0, v)];
    forall j | 0 <= j < |st.dataTypes|
      ensures (st.dataTypes[j].0, DataTypeNode(st.dataTypes[j].0, st.dataTypes[j].1)) in nodes
    {
      var d := st.dataTypes[j];
      var m :| 0 <= m < |st.nodes| && st.nodes[m] == (d.0, DataTypeNode(d.0, d.1));
      assert nodes[m] == st.nodes[m];
    }
    forall m | 0 <= m < |nodes| && DataTypeAt(nodes, m)
      ensures nodes[m].1.id == nodes[m].0 && (nodes[m].0, nodes[m].1.name) in st.dataTypes
    {
      assert DataTypeAt(st.nodes, m);
    }
  }

  lemma PoolOkUpdate(model: CodeModel, ids: seq<string>, st: State, i: nat, v: Node)
    requires |ids| == |model.classes| && PoolOk(model, ids, st) && i < |st.nodes|
    requires !st.nodes[i].1.AssociationNode? && !v.AssociationNode?
    ensures PoolOk(model, ids, st.(nodes := st.nodes[i := (st.nodes[i].0, v)]))
  {
    var nodes := st.nodes[i := (st.nodes[i].0, v)];
    var st' := st.(nodes := nodes);
    forall j | 0 <= j < |st.pool| && AnnotatedAt(st.pool, j)
      ensures AnnotationOk(model, ids, st', j, st.pool[j].annotation.value)
    {
      var a := st.pool[j].annotation.value;
      var m :| 0 <= m < |st.nodes| && st.nodes[m] == (a.id, AssociationNode(a));
      assert nodes[m] == st.nodes[m];
    }
    forall m | 0 <= m < |nodes| && AssociationAt(nodes, m)
      ensures nodes[m].0 == nodes[m].1.association.id &&
              exists j :: 0 <= j < |st.pool| && st.pool[j].annotation == Some(nodes[m].1.association)
    {
      assert AssociationAt(st.nodes, m);
    }
  }

  // ---------------------------------------------------------------------------
  // Resolving a type name that is not a class name (src/model-transform.ts:249-254, 305-311)

  /** `name` is neither a class nor the name of a datatype in `dataTypes`. */
  predicate NewTypeName(classes: seq<ClassDecl>, dataTypes: seq<(string, string)>, name: string)
  {
    !IsClassName(classes, name) && forall j :: 0 <= j < |dataTypes| ==> dataTypes[j].1 != name
  }

  /** The datatype map after resolving `name`: a new type name gets the next `datatype_<n>`. */
  function AddTypeName(classes: seq<ClassDecl>, dataTypes: seq<(string, string)>, name: string)
    : seq<(string, string)>
  {
    if NewTypeName(classes, dataTypes, name)
    then dataTypes + [(Suffixed("datatype", |dataTypes|), name)]
    else dataTypes
  }

  /** The registry entries of a run of datatypes, each under its own id. */
  function DataTypeEntries(dts: seq<(string, string)>): (es: Entries)
    ensures |es| == |dts|
    ensures forall i :: 0 <= i < |dts| ==> es[i] == (dts[i].0, DataTypeNode(dts[i].0, dts[i].1))
  {
    seq(|dts|, i requires 0 <= i < |dts| => (dts[i].0, DataTypeNode(dts[i].0, dts[i].1)))
  }

  /**
    The state after resolving type name `name`: unchanged for a class or a known datatype,
    otherwise the next datatype is added to the map and set in the registry.
  */
  function TypeResolved(classes: seq<ClassDecl>, st: State, name: string): State
  {
    if NewTypeName(classes, st.dataTypes, name) then
      var id := Suffixed("datatype", |st.dataTypes|);
      st.(nodes := st.nodes + [(id, DataTypeNode(id, name))], dataTypes := st.dataTypes + [(id, name)])
    else st
  }

  /** Resolving a type name appends to the registry exactly the entries of the datatypes it adds. */
  lemma TypeResolvedEntries(classes: seq<ClassDecl>, st: State, name: string)
    ensures var s := TypeResolved(classes, st, name);
            s.pool == st.pool && s.draws == st.draws &&
            s.dataTypes == AddTypeName(classes, st.dataTypes, name) &&
            s.nodes == st.nodes + DataTypeEntries(s.dataTypes[|st.dataTypes|..])
  {
    var s := TypeResolved(classes, st, name);
    if NewTypeName(classes, st.dataTypes, name) {
      assert s.dataTypes[|st.dataTypes|..] == [s.dataTypes[|st.dataTypes|]];
    } else {
      assert s.dataTypes[|st.dataTypes|..] == [];
    }
  }

  /**
    The datatype branch of type resolution: reuse the datatype of that name if the registry
    has one, otherwise add one.
  */
  method ResolveDataType(model: CodeModel, ids: seq<string>, st: State, name: string)
    returns (st': State, target: string)
    requires Inv(model, ids, st) && !IsClassName(model.classes, name)
    ensures Inv(model, ids, st') && st' == TypeResolved(model.classes, st, name)
    ensures (target, name) in st'.dataTypes
    ensures (exists j :: 0 <= j < |st.dataTypes| && st.dataTypes[j].1 == name) ==> st' == st
    ensures (forall j :: 0 <= j < |st.dataTypes| ==> st.dataTypes[j].1 != name) ==>
              target == Suffixed("datatype", |st.dataTypes|) &&
              st' == st.(nodes := st.nodes + [(target, DataTypeNode(target, name))],
                         dataTypes := st.dataTypes + [(target, name)])
  {
    var found := FindXmiNode(st.nodes, name, Some(TYPE_EXT_DATA_TYPE));
    LookupDataType(model.classes, st, name);
    if found.Some? {
      target := found.value.id;
      st' := st;
    } else {
      st', target := AddExtDataType(model, ids, st, name);
      assert st'.dataTypes[|st.dataTypes|] == (target, name);
    }
  }
}

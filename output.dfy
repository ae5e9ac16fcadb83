/**
  What the XML object tree of a registry produced by `transformModel` satisfies: the
  classes appear in input order, the ids of the package-level elements are unique, and
  every reference to a type, a general class or an association end names an element of
  the same document.
*/
module Output {
  import opened Wrappers
  import opened Registry
  import opened Transform
  import opened Generalize
  import opened Annotate
  import opened Pass
  import opened Render

  /** Some class or datatype element of the document carries xmi:id `id`. */
  ghost predicate Defined(nodes: Entries, id: string)
  {
    exists e :: (e in Rendered(nodes, TYPE_CLASS) || e in Rendered(nodes, TYPE_EXT_DATA_TYPE)) &&
                Attr(e, "xmi:id") == Some(id)
  }

  /** Some class element of the document carries xmi:id `id`. */
  ghost predicate ClassElementDefined(nodes: Entries, id: string)
  {
    exists e :: e in Rendered(nodes, TYPE_CLASS) && Attr(e, "xmi:id") == Some(id)
  }

  /** The classes, the associations and the datatypes, each rendered with the key as xmi:id. */
  lemma ElementId(model: CodeModel, ids: seq<string>, st: State, i: nat)
    requires Inv(model, ids, st) && i < |st.nodes|
    requires st.nodes[i].1.ClassNode? || st.nodes[i].1.AssociationNode? || st.nodes[i].1.DataTypeNode?
    ensures Attr(NodeElement(st.nodes[i].1), "xmi:id") == Some(st.nodes[i].0)
  {
    var n := st.nodes[i].1;
    if n.ClassNode? {
      assert i < |model.classes|;
    } else if n.AssociationNode? {
      assert AssociationAt(st.nodes, i);
    } else {
      assert DataTypeAt(st.nodes, i);
    }
  }

  /** A resolved type name names a class or datatype element of the document. */
  lemma ResolvesDefined(model: CodeModel, ids: seq<string>, st: State, name: string, target: string)
    requires Inv(model, ids, st) && Resolves(model.classes, ids, st.dataTypes, name, target)
    ensures Defined(st.nodes, target)
  {
    match ClassIndex(model.classes, name)
    case Some(c) =>
      TagClass(st.nodes[c].1);
      RenderedComplete(st.nodes, TYPE_CLASS, c);
      ElementId(model, ids, st, c);
      assert NodeElement(st.nodes[c].1) in Rendered(st.nodes, TYPE_CLASS);
    case None =>
      var j :| 0 <= j < |st.dataTypes| && st.dataTypes[j] == (target, name);
      var i :| 0 <= i < |st.nodes| && st.nodes[i] == (target, DataTypeNode(target, name));
      TagDataType(st.nodes[i].1);
      RenderedComplete(st.nodes, TYPE_EXT_DATA_TYPE, i);
      ElementId(model, ids, st, i);
      assert NodeElement(st.nodes[i].1) in Rendered(st.nodes, TYPE_EXT_DATA_TYPE);
  }

  /** The package lists one element per input class, first and in input order. */
  lemma ClassElementsInOrder(model: CodeModel, ids: seq<string>, st: State)
    requires Inv(model, ids, st)
    ensures |Rendered(st.nodes, TYPE_CLASS)| == |model.classes|
    ensures forall k :: 0 <= k < |model.classes| ==>
              var c := st.nodes[k].1;
              Rendered(st.nodes, TYPE_CLASS)[k] ==
                ClassElement(ids[k], model.classes[k].name, c.generalization, c.properties, c.methods)
  {
    var n := |model.classes|;
    forall i | n <= i < |st.nodes| ensures TypeTag(st.nodes[i].1) != TYPE_CLASS {
      TagClass(st.nodes[i].1);
    }
    RenderedPrefix(st.nodes, n, TYPE_CLASS);
    forall i | 0 <= i < n ensures TypeTag(st.nodes[..n][i].1) == TYPE_CLASS {
      TagClass(st.nodes[i].1);
    }
    RenderedAll(st.nodes[..n], TYPE_CLASS);
  }

  /** The class, association and datatype elements in document order. */
  function TopElements(nodes: Entries): seq<Element>
  {
    Rendered(nodes, TYPE_CLASS) + Rendered(nodes, TYPE_ASSOCIATION) + Rendered(nodes, TYPE_EXT_DATA_TYPE)
  }

  /**
    The document's top-level elements: the package holds the class and association
    elements after its attributes, and the datatype elements follow the package.
  */
  lemma DocumentTop(nodes: Entries)
    ensures var doc := Document(nodes);
            |doc.children| >= 2 && doc.children[1].tag == "uml:Package" &&
            doc.children[1].children + doc.children[2..] == TopElements(nodes)
  {
  }

  /** Position i holds a value rendered at package level or as a datatype. */
  predicate TopLevelAt(nodes: Entries, i: int)
  {
    0 <= i < |nodes| &&
    (TypeTag(nodes[i].1) == TYPE_CLASS || TypeTag(nodes[i].1) == TYPE_ASSOCIATION ||
     TypeTag(nodes[i].1) == TYPE_EXT_DATA_TYPE)
  }

  /**
    No two class, association or datatype elements of the document share an xmi:id:
    they render distinct registry entries, each under its key.
  */
  lemma TopIdsDistinct(model: CodeModel, ids: seq<string>, st: State)
    requires Inv(model, ids, st)
    ensures var top := TopElements(st.nodes);
            forall a, b :: 0 <= a < b < |top| ==> Attr(top[a], "xmi:id") != Attr(top[b], "xmi:id")
  {
    forall i | 0 <= i < |st.nodes| && TopLevelAt(st.nodes, i)
      ensures Attr(NodeElement(st.nodes[i].1), "xmi:id") == Some(st.nodes[i].0)
    {
      TagClass(st.nodes[i].1);
      TagDataType(st.nodes[i].1);
      if TypeTag(st.nodes[i].1) == TYPE_ASSOCIATION {
        TypeTagInjective(st.nodes[i].1, AssociationNode(Association("", Public, "", "", false)));
      }
      ElementId(model, ids, st, i);
    }
    KeyedIdsDistinct(st.nodes);
  }

  /** TopIdsDistinct for any registry whose keys are distinct and whose top-level values render under their keys. */
  lemma KeyedIdsDistinct(nodes: Entries)
    requires KeysDistinct(nodes)
    requires forall i :: 0 <= i < |nodes| && TopLevelAt(nodes, i) ==>
               Attr(NodeElement(nodes[i].1), "xmi:id") == Some(nodes[i].0)
    ensures var top := TopElements(nodes);
            forall a, b :: 0 <= a < b < |top| ==> Attr(top[a], "xmi:id") != Attr(top[b], "xmi:id")
  {
    var pc, pa, pd := TopPositions(nodes);
    var top := TopElements(nodes);
    forall a, b | 0 <= a < b < |top|
      ensures Attr(top[a], "xmi:id") != Attr(top[b], "xmi:id")
    {
      PositionsDistinct(nodes, pc, pa, pd, a, b);
    }
  }

  /** The registry positions the elements of TopElements come from, rendering by rendering. */
  lemma TopPositions(nodes: Entries) returns (pc: seq<nat>, pa: seq<nat>, pd: seq<nat>)
    ensures forall x :: 0 <= x < |pc| ==> pc[x] < |nodes| && TypeTag(nodes[pc[x]].1) == TYPE_CLASS
    ensures forall x :: 0 <= x < |pa| ==> pa[x] < |nodes| && TypeTag(nodes[pa[x]].1) == TYPE_ASSOCIATION
    ensures forall x :: 0 <= x < |pd| ==> pd[x] < |nodes| && TypeTag(nodes[pd[x]].1) == TYPE_EXT_DATA_TYPE
    ensures forall x, y :: 0 <= x < y < |pc| ==> pc[x] < pc[y]
    ensures forall x, y :: 0 <= x < y < |pa| ==> pa[x] < pa[y]
    ensures forall x, y :: 0 <= x < y < |pd| ==> pd[x] < pd[y]
    ensures var top := TopElements(nodes);
            |pc + pa + pd| == |top| &&
            forall a :: 0 <= a < |top| ==> top[a] == NodeElement(nodes[(pc + pa + pd)[a]].1)
  {
    pc := RenderedPositions(nodes, TYPE_CLASS);
    pa := RenderedPositions(nodes, TYPE_ASSOCIATION);
    pd := RenderedPositions(nodes, TYPE_EXT_DATA_TYPE);
    var pos := pc + pa + pd;
    var top := TopElements(nodes);
    var rc, ra, rd := Rendered(nodes, TYPE_CLASS), Rendered(nodes, TYPE_ASSOCIATION), Rendered(nodes, TYPE_EXT_DATA_TYPE);
    forall a | 0 <= a < |top|
      ensures top[a] == NodeElement(nodes[pos[a]].1)
    {
      if a < |pc| {
        assert pos[a] == pc[a] && top[a] == rc[a];
      } else if a < |pc| + |pa| {
        assert pos[a] == pa[a - |pc|] && top[a] == ra[a - |pc|];
      } else {
        assert pos[a] == pd[a - |pc| - |pa|] && top[a] == rd[a - |pc| - |pa|];
      }
    }
  }

  /** Positions drawn from the three renderings are distinct: within one they increase, across them the tags differ. */
  lemma PositionsDistinct(nodes: Entries, pc: seq<nat>, pa: seq<nat>, pd: seq<nat>, a: nat, b: nat)
    requires forall x :: 0 <= x < |pc| ==> pc[x] < |nodes| && TypeTag(nodes[pc[x]].1) == TYPE_CLASS
    requires forall x :: 0 <= x < |pa| ==> pa[x] < |nodes| && TypeTag(nodes[pa[x]].1) == TYPE_ASSOCIATION
    requires forall x :: 0 <= x < |pd| ==> pd[x] < |nodes| && TypeTag(nodes[pd[x]].1) == TYPE_EXT_DATA_TYPE
    requires forall x, y :: 0 <= x < y < |pc| ==> pc[x] < pc[y]
    requires forall x, y :: 0 <= x < y < |pa| ==> pa[x] < pa[y]
    requires forall x, y :: 0 <= x < y < |pd| ==> pd[x] < pd[y]
    requires a < b < |pc + pa + pd|
    ensures (pc + pa + pd)[a] != (pc + pa + pd)[b]
  {
    var pos := pc + pa + pd;
    assert TYPE_CLASS[4] == 'C' && TYPE_EXT_DATA_TYPE[4] == 'D' && TYPE_ASSOCIATION[4] == 'A';
    if b < |pc| {
      assert pos[a] == pc[a] && pos[b] == pc[b];
    } else if b < |pc| + |pa| {
      assert pos[b] == pa[b - |pc|];
      if a >= |pc| {
        assert pos[a] == pa[a - |pc|];
      }
    } else {
      assert pos[b] == pd[b - |pc| - |pa|];
      if a >= |pc| + |pa| {
        assert pos[a] == pd[a - |pc| - |pa|];
      }
    }
  }

  /**
    In a registry produced by the pass, the type of every property and of every typed
    parameter of class k, and the general class of its generalization, name elements of
    the document.
  */
  lemma ClassReferencesDefined(model: CodeModel, ids: seq<string>, st: State, k: nat)
    requires Inv(model, ids, st) && k < |model.classes|
    requires ClassDone(model, ids, st, k) && GenSlotOk(model, ids, st, model.generalizations, k)
    ensures var c := st.nodes[k].1;
            (forall i :: 0 <= i < |c.properties| ==>
               c.properties[i].typ.Some? && Defined(st.nodes, c.properties[i].typ.value.target)) &&
            (forall i, j :: (0 <= i < |c.methods| && 0 <= j < |c.methods[i].parameters| &&
                             c.methods[i].parameters[j].typ.Some?) ==>
               Defined(st.nodes, c.methods[i].parameters[j].typ.value.target)) &&
            (c.generalization.Some? ==> Defined(st.nodes, c.generalization.value.toId))
  {
    var c := st.nodes[k].1;
    forall i | 0 <= i < |c.properties|
      ensures c.properties[i].typ.Some? && Defined(st.nodes, c.properties[i].typ.value.target)
    {
      PropertyTypeDefined(model, ids, st, k, i);
    }
    forall i, j | 0 <= i < |c.methods| && 0 <= j < |c.methods[i].parameters| &&
                  c.methods[i].parameters[j].typ.Some?
      ensures Defined(st.nodes, c.methods[i].parameters[j].typ.value.target)
    {
      ParameterTypeDefined(model, ids, st, k, i, j);
    }
    if c.generalization.Some? {
      var last := LastGenFor(model.classes, model.generalizations, k);
      var g := model.generalizations[last.value];
      ResolvesDefined(model, ids, st, g.toName, c.generalization.value.toId);
    }
  }

  lemma PropertyTypeDefined(model: CodeModel, ids: seq<string>, st: State, k: nat, i: nat)
    requires Inv(model, ids, st) && k < |model.classes| && ClassDone(model, ids, st, k)
    requires i < |st.nodes[k].1.properties|
    ensures st.nodes[k].1.properties[i].typ.Some?
    ensures Defined(st.nodes, st.nodes[k].1.properties[i].typ.value.target)
  {
    var p := st.nodes[k].1.properties[i];
    assert PropertyOk(model, ids, st, k, model.classes[k].properties[i], p);
    ResolvesDefined(model, ids, st, p.typ.value.name, p.typ.value.target);
  }

  lemma ParameterTypeDefined(model: CodeModel, ids: seq<string>, st: State, k: nat, i: nat, j: nat)
    requires Inv(model, ids, st) && k < |model.classes| && ClassDone(model, ids, st, k)
    requires i < |st.nodes[k].1.methods| && j < |st.nodes[k].1.methods[i].parameters|
    requires st.nodes[k].1.methods[i].parameters[j].typ.Some?
    ensures Defined(st.nodes, st.nodes[k].1.methods[i].parameters[j].typ.value.target)
  {
    var m := st.nodes[k].1.methods[i];
    var d := model.classes[k].methods[i];
    assert MethodOk(model, ids, st, d, m);
    if j < |d.parameters| {
      assert ParamOk(model, ids, st, d.parameters[j], m.parameters[j]);
      ResolvesDefined(model, ids, st, d.parameters[j].typeName.value, m.parameters[j].typ.value.target);
    } else {
      assert false;
    }
  }

  /** Both ends of every association of the registry are class elements of the document. */
  lemma AssociationEndsDefined(model: CodeModel, ids: seq<string>, st: State, i: nat)
    requires Inv(model, ids, st) && AssociationAt(st.nodes, i)
    ensures ClassElementDefined(st.nodes, st.nodes[i].1.association.fromId)
    ensures ClassElementDefined(st.nodes, st.nodes[i].1.association.toId)
  {
    var a := st.nodes[i].1.association;
    var j :| 0 <= j < |st.pool| && st.pool[j].annotation == Some(a);
    assert AnnotatedAt(st.pool, j);
    var e := st.pool[j];
    var c :| 0 <= c < |model.classes| && model.classes[c].name == e.fromName && a.fromId == ids[c];
    ClassDefined(model, ids, st, c);
    ClassDefined(model, ids, st, ClassIndex(model.classes, e.toName).value);
  }

  /** The id of class c is the xmi:id of its element. */
  lemma ClassDefined(model: CodeModel, ids: seq<string>, st: State, c: nat)
    requires Inv(model, ids, st) && c < |model.classes|
    ensures ClassElementDefined(st.nodes, ids[c])
  {
    TagClass(st.nodes[c].1);
    RenderedComplete(st.nodes, TYPE_CLASS, c);
    ElementId(model, ids, st, c);
    assert NodeElement(st.nodes[c].1) in Rendered(st.nodes, TYPE_CLASS);
  }
}

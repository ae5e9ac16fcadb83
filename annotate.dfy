/**
  Stage 3 of the annotation pass (src/model-transform.ts:199-316): every class's properties
  and methods are annotated in order, their type names are resolved, and the associations
  of class-typed properties are taken from the pool. Then the whole pass, `transformModel`.
*/
module Annotate {
  import opened Wrappers
  import opened Ids
  import opened Registry
  import opened Transform
  import opened Generalize

  // ---------------------------------------------------------------------------
  // What the input must satisfy

  /** Some association of the pool runs from `from` to `to`. */
  predicate HasAssociation(assocs: seq<AssociationDecl>, from: string, to: string)
  {
    exists j :: 0 <= j < |assocs| && assocs[j].fromName == from && assocs[j].toName == to
  }

  /**
    The error annotating property `d` of class k raises, in the order the source checks:
    an accessibility code outside TSVisibilityMap, a missing type (reading `type.name`
    throws), a class-typed property with no pool association from its class to that type.
  */
  function PropertyError(model: CodeModel, k: nat, d: PropertyDecl): (e: Option<Error>)
    requires k < |model.classes|
    ensures e.Some? ==> e.value in {VisibilityModifierNotFound, PropertyTypeMissing, AssociationNotFound}
  {
    if VisibilityOf(d.accessibility).None? then Some(VisibilityModifierNotFound)
    else if d.typeName.None? then Some(PropertyTypeMissing)
    else if IsClassName(model.classes, d.typeName.value) &&
            !HasAssociation(model.associations, model.classes[k].name, d.typeName.value)
    then Some(AssociationNotFound)
    else None
  }

  // ---------------------------------------------------------------------------
  // How the state may change in stage 3

  /** Pool entries keep their names, and an annotation once written stays. */
  predicate PoolGrows(pool: seq<PoolEntry>, pool': seq<PoolEntry>)
  {
    |pool'| == |pool| &&
    forall j :: 0 <= j < |pool| ==>
      pool'[j].fromName == pool[j].fromName && pool'[j].toName == pool[j].toName &&
      (pool[j].annotation.Some? ==> pool'[j].annotation == pool[j].annotation)
  }

  /** Annotating one member only adds to the registry, the datatype map and the pool. */
  predicate Extends(st: State, s: State)
  {
    st.nodes <= s.nodes && st.dataTypes <= s.dataTypes && PoolGrows(st.pool, s.pool) &&
    st.draws <= s.draws
  }

  lemma ExtendsTrans(a: State, b: State, c: State)
    requires Extends(a, b) && Extends(b, c)
    ensures Extends(a, c)
  {
  }

  /** Only the names of pool entries decide the position the pool lookup returns. */
  lemma {:induction false} PoolIndexNames(pool: seq<PoolEntry>, pool': seq<PoolEntry>, from: string, to: string)
    requires |pool'| == |pool|
    requires forall j :: 0 <= j < |pool| ==>
               pool'[j].fromName == pool[j].fromName && pool'[j].toName == pool[j].toName
    ensures PoolIndex(pool', from, to) == PoolIndex(pool, from, to)
  {
    if pool != [] {
      PoolIndexNames(pool[1..], pool'[1..], from, to);
    }
  }

  /** The pool lookup finds an entry exactly when the input has such an association. */
  lemma PoolIndexHas(model: CodeModel, ids: seq<string>, st: State, from: string, to: string)
    requires |ids| == |model.classes| && PoolOk(model, ids, st)
    ensures PoolIndex(st.pool, from, to).Some? <==> HasAssociation(model.associations, from, to)
  {
    if HasAssociation(model.associations, from, to) {
      var j :| 0 <= j < |model.associations| && model.associations[j].fromName == from &&
               model.associations[j].toName == to;
      assert st.pool[j].fromName == from && st.pool[j].toName == to;
    }
  }

  /** A non-class entry of the registry stays in it while the registry grows. */
  lemma InGrows(model: CodeModel, ids: seq<string>, st: State, s: State, x: (string, Node))
    requires ClassesAt(model.classes, ids, st.nodes) && Grows(|model.classes|, st, s)
    requires x in st.nodes && !x.1.ClassNode?
    ensures x in s.nodes
  {
    var i :| 0 <= i < |st.nodes| && st.nodes[i] == x;
    assert s.nodes[i] == x;
  }

  /** An entry other than the one at position m survives changing position m. */
  lemma InUpdateOther(nodes: Entries, m: nat, y: (string, Node), x: (string, Node))
    requires m < |nodes| && x in nodes && x != nodes[m]
    ensures x in nodes[m := y]
  {
    var i :| 0 <= i < |nodes| && nodes[i] == x;
    assert nodes[m := y][i] == x;
  }

  // ---------------------------------------------------------------------------
  // Associations

  /** "ASSOC_" followed by the newest key is not a key yet: every 'A' key extends an older key. */
  lemma AssocKeyFresh(st: State, pid: string)
    requires KeysOk(st.nodes, st.dataTypes) && |st.nodes| > 0 && st.nodes[|st.nodes| - 1].0 == pid
    ensures "ASSOC_" + pid !in Keys(st.nodes)
  {
    forall i | 0 <= i < |st.nodes| ensures st.nodes[i].0 != "ASSOC_" + pid {
      if KeyStartsAt(st.nodes, i, 'A') {
        var ks := Keys(st.nodes[..i]);
        assert ("ASSOC_" + pid)[6..] == pid;
        assert forall m :: 0 <= m < i ==> ks[m] != pid;
      }
    }
  }

  /** The association written for pool entry j, as the pool invariant sees it. */
  lemma PoolOkAddAssociation(model: CodeModel, ids: seq<string>, st: State, k: nat, j: nat, a: Association)
    requires |ids| == |model.classes| && PoolOk(model, ids, st) && k < |model.classes|
    requires j < |st.pool| && st.pool[j].annotation.None? && st.pool[j].fromName == model.classes[k].name
    requires PoolIndex(st.pool, st.pool[j].fromName, st.pool[j].toName) == Some(j)
    requires ClassIndex(model.classes, st.pool[j].toName).Some?
    requires a.fromId == ids[k] && a.toId == ids[ClassIndex(model.classes, st.pool[j].toName).value]
    requires !a.navigable
    ensures PoolOk(model, ids, st.(nodes := st.nodes + [(a.id, AssociationNode(a))],
                                   pool := st.pool[j := st.pool[j].(annotation := Some(a))]))
  {
    var nodes := st.nodes + [(a.id, AssociationNode(a))];
    var pool := st.pool[j := st.pool[j].(annotation := Some(a))];
    var st' := st.(nodes := nodes, pool := pool);
    forall j' | 0 <= j' < |pool| && AnnotatedAt(pool, j')
      ensures AnnotationOk(model, ids, st', j', pool[j'].annotation.value)
    {
      PoolIndexNames(st.pool, pool, pool[j'].fromName, pool[j'].toName);
      if j' == j {
        assert nodes[|st.nodes|] == (a.id, AssociationNode(a));
      } else {
        var b := st.pool[j'].annotation.value;
        assert AnnotatedAt(st.pool, j');
        InPrefix((b.id, AssociationNode(b)), st.nodes, nodes);
      }
    }
    forall i | 0 <= i < |nodes| && AssociationAt(nodes, i)
      ensures nodes[i].0 == nodes[i].1.association.id &&
              exists j' :: 0 <= j' < |pool| && pool[j'].annotation == Some(nodes[i].1.association)
    {
      if i < |st.nodes| {
        assert AssociationAt(st.nodes, i);
        var j' :| 0 <= j' < |st.pool| && st.pool[j'].annotation == Some(st.nodes[i].1.association);
        assert pool[j'] == st.pool[j'];
      } else {
        assert pool[j].annotation == Some(a);
      }
    }
  }

  /** Setting a new association and writing it into its pool entry keeps the invariant. */
  lemma InvAddAssociation(model: CodeModel, ids: seq<string>, st: State, k: nat, j: nat, a: Association)
    requires Inv(model, ids, st) && k < |model.classes| && |st.nodes| > 0
    requires a.id == "ASSOC_" + st.nodes[|st.nodes| - 1].0
    requires j < |st.pool| && st.pool[j].annotation.None? && st.pool[j].fromName == model.classes[k].name
    requires PoolIndex(st.pool, st.pool[j].fromName, st.pool[j].toName) == Some(j)
    requires ClassIndex(model.classes, st.pool[j].toName).Some?
    requires a.fromId == ids[k] && a.toId == ids[ClassIndex(model.classes, st.pool[j].toName).value]
    requires !a.navigable
    ensures Inv(model, ids, st.(nodes := st.nodes + [(a.id, AssociationNode(a))],
                                pool := st.pool[j := st.pool[j].(annotation := Some(a))]))
  {
    var pid := st.nodes[|st.nodes| - 1].0;
    AssocKeyFresh(st, pid);
    assert a.id[6..] == pid && pid in Keys(st.nodes);
    KeysOkAppend(st, a.id, AssociationNode(a));
    DataTypesOkAppend(model.classes, st, a.id, AssociationNode(a));
    PoolOkAddAssociation(model, ids, st, k, j, a);
  }

  // ---------------------------------------------------------------------------
  // Properties (src/model-transform.ts:206-258)

  /**
    Property p is the annotation of declaration d of class k: it keeps the declared name,
    flags and mapped visibility, carries a token id, is registered under that id, and its
    type name resolves to the first class of that name or else to the datatype of that name.
    A class-typed property finds its pool association annotated; the property refers to it
    exactly when it was the one that annotated it, under the id "ASSOC_" + its own id.
  */
  predicate PropertyOk(model: CodeModel, ids: seq<string>, st: State, k: nat, d: PropertyDecl, p: Property)
    requires |ids| == |model.classes| && k < |ids|
  {
    p.name == d.name && VisibilityOf(d.accessibility) == Some(p.visibility) &&
    p.isStatic == d.isStatic && p.optional == d.optional &&
    |p.id| > 0 && p.id[0] == '0' && (p.id, PropertyNode(p)) in st.nodes &&
    p.typ.Some? && d.typeName == Some(p.typ.value.name) &&
    Resolves(model.classes, ids, st.dataTypes, p.typ.value.name, p.typ.value.target) &&
    TypeAssociationOk(model, ids, st, k, p.id, p.visibility, p.typ.value.name, p.typ.value.target, p.association)
  }

  /** The association part of PropertyOk, for a property with id pid, visibility vis and type tname. */
  predicate TypeAssociationOk(model: CodeModel, ids: seq<string>, st: State, k: nat, pid: string,
                              vis: Visibility, tname: string, target: string, assoc: Option<string>)
    requires |ids| == |model.classes| && k < |ids|
  {
    var j := PoolIndex(st.pool, model.classes[k].name, tname);
    (IsClassName(model.classes, tname) ==> j.Some? && st.pool[j.value].annotation.Some?) &&
    (!IsClassName(model.classes, tname) ==> assoc.None?) &&
    (assoc.Some? ==>
       j.Some? && assoc.value == "ASSOC_" + pid &&
       st.pool[j.value].annotation == Some(Association(assoc.value, vis, ids[k], target, false)) &&
       (assoc.value, AssociationNode(Association(assoc.value, vis, ids[k], target, false))) in st.nodes)
  }

  /** What TypeAssociationOk says survives a later state of the run. */
  lemma TypeAssociationOkGrows(model: CodeModel, ids: seq<string>, st: State, s: State, k: nat, pid: string,
                               vis: Visibility, tname: string, target: string, assoc: Option<string>)
    requires |ids| == |model.classes| && k < |ids| && ClassesAt(model.classes, ids, st.nodes)
    requires Grows(|model.classes|, st, s) && PoolGrows(st.pool, s.pool)
    requires TypeAssociationOk(model, ids, st, k, pid, vis, tname, target, assoc)
    ensures TypeAssociationOk(model, ids, s, k, pid, vis, tname, target, assoc)
  {
    PoolIndexNames(st.pool, s.pool, model.classes[k].name, tname);
    if assoc.Some? {
      var a := Association(assoc.value, vis, ids[k], target, false);
      InGrows(model, ids, st, s, (assoc.value, AssociationNode(a)));
    }
  }

  lemma PropertyOkGrows(model: CodeModel, ids: seq<string>, st: State, s: State, k: nat, d: PropertyDecl, p: Property)
    requires |ids| == |model.classes| && k < |ids| && ClassesAt(model.classes, ids, st.nodes)
    requires Grows(|model.classes|, st, s) && PoolGrows(st.pool, s.pool)
    requires PropertyOk(model, ids, st, k, d, p)
    ensures PropertyOk(model, ids, s, k, d, p)
  {
    InGrows(model, ids, st, s, (p.id, PropertyNode(p)));
    ResolvesGrows(model.classes, ids, st.dataTypes, s.dataTypes, p.typ.value.name, p.typ.value.target);
    TypeAssociationOkGrows(model, ids, st, s, k, p.id, p.visibility, p.typ.value.name, p.typ.value.target, p.association);
  }

  /** The state after pool entry j is annotated with `a`, which is set in the registry under its id. */
  function WithAssociation(s: State, j: nat, a: Association): State
    requires j < |s.pool|
  {
    s.(nodes := s.nodes + [(a.id, AssociationNode(a))], pool := s.pool[j := s.pool[j].(annotation := Some(a))])
  }

  /**
    What resolving the type `tname` of a property with id pid and visibility vis does to state
    s, giving s', the property's association and its type target. A class type needs its pool
    association from class k; if no property annotated that entry yet, it is annotated with
    association "ASSOC_" + pid, which the property refers to; otherwise nothing changes and
    the property has no association. Any other type name is resolved to a datatype.
  */
  predicate PropertyTypeStep(model: CodeModel, ids: seq<string>, s: State, k: nat, pid: string, vis: Visibility,
                             tname: string, s': State, assoc: Option<string>, target: string)
    requires |ids| == |model.classes| && k < |ids|
  {
    if IsClassName(model.classes, tname) then
      var j := PoolIndex(s.pool, model.classes[k].name, tname);
      j.Some? && target == ids[ClassIndex(model.classes, tname).value] &&
      if s.pool[j.value].annotation.None? then
        assoc == Some("ASSOC_" + pid) &&
        s' == WithAssociation(s, j.value, Association("ASSOC_" + pid, vis, ids[k], target, false))
      else
        assoc.None? && s' == s
    else
      assoc.None? && s' == TypeResolved(model.classes, s, tname)
  }

  /** Changing an earlier registry position before or after the type step gives the same state. */
  lemma PropertyTypeStepUpdate(model: CodeModel, ids: seq<string>, s: State, k: nat, pid: string, vis: Visibility,
                               tname: string, s1: State, assoc: Option<string>, target: string,
                               m: nat, x: (string, Node))
    requires |ids| == |model.classes| && k < |ids| && m < |s.nodes|
    requires PropertyTypeStep(model, ids, s, k, pid, vis, tname, s1, assoc, target)
    ensures m < |s1.nodes|
    ensures PropertyTypeStep(model, ids, s.(nodes := s.nodes[m := x]), k, pid, vis, tname,
                             s1.(nodes := s1.nodes[m := x]), assoc, target)
  {
    var t := s.(nodes := s.nodes[m := x]);
    if IsClassName(model.classes, tname) {
      var j := PoolIndex(s.pool, model.classes[k].name, tname).value;
      if s.pool[j].annotation.None? {
        var a := Association("ASSOC_" + pid, vis, ids[k], target, false);
        assert (s.nodes + [(a.id, AssociationNode(a))])[m := x] == s.nodes[m := x] + [(a.id, AssociationNode(a))];
      }
    } else if NewTypeName(model.classes, s.dataTypes, tname) {
      var id := Suffixed("datatype", |s.dataTypes|);
      assert (s.nodes + [(id, DataTypeNode(id, tname))])[m := x] == s.nodes[m := x] + [(id, DataTypeNode(id, tname))];
    }
  }

  /**
    The type of a property whose id pid was set last: a class of that name (then its pool
    association must exist, and the first property to reach it annotates it), or else a
    datatype of that name, reused or added.
  */
  method ResolvePropertyType(model: CodeModel, ids: seq<string>, s: State, k: nat, vis: Visibility, tname: string)
    returns (r: Result<(State, Option<string>, string), Error>)
    requires Inv(model, ids, s) && k < |model.classes| && |s.nodes| > 0
    ensures r.Err? <==> IsClassName(model.classes, tname) &&
                        !HasAssociation(model.associations, model.classes[k].name, tname)
    ensures r.Err? ==> r.error == AssociationNotFound
    ensures r.Ok? ==>
              var (s', assoc, target) := r.value;
              Inv(model, ids, s') && Extends(s, s') && s'.draws == s.draws &&
              Resolves(model.classes, ids, s'.dataTypes, tname, target) &&
              TypeAssociationOk(model, ids, s', k, s.nodes[|s.nodes| - 1].0, vis, tname, target, assoc) &&
              PropertyTypeStep(model, ids, s, k, s.nodes[|s.nodes| - 1].0, vis, tname, s', assoc, target)
  {
    var pid := s.nodes[|s.nodes| - 1].0;
    var found := FindXmiNode(s.nodes, tname, Some(TYPE_CLASS));
    LookupClass(model.classes, ids, s.nodes, tname);
    PoolIndexHas(model, ids, s, model.classes[k].name, tname);
    if found.None? {
      var s', target := ResolveDataType(model, ids, s, tname);
      return Ok((s', None, target));
    }
    var target := found.value.id;
    var j := PoolIndex(s.pool, model.classes[k].name, tname);
    if j.None? {
      return Err(AssociationNotFound);
    }
    if s.pool[j.value].annotation.Some? {
      return Ok((s, None, target));
    }
    var a := Association("ASSOC_" + pid, vis, ids[k], target, false);
    AssocKeyFresh(s, pid);
    SetFresh(s.nodes, a.id, AssociationNode(a));
    InvAddAssociation(model, ids, s, k, j.value, a);
    var s' := s.(nodes := Set(s.nodes, a.id, AssociationNode(a)),
                 pool := s.pool[j.value := s.pool[j.value].(annotation := Some(a))]);
    AssociationAdded(model, ids, s, s', k, j.value, a, vis, tname);
    return Ok((s', Some(a.id), target));
  }

  /** The facts ResolvePropertyType promises when it annotates pool entry j with `a`. */
  lemma AssociationAdded(model: CodeModel, ids: seq<string>, s: State, s': State, k: nat, j: nat,
                         a: Association, vis: Visibility, tname: string)
    requires |ids| == |model.classes| && k < |ids| && |s.nodes| > 0
    requires j < |s.pool| && s.pool[j].annotation.None?
    requires PoolIndex(s.pool, model.classes[k].name, tname) == Some(j)
    requires IsClassName(model.classes, tname)
    requires a == Association("ASSOC_" + s.nodes[|s.nodes| - 1].0, vis, ids[k], a.toId, false)
    requires s' == s.(nodes := s.nodes + [(a.id, AssociationNode(a))],
                      pool := s.pool[j := s.pool[j].(annotation := Some(a))])
    ensures Extends(s, s')
    ensures TypeAssociationOk(model, ids, s', k, s.nodes[|s.nodes| - 1].0, vis, tname, a.toId, Some(a.id))
  {
    PoolIndexNames(s.pool, s'.pool, model.classes[k].name, tname);
    assert s'.nodes[|s.nodes|] == (a.id, AssociationNode(a));
  }

  /**
    The state after property p of class k is annotated from state st: one token is drawn,
    p is set in the registry under its id, and its type is resolved as PropertyTypeStep says.
  */
  predicate PropertyEffect(model: CodeModel, ids: seq<string>, st: State, k: nat, p: Property, s': State)
    requires |ids| == |model.classes| && k < |ids|
  {
    p.typ.Some? &&
    PropertyTypeStep(model, ids, st.(nodes := st.nodes + [(p.id, PropertyNode(p))], draws := st.draws + 1),
                     k, p.id, p.visibility, p.typ.value.name, s', p.association, p.typ.value.target)
  }

  /**
    One property of class k: a token id is drawn, the accessibility code must be known,
    the property is set in the registry, its type must be present, and the type is resolved.
    The property object is registered before its type is resolved and then completed in place.
  */
  method AnnotateProperty(model: CodeModel, ids: seq<string>, st: State, k: nat, d: PropertyDecl,
                          tokens: nat -> string)
    returns (r: Result<(State, Property), Error>)
    requires Inv(model, ids, st) && TokensOk(tokens) && k < |model.classes|
    ensures r.Err? <==> PropertyError(model, k, d).Some?
    ensures r.Err? ==> r.error == PropertyError(model, k, d).value
    ensures r.Ok? ==> Inv(model, ids, r.value.0) && Extends(st, r.value.0) &&
                      r.value.0.draws == st.draws + 1 &&
                      PropertyOk(model, ids, r.value.0, k, d, r.value.1) &&
                      PropertyEffect(model, ids, st, k, r.value.1, r.value.0) &&
                      IsLeastFree(Keys(st.nodes), tokens(st.draws), r.value.1.id)
  {
    var pid := NewIdForNode(Keys(st.nodes), tokens(st.draws));
    var vis := VisibilityOf(d.accessibility);
    if vis.None? {
      return Err(VisibilityModifierNotFound);
    }
    if d.typeName.None? {
      // the property is set first; then reading `type.name` throws
      return Err(PropertyTypeMissing);
    }
    r := AddProperty(model, ids, st, k, d, pid, vis.value);
  }

  /** A property with a known visibility and a type name, under the fresh token id pid. */
  method AddProperty(model: CodeModel, ids: seq<string>, st: State, k: nat, d: PropertyDecl,
                     pid: string, vis: Visibility)
    returns (r: Result<(State, Property), Error>)
    requires Inv(model, ids, st) && k < |model.classes|
    requires pid !in Keys(st.nodes) && |pid| > 0 && pid[0] == '0'
    requires VisibilityOf(d.accessibility) == Some(vis) && d.typeName.Some?
    ensures r.Err? <==> PropertyError(model, k, d).Some?
    ensures r.Err? ==> r.error == PropertyError(model, k, d).value
    ensures r.Ok? ==> Inv(model, ids, r.value.0) && Extends(st, r.value.0) &&
                      r.value.0.draws == st.draws + 1 && r.value.1.id == pid &&
                      PropertyOk(model, ids, r.value.0, k, d, r.value.1) &&
                      PropertyEffect(model, ids, st, k, r.value.1, r.value.0)
  {
    var prop := Property(pid, d.name, vis, d.isStatic, d.optional, None, None);
    SetFresh(st.nodes, pid, PropertyNode(prop));
    InvAppend(model, ids, st, pid, PropertyNode(prop));
    var s := st.(nodes := Set(st.nodes, pid, PropertyNode(prop)), draws := st.draws + 1);
    var tname := d.typeName.value;
    var rt := ResolvePropertyType(model, ids, s, k, vis, tname);
    if rt.Err? {
      return Err(rt.error);
    }
    prop := prop.(association := rt.value.1, typ := Some(TypeRef(tname, rt.value.2)));
    var s2 := CompleteProperty(model, ids, st, s, rt.value.0, k, d, prop);
    return Ok((s2, prop));
  }

  /** Writing the resolved type into the registered property object (position |st.nodes|). */
  method CompleteProperty(model: CodeModel, ids: seq<string>, st: State, s: State, s1: State, k: nat,
                          d: PropertyDecl, prop: Property)
    returns (s2: State)
    requires k < |model.classes| && Inv(model, ids, s1) && |ids| == |model.classes|
    requires s == st.(nodes := st.nodes + [(prop.id, PropertyNode(prop.(association := None, typ := None)))],
                      draws := st.draws + 1)
    requires Extends(s, s1) && s1.draws == s.draws && Extends(st, s)
    requires prop.name == d.name && VisibilityOf(d.accessibility) == Some(prop.visibility)
    requires prop.isStatic == d.isStatic && prop.optional == d.optional
    requires |prop.id| > 0 && prop.id[0] == '0'
    requires prop.typ.Some? && d.typeName == Some(prop.typ.value.name)
    requires Resolves(model.classes, ids, s1.dataTypes, prop.typ.value.name, prop.typ.value.target)
    requires TypeAssociationOk(model, ids, s1, k, prop.id, prop.visibility, prop.typ.value.name,
                               prop.typ.value.target, prop.association)
    requires PropertyTypeStep(model, ids, s, k, prop.id, prop.visibility, prop.typ.value.name, s1,
                              prop.association, prop.typ.value.target)
    ensures Inv(model, ids, s2) && Extends(st, s2) && s2.draws == st.draws + 1 &&
            PropertyOk(model, ids, s2, k, d, prop) && PropertyEffect(model, ids, st, k, prop, s2)
  {
    var m := |st.nodes|;
    assert s1.nodes[m] == s.nodes[m];
    SetExisting(s1.nodes, m, PropertyNode(prop));
    InvUpdateMember(model, ids, s1, m, PropertyNode(prop));
    s2 := s1.(nodes := Set(s1.nodes, prop.id, PropertyNode(prop)));
    PropertyCompleted(model, ids, st, s, s1, s2, k, prop);
    PropertyEffectOf(model, ids, st, s, s1, k, prop);
  }

  /** Completing the property at its own registry position gives the effect PropertyEffect states. */
  lemma PropertyEffectOf(model: CodeModel, ids: seq<string>, st: State, s: State, s1: State, k: nat,
                         prop: Property)
    requires k < |model.classes| && |ids| == |model.classes| && prop.typ.Some?
    requires s == st.(nodes := st.nodes + [(prop.id, PropertyNode(prop.(association := None, typ := None)))],
                      draws := st.draws + 1)
    requires PropertyTypeStep(model, ids, s, k, prop.id, prop.visibility, prop.typ.value.name, s1,
                              prop.association, prop.typ.value.target)
    ensures |st.nodes| < |s1.nodes|
    ensures PropertyEffect(model, ids, st, k, prop,
                           s1.(nodes := s1.nodes[|st.nodes| := (prop.id, PropertyNode(prop))]))
  {
    var m := |st.nodes|;
    PropertyTypeStepUpdate(model, ids, s, k, prop.id, prop.visibility, prop.typ.value.name, s1,
                           prop.association, prop.typ.value.target, m, (prop.id, PropertyNode(prop)));
    assert s.nodes[m := (prop.id, PropertyNode(prop))] == st.nodes + [(prop.id, PropertyNode(prop))];
  }

  lemma PropertyCompleted(model: CodeModel, ids: seq<string>, st: State, s: State, s1: State, s2: State,
                          k: nat, prop: Property)
    requires k < |model.classes| && ClassesAt(model.classes, ids, s1.nodes)
    requires s.nodes == st.nodes + [(prop.id, PropertyNode(prop.(association := None, typ := None)))]
    requires Extends(s, s1) && Extends(st, s)
    requires s2 == s1.(nodes := s1.nodes[|st.nodes| := (prop.id, PropertyNode(prop))])
    requires prop.typ.Some?
    requires TypeAssociationOk(model, ids, s1, k, prop.id, prop.visibility, prop.typ.value.name,
                               prop.typ.value.target, prop.association)
    ensures Extends(st, s2) && (prop.id, PropertyNode(prop)) in s2.nodes
    ensures TypeAssociationOk(model, ids, s2, k, prop.id, prop.visibility, prop.typ.value.name,
                              prop.typ.value.target, prop.association)
  {
    var m := |st.nodes|;
    assert s2.nodes[m] == (prop.id, PropertyNode(prop));
    assert st.nodes <= s2.nodes by {
      assert forall i :: 0 <= i < |st.nodes| ==> s2.nodes[i] == s1.nodes[i] == st.nodes[i];
    }
    if prop.association.Some? {
      var a := Association(prop.association.value, prop.visibility, ids[k], prop.typ.value.target, false);
      assert s1.nodes[m].1.PropertyNode?;
      InUpdateOther(s1.nodes, m, (prop.id, PropertyNode(prop)), (a.id, AssociationNode(a)));
    }
  }

  // ---------------------------------------------------------------------------
  // Methods and their parameters (src/model-transform.ts:262-315)

  /** `id` has the form `<prefix>_...` that getNewNodeCustomId produces. */
  predicate HasPrefix(id: string, prefix: string)
  {
    |id| > |prefix| && id[..|prefix|] == prefix && id[|prefix|] == '_'
  }

  /** The declared type name of parameter i of a method; the return parameter has none. */
  function ParamType(d: MethodDecl, i: nat): (t: Option<string>)
    ensures i >= |d.parameters| ==> t.None?
  {
    if i < |d.parameters| then d.parameters[i].typeName else None
  }

  /** A parameter whose declared type name is t: untyped, or typed with what t resolves to. */
  predicate Typed(model: CodeModel, ids: seq<string>, st: State, t: Option<string>, p: Parameter)
    requires |ids| == |model.classes|
  {
    match t
    case None => p.typ.None?
    case Some(tn) => p.typ.Some? && p.typ.value.name == tn &&
                     Resolves(model.classes, ids, st.dataTypes, tn, p.typ.value.target)
  }

  lemma TypedGrows(model: CodeModel, ids: seq<string>, st: State, s: State, t: Option<string>, p: Parameter)
    requires |ids| == |model.classes| && st.dataTypes <= s.dataTypes
    requires Typed(model, ids, st, t, p)
    ensures Typed(model, ids, s, t, p)
  {
    if t.Some? {
      ResolvesGrows(model.classes, ids, st.dataTypes, s.dataTypes, t.value, p.typ.value.target);
    }
  }

  /** A declared parameter: its name, direction "in", an op_param id, registered, typed as declared. */
  predicate ParamOk(model: CodeModel, ids: seq<string>, st: State, pd: ParameterDecl, p: Parameter)
    requires |ids| == |model.classes|
  {
    p.name == pd.name && p.direction == In && HasPrefix(p.id, "op_param") &&
    (p.id, ParameterNode(p)) in st.nodes && Typed(model, ids, st, pd.typeName, p)
  }

  /** The return parameter: named "return", direction "return", an op_param id, no type. */
  predicate ReturnOk(st: State, p: Parameter)
  {
    p.name == "return" && p.direction == Return && p.typ.None? && HasPrefix(p.id, "op_param") &&
    (p.id, ParameterNode(p)) in st.nodes
  }

  /**
    Method m is the annotation of declaration d: declared name, flags and mapped visibility,
    never abstract, a token id, registered; its parameters are the declared ones in order,
    followed by the return parameter when a return type is declared.
  */
  predicate MethodOk(model: CodeModel, ids: seq<string>, st: State, d: MethodDecl, m: Method)
    requires |ids| == |model.classes|
  {
    m.name == d.name && VisibilityOf(d.accessibility) == Some(m.visibility) &&
    m.isStatic == d.isStatic && m.optional == d.optional && !m.isAbstract &&
    |m.id| > 0 && m.id[0] == '0' && (m.id, MethodNode(m)) in st.nodes &&
    |m.parameters| == |d.parameters| + (if d.returnType.Some? then 1 else 0) &&
    (forall i :: 0 <= i < |d.parameters| ==> ParamOk(model, ids, st, d.parameters[i], m.parameters[i])) &&
    (d.returnType.Some? ==> ReturnOk(st, m.parameters[|d.parameters|]))
  }

  lemma MethodOkGrows(model: CodeModel, ids: seq<string>, st: State, s: State, d: MethodDecl, m: Method)
    requires |ids| == |model.classes| && ClassesAt(model.classes, ids, st.nodes)
    requires Grows(|model.classes|, st, s)
    requires MethodOk(model, ids, st, d, m)
    ensures MethodOk(model, ids, s, d, m)
  {
    InGrows(model, ids, st, s, (m.id, MethodNode(m)));
    forall i | 0 <= i < |d.parameters|
      ensures ParamOk(model, ids, s, d.parameters[i], m.parameters[i])
    {
      var p := m.parameters[i];
      InGrows(model, ids, st, s, (p.id, ParameterNode(p)));
      TypedGrows(model, ids, st, s, d.parameters[i].typeName, p);
    }
    if d.returnType.Some? {
      var p := m.parameters[|d.parameters|];
      InGrows(model, ids, st, s, (p.id, ParameterNode(p)));
    }
  }

  /** The registry entries of a run of parameters. */
  function ParamEntries(ps: seq<Parameter>): (es: Entries)
    ensures |es| == |ps|
    ensures forall i :: 0 <= i < |ps| ==> es[i] == (ps[i].id, ParameterNode(ps[i]))
  {
    seq(|ps|, i requires 0 <= i < |ps| => (ps[i].id, ParameterNode(ps[i])))
  }

  /**
    A parameter object set in the registry under the least free `op_param_<n>`.
  */
  method AddParameter(model: CodeModel, ids: seq<string>, s: State, name: string, dir: Direction)
    returns (s': State, p: Parameter)
    requires Inv(model, ids, s)
    ensures p.name == name && p.direction == dir && p.typ.None? && HasPrefix(p.id, "op_param")
    ensures IsLeastFree(Keys(s.nodes), "op_param", p.id)
    ensures s' == s.(nodes := s.nodes + [(p.id, ParameterNode(p))])
    ensures Inv(model, ids, s')
  {
    var id := NewNodeCustomId(Keys(s.nodes), "op_param");
    assert id[..8] == "op_param";
    p := Parameter(id, name, dir, None);
    SetFresh(s.nodes, id, ParameterNode(p));
    InvAppend(model, ids, s, id, ParameterNode(p));
    s' := s.(nodes := Set(s.nodes, id, ParameterNode(p)));
  }

  /**
    The parameter objects of a method, in order: the declared ones with direction "in",
    then, when a return type is declared, a new parameter "return" with direction "return".
  */
  method RegisterParameters(model: CodeModel, ids: seq<string>, s0: State, d: MethodDecl)
    returns (s: State, params: seq<Parameter>)
    requires Inv(model, ids, s0)
    ensures Inv(model, ids, s) && s.nodes == s0.nodes + ParamEntries(params)
    ensures s.dataTypes == s0.dataTypes && s.pool == s0.pool && s.draws == s0.draws
    ensures |params| == |d.parameters| + (if d.returnType.Some? then 1 else 0)
    ensures forall i :: 0 <= i < |params| ==> params[i].typ.None? && HasPrefix(params[i].id, "op_param")
    ensures forall i :: 0 <= i < |d.parameters| ==>
              params[i].name == d.parameters[i].name && params[i].direction == In
    ensures d.returnType.Some? ==>
              params[|d.parameters|].name == "return" && params[|d.parameters|].direction == Return
  {
    s, params := s0, [];
    var i := 0;
    while i < |d.parameters|
      invariant 0 <= i <= |d.parameters| && |params| == i
      invariant Inv(model, ids, s) && s.nodes == s0.nodes + ParamEntries(params)
      invariant s.dataTypes == s0.dataTypes && s.pool == s0.pool && s.draws == s0.draws
      invariant forall j :: 0 <= j < i ==> params[j].typ.None? && HasPrefix(params[j].id, "op_param")
      invariant forall j :: 0 <= j < i ==>
                  params[j].name == d.parameters[j].name && params[j].direction == In
    {
      var p;
      s, p := AddParameter(model, ids, s, d.parameters[i].name, In);
      assert ParamEntries(params + [p]) == ParamEntries(params) + [(p.id, ParameterNode(p))];
      params := params + [p];
      i := i + 1;
    }
    if d.returnType.Some? {
      var p;
      s, p := AddParameter(model, ids, s, "return", Return);
      assert ParamEntries(params + [p]) == ParamEntries(params) + [(p.id, ParameterNode(p))];
      params := params + [p];
    }
  }

  /** A type name of a parameter: the first class of that name, else the datatype of that name. */
  method ResolveTypeName(model: CodeModel, ids: seq<string>, s: State, tn: string)
    returns (s': State, target: string)
    requires Inv(model, ids, s)
    ensures Inv(model, ids, s') && Resolves(model.classes, ids, s'.dataTypes, tn, target)
    ensures s' == TypeResolved(model.classes, s, tn)
    ensures s.nodes <= s'.nodes && s.dataTypes <= s'.dataTypes && s'.pool == s.pool && s'.draws == s.draws
  {
    var found := FindXmiNode(s.nodes, tn, Some(TYPE_CLASS));
    LookupClass(model.classes, ids, s.nodes, tn);
    if found.Some? {
      return s, found.value.id;
    }
    s', target := ResolveDataType(model, ids, s, tn);
  }

  /** The declared type names of the first i parameters of d, in order. */
  function TypeNamesUpTo(d: MethodDecl, i: nat): seq<string>
  {
    if i == 0 then []
    else TypeNamesUpTo(d, i - 1) + (if ParamType(d, i - 1).Some? then [ParamType(d, i - 1).value] else [])
  }

  /** The declared type names of all parameters of d, in order. */
  function DeclaredTypeNames(d: MethodDecl): seq<string>
  {
    TypeNamesUpTo(d, |d.parameters|)
  }

  /** The datatype map after resolving the type names `names` in order. */
  function AddTypeNames(classes: seq<ClassDecl>, dataTypes: seq<(string, string)>, names: seq<string>)
    : seq<(string, string)>
  {
    if names == [] then dataTypes
    else AddTypeName(classes, AddTypeNames(classes, dataTypes, names[..|names| - 1]), names[|names| - 1])
  }

  /** The datatypes added for type names `names` are named by some of them. */
  lemma {:induction false} AddTypeNamesFrom(classes: seq<ClassDecl>, dataTypes: seq<(string, string)>,
                                            names: seq<string>)
    ensures var r := AddTypeNames(classes, dataTypes, names);
            dataTypes <= r && forall y :: |dataTypes| <= y < |r| ==> r[y].1 in names
  {
    if names != [] {
      var init := names[..|names| - 1];
      AddTypeNamesFrom(classes, dataTypes, init);
      forall z | z in init ensures z in names {
        var i :| 0 <= i < |init| && init[i] == z;
        assert names[i] == z;
      }
    }
  }

  /** A declared type name is the type name of one of the parameters. */
  lemma {:induction false} TypeNamesUpToIn(d: MethodDecl, i: nat, name: string)
    requires name in TypeNamesUpTo(d, i)
    ensures exists x :: 0 <= x < |d.parameters| && d.parameters[x].typeName == Some(name)
  {
    if i > 0 {
      if name in TypeNamesUpTo(d, i - 1) {
        TypeNamesUpToIn(d, i - 1, name);
      } else {
        assert ParamType(d, i - 1) == Some(name);
      }
    }
  }

  lemma AddTypeNamesStep(classes: seq<ClassDecl>, dataTypes: seq<(string, string)>, names: seq<string>, n: string)
    ensures AddTypeNames(classes, dataTypes, names + [n]) == AddTypeName(classes, AddTypeNames(classes, dataTypes, names), n)
  {
    assert (names + [n])[..|names|] == names;
  }

  /**
    The state of the second pass over a method's parameters after the first i of them:
    entries before position base are untouched, parameter j sits at position base + j and
    differs from its first-pass version at most in its type, which is resolved for j < i;
    TypesAt says which datatypes follow the first pass's registry.
  */
  predicate ParamsAt(model: CodeModel, ids: seq<string>, s0: State, s: State, d: MethodDecl, base: nat,
                     params0: seq<Parameter>, params: seq<Parameter>, i: nat)
    requires |ids| == |model.classes|
  {
    i <= |params| == |params0| &&
    |s0.nodes| <= |s.nodes| && base + |params| <= |s0.nodes| &&
    (forall x :: 0 <= x < base ==> s.nodes[x] == s0.nodes[x]) &&
    s0.dataTypes <= s.dataTypes && s.pool == s0.pool && s.draws == s0.draws &&
    (forall j :: 0 <= j < |params| ==> s.nodes[base + j] == (params[j].id, ParameterNode(params[j]))) &&
    (forall j :: 0 <= j < |params| ==> params[j] == params0[j].(typ := params[j].typ)) &&
    (forall j :: 0 <= j < |params| && (i <= j || ParamType(d, j).None?) ==> params[j] == params0[j]) &&
    (forall j :: 0 <= j < i && ParamType(d, j).Some? ==> Typed(model, ids, s, ParamType(d, j), params[j]))
  }

  /**
    The datatypes of the second pass after the first i parameters: those the first i type
    names need, in order, each set in the registry after the first pass's entries.
  */
  predicate TypesAt(classes: seq<ClassDecl>, s0: State, s: State, d: MethodDecl, i: nat)
  {
    |s0.nodes| <= |s.nodes| && s0.dataTypes <= s.dataTypes &&
    s.dataTypes == AddTypeNames(classes, s0.dataTypes, TypeNamesUpTo(d, i)) &&
    s.nodes[|s0.nodes|..] == DataTypeEntries(s.dataTypes[|s0.dataTypes|..])
  }

  /**
    The second pass over a method's parameters: each one with a declared type gets it
    resolved, written into the parameter object registered at position base + i.
  */
  method ResolveParameterTypes(model: CodeModel, ids: seq<string>, s0: State, d: MethodDecl, base: nat,
                               params0: seq<Parameter>)
    returns (s: State, params: seq<Parameter>)
    requires Inv(model, ids, s0) && |model.classes| <= base && base + |params0| == |s0.nodes|
    requires forall j :: 0 <= j < |params0| ==> s0.nodes[base + j] == (params0[j].id, ParameterNode(params0[j]))
    ensures Inv(model, ids, s) && ParamsAt(model, ids, s0, s, d, base, params0, params, |params|)
    ensures TypesAt(model.classes, s0, s, d, |params|)
  {
    s, params := s0, params0;
    TypesStart(model.classes, s0, d);
    var i := 0;
    while i < |params|
      invariant Inv(model, ids, s) && ParamsAt(model, ids, s0, s, d, base, params0, params, i)
      invariant TypesAt(model.classes, s0, s, d, i)
    {
      var t := ParamType(d, i);
      if t.Some? {
        var s1, target := ResolveTypeName(model, ids, s, t.value);
        var p := params[i].(typ := Some(TypeRef(t.value, target)));
        s, params := TypeParameter(model, ids, s0, s, s1, d, base, params0, params, i, p);
      } else {
        ParamsSkip(model, ids, s0, s, d, base, params0, params, i);
        TypesSkip(model.classes, s0, s, d, i);
      }
      i := i + 1;
    }
  }

  /** Writing the resolved type of parameter i into its registered object. */
  method TypeParameter(model: CodeModel, ids: seq<string>, s0: State, s: State, s1: State, d: MethodDecl,
                       base: nat, params0: seq<Parameter>, params: seq<Parameter>, i: nat, p: Parameter)
    returns (s': State, params': seq<Parameter>)
    requires Inv(model, ids, s1) && |model.classes| <= base && i < |params| && ParamType(d, i).Some?
    requires ParamsAt(model, ids, s0, s, d, base, params0, params, i)
    requires s1 == TypeResolved(model.classes, s, ParamType(d, i).value)
    requires s.nodes <= s1.nodes && s.dataTypes <= s1.dataTypes && s1.pool == s.pool && s1.draws == s.draws
    requires p == params[i].(typ := p.typ) && Typed(model, ids, s1, ParamType(d, i), p)
    requires TypesAt(model.classes, s0, s, d, i)
    ensures Inv(model, ids, s') && ParamsAt(model, ids, s0, s', d, base, params0, params', i + 1)
    ensures TypesAt(model.classes, s0, s', d, i + 1)
  {
    var at := base + i;
    ParamIsAt(model, ids, s0, s, d, base, params0, params, i);
    assert s1.nodes[at] == (params[i].id, ParameterNode(params[i]));
    SetExisting(s1.nodes, at, ParameterNode(p));
    InvUpdateMember(model, ids, s1, at, ParameterNode(p));
    s' := s1.(nodes := Set(s1.nodes, p.id, ParameterNode(p)));
    params' := params[i := p];
    ParamsStep(model, ids, s0, s, s1, s', d, base, params0, params, i, p);
    TypesAppended(model.classes, s0, s, s1, s', d, at, i);
  }

  /** A parameter without a declared type is left as it is. */
  lemma ParamsSkip(model: CodeModel, ids: seq<string>, s0: State, s: State, d: MethodDecl, base: nat,
                   params0: seq<Parameter>, params: seq<Parameter>, i: nat)
    requires |ids| == |model.classes| && i < |params| && ParamType(d, i).None?
    requires ParamsAt(model, ids, s0, s, d, base, params0, params, i)
    ensures ParamsAt(model, ids, s0, s, d, base, params0, params, i + 1)
  {
  }

  lemma TypesStart(classes: seq<ClassDecl>, s0: State, d: MethodDecl)
    ensures TypesAt(classes, s0, s0, d, 0)
  {
    assert s0.nodes[|s0.nodes|..] == [] && s0.dataTypes[|s0.dataTypes|..] == [];
  }

  /** A parameter without a declared type adds no datatype. */
  lemma TypesSkip(classes: seq<ClassDecl>, s0: State, s: State, d: MethodDecl, i: nat)
    requires ParamType(d, i).None? && TypesAt(classes, s0, s, d, i)
    ensures TypesAt(classes, s0, s, d, i + 1)
  {
    assert TypeNamesUpTo(d, i + 1) == TypeNamesUpTo(d, i);
  }

  lemma ParamIsAt(model: CodeModel, ids: seq<string>, s0: State, s: State, d: MethodDecl, base: nat,
                  params0: seq<Parameter>, params: seq<Parameter>, i: nat)
    requires |ids| == |model.classes| && i < |params|
    requires ParamsAt(model, ids, s0, s, d, base, params0, params, i)
    ensures base + i < |s.nodes| && s.nodes[base + i] == (params[i].id, ParameterNode(params[i]))
  {
  }

  lemma ParamsStep(model: CodeModel, ids: seq<string>, s0: State, s: State, s1: State, s': State, d: MethodDecl,
                   base: nat, params0: seq<Parameter>, params: seq<Parameter>, i: nat, p: Parameter)
    requires |ids| == |model.classes| && i < |params| && ParamType(d, i).Some?
    requires ParamsAt(model, ids, s0, s, d, base, params0, params, i)
    requires s1 == TypeResolved(model.classes, s, ParamType(d, i).value)
    requires s.nodes <= s1.nodes && s.dataTypes <= s1.dataTypes && s1.pool == s.pool && s1.draws == s.draws
    requires p == params[i].(typ := p.typ) && Typed(model, ids, s1, ParamType(d, i), p)
    requires s' == s1.(nodes := s1.nodes[base + i := (p.id, ParameterNode(p))])
    ensures ParamsAt(model, ids, s0, s', d, base, params0, params[i := p], i + 1)
  {
    var params' := params[i := p];
    forall j | 0 <= j < i && ParamType(d, j).Some?
      ensures Typed(model, ids, s', ParamType(d, j), params'[j])
    {
      TypedGrows(model, ids, s, s', ParamType(d, j), params[j]);
    }
    forall j | 0 <= j < |params'|
      ensures s'.nodes[base + j] == (params'[j].id, ParameterNode(params'[j]))
    {
      if j != i {
        assert s1.nodes[base + j] == s.nodes[base + j];
      }
    }
  }

  /** Resolving type name i of d appends its datatype, if any, to those of the earlier ones. */
  lemma TypesAppended(classes: seq<ClassDecl>, s0: State, s: State, s1: State, s': State, d: MethodDecl,
                      at: nat, i: nat)
    requires ParamType(d, i).Some? && at < |s0.nodes| && TypesAt(classes, s0, s, d, i)
    requires s1 == TypeResolved(classes, s, ParamType(d, i).value)
    requires at < |s1.nodes| == |s'.nodes| && s'.dataTypes == s1.dataTypes && s'.nodes == s1.nodes[at := s'.nodes[at]]
    ensures TypesAt(classes, s0, s', d, i + 1)
  {
    var t := ParamType(d, i).value;
    AddTypeNamesStep(classes, s0.dataTypes, TypeNamesUpTo(d, i), t);
    assert s'.nodes[|s0.nodes|..] == s1.nodes[|s0.nodes|..];
    if NewTypeName(classes, s.dataTypes, t) {
      var id := Suffixed("datatype", |s.dataTypes|);
      assert s1.nodes[|s0.nodes|..] == s.nodes[|s0.nodes|..] + [(id, DataTypeNode(id, t))];
      assert s1.dataTypes[|s0.dataTypes|..] == s.dataTypes[|s0.dataTypes|..] + [(id, t)];
    }
  }

  /**
    One method: a token id is drawn, the accessibility code must be known, and the method
    is set in the registry, followed by its parameters; their types are resolved last.
  */
  method AnnotateMethod(model: CodeModel, ids: seq<string>, st: State, d: MethodDecl, tokens: nat -> string)
    returns (r: Result<(State, Method), Error>)
    requires Inv(model, ids, st) && TokensOk(tokens)
    ensures r.Err? <==> VisibilityOf(d.accessibility).None?
    ensures r.Err? ==> r.error == VisibilityModifierNotFound
    ensures r.Ok? ==> Inv(model, ids, r.value.0) && Extends(st, r.value.0) &&
                      r.value.0.draws == st.draws + 1 &&
                      MethodOk(model, ids, r.value.0, d, r.value.1) &&
                      MethodEffect(model.classes, st, d, r.value.1, r.value.0) &&
                      IsLeastFree(Keys(st.nodes), tokens(st.draws), r.value.1.id)
  {
    var mid := NewIdForNode(Keys(st.nodes), tokens(st.draws));
    var vis := VisibilityOf(d.accessibility);
    if vis.None? {
      return Err(VisibilityModifierNotFound);
    }
    var s', m := AddMethod(model, ids, st, d, mid, vis.value);
    return Ok((s', m));
  }

  /** A method with a known visibility under the fresh token id mid. */
  method AddMethod(model: CodeModel, ids: seq<string>, st: State, d: MethodDecl, mid: string, vis: Visibility)
    returns (s': State, m: Method)
    requires Inv(model, ids, st)
    requires mid !in Keys(st.nodes) && |mid| > 0 && mid[0] == '0'
    requires VisibilityOf(d.accessibility) == Some(vis)
    ensures Inv(model, ids, s') && Extends(st, s') && s'.draws == st.draws + 1 && m.id == mid
    ensures MethodOk(model, ids, s', d, m) && MethodEffect(model.classes, st, d, m, s')
  {
    var m0 := Method(mid, d.name, vis, d.isStatic, d.optional, false, []);
    SetFresh(st.nodes, mid, MethodNode(m0));
    InvAppend(model, ids, st, mid, MethodNode(m0));
    var s := st.(nodes := Set(st.nodes, mid, MethodNode(m0)), draws := st.draws + 1);
    var s1, params := RegisterParameters(model, ids, s, d);
    var s2, typed := ResolveParameterTypes(model, ids, s1, d, |s.nodes|, params);
    s', m := CompleteMethod(model, ids, st, s, s1, s2, d, m0, params, typed);
  }

  /**
    The state after method m is annotated from st for declaration d: one token is drawn, m is
    set in the registry, then its parameters in order, then the datatypes its parameter types
    needed, which are those the declared type names add in order. The pool is untouched.
  */
  predicate MethodEffect(classes: seq<ClassDecl>, st: State, d: MethodDecl, m: Method, s': State)
  {
    s'.pool == st.pool && s'.draws == st.draws + 1 &&
    s'.dataTypes == AddTypeNames(classes, st.dataTypes, DeclaredTypeNames(d)) &&
    |st.dataTypes| <= |s'.dataTypes| &&
    s'.nodes == st.nodes + [(m.id, MethodNode(m))] + ParamEntries(m.parameters) +
                DataTypeEntries(s'.dataTypes[|st.dataTypes|..])
  }

  /** Writing the typed parameters into the registered method object (position |st.nodes|). */
  method CompleteMethod(model: CodeModel, ids: seq<string>, st: State, s: State, s1: State, s2: State,
                        d: MethodDecl, m0: Method, params: seq<Parameter>, typed: seq<Parameter>)
    returns (s': State, m: Method)
    requires Inv(model, ids, s2) && |model.classes| <= |st.nodes|
    requires s == st.(nodes := st.nodes + [(m0.id, MethodNode(m0))], draws := st.draws + 1)
    requires s1.nodes == s.nodes + ParamEntries(params)
    requires s1.dataTypes == s.dataTypes && s1.pool == s.pool && s1.draws == s.draws
    requires |params| == |d.parameters| + (if d.returnType.Some? then 1 else 0)
    requires forall i :: 0 <= i < |params| ==> params[i].typ.None? && HasPrefix(params[i].id, "op_param")
    requires forall i :: 0 <= i < |d.parameters| ==>
               params[i].name == d.parameters[i].name && params[i].direction == In
    requires d.returnType.Some? ==>
               params[|d.parameters|].name == "return" && params[|d.parameters|].direction == Return
    requires ParamsAt(model, ids, s1, s2, d, |s.nodes|, params, typed, |params|)
    requires TypesAt(model.classes, s1, s2, d, |params|)
    requires m0.parameters == [] && m0.name == d.name && VisibilityOf(d.accessibility) == Some(m0.visibility)
    requires m0.isStatic == d.isStatic && m0.optional == d.optional && !m0.isAbstract
    requires |m0.id| > 0 && m0.id[0] == '0'
    ensures m == m0.(parameters := typed)
    ensures Inv(model, ids, s') && Extends(st, s') && s'.draws == st.draws + 1
    ensures MethodOk(model, ids, s', d, m) && MethodEffect(model.classes, st, d, m, s')
  {
    m := m0.(parameters := typed);
    var at := |st.nodes|;
    assert s2.nodes[at] == s1.nodes[at] == (m0.id, MethodNode(m0));
    SetExisting(s2.nodes, at, MethodNode(m));
    InvUpdateMember(model, ids, s2, at, MethodNode(m));
    s' := s2.(nodes := Set(s2.nodes, m0.id, MethodNode(m)));
    MethodCompleted(model, ids, st, s, s1, s2, s', d, m0, params, m);
    MethodEffectOf(model, ids, st, s, s1, s2, s', d, m0, params, m);
  }

  /** The registry and the datatypes after a method, from what its steps establish. */
  lemma MethodEffectOf(model: CodeModel, ids: seq<string>, st: State, s: State, s1: State, s2: State,
                       s': State, d: MethodDecl, m0: Method, params: seq<Parameter>, m: Method)
    requires |ids| == |model.classes|
    requires s == st.(nodes := st.nodes + [(m0.id, MethodNode(m0))], draws := st.draws + 1)
    requires s1.nodes == s.nodes + ParamEntries(params)
    requires s1.dataTypes == s.dataTypes && s1.pool == s.pool && s1.draws == s.draws
    requires |params| == |d.parameters| + (if d.returnType.Some? then 1 else 0)
    requires ParamsAt(model, ids, s1, s2, d, |s.nodes|, params, m.parameters, |params|)
    requires TypesAt(model.classes, s1, s2, d, |params|)
    requires m.id == m0.id
    requires s' == s2.(nodes := s2.nodes[|st.nodes| := (m.id, MethodNode(m))])
    ensures MethodEffect(model.classes, st, d, m, s')
  {
    MethodLaidOut(model, ids, st, s, s1, s2, s', d, m0, params, m);
    if |params| > |d.parameters| {
      assert TypeNamesUpTo(d, |params|) == TypeNamesUpTo(d, |d.parameters|);
    }
  }

  /** The registry after a method: the method, its parameters, then the datatypes they needed. */
  lemma MethodLaidOut(model: CodeModel, ids: seq<string>, st: State, s: State, s1: State, s2: State,
                      s': State, d: MethodDecl, m0: Method, params: seq<Parameter>, m: Method)
    requires |ids| == |model.classes|
    requires s == st.(nodes := st.nodes + [(m0.id, MethodNode(m0))], draws := st.draws + 1)
    requires s1.nodes == s.nodes + ParamEntries(params)
    requires s1.dataTypes == s.dataTypes && s1.pool == s.pool && s1.draws == s.draws
    requires ParamsAt(model, ids, s1, s2, d, |s.nodes|, params, m.parameters, |params|)
    requires |s1.nodes| <= |s2.nodes| && s2.nodes[|s1.nodes|..] == DataTypeEntries(s2.dataTypes[|st.dataTypes|..])
    requires m.id == m0.id
    requires s' == s2.(nodes := s2.nodes[|st.nodes| := (m.id, MethodNode(m))])
    ensures s'.nodes == st.nodes + [(m.id, MethodNode(m))] + ParamEntries(m.parameters) +
                        DataTypeEntries(s'.dataTypes[|st.dataTypes|..])
  {
    var base := |s.nodes|;
    var dts := DataTypeEntries(s'.dataTypes[|st.dataTypes|..]);
    var laid := st.nodes + [(m.id, MethodNode(m))] + ParamEntries(m.parameters) + dts;
    assert s2.nodes[|s1.nodes|..] == dts;
    assert |laid| == |s'.nodes|;
    forall x | 0 <= x < |laid| ensures laid[x] == s'.nodes[x] {
      if x < |st.nodes| {
        assert s2.nodes[x] == s1.nodes[x] == s.nodes[x];
      } else if x == |st.nodes| {
      } else if x < |s1.nodes| {
        assert s'.nodes[base + (x - base)] == s2.nodes[base + (x - base)];
      } else {
        assert s2.nodes[|s1.nodes|..][x - |s1.nodes|] == s2.nodes[x];
      }
    }
  }

  /** The facts AddMethod promises, from what its steps establish. */
  lemma MethodCompleted(model: CodeModel, ids: seq<string>, st: State, s: State, s1: State, s2: State,
                        s': State, d: MethodDecl, m0: Method, params: seq<Parameter>, m: Method)
    requires |ids| == |model.classes| && |model.classes| <= |st.nodes|
    requires s == st.(nodes := st.nodes + [(m0.id, MethodNode(m0))], draws := st.draws + 1)
    requires s1.nodes == s.nodes + ParamEntries(params)
    requires s1.dataTypes == s.dataTypes && s1.pool == s.pool && s1.draws == s.draws
    requires |params| == |d.parameters| + (if d.returnType.Some? then 1 else 0)
    requires forall i :: 0 <= i < |params| ==> params[i].typ.None? && HasPrefix(params[i].id, "op_param")
    requires forall i :: 0 <= i < |d.parameters| ==>
               params[i].name == d.parameters[i].name && params[i].direction == In
    requires d.returnType.Some? ==>
               params[|d.parameters|].name == "return" && params[|d.parameters|].direction == Return
    requires ParamsAt(model, ids, s1, s2, d, |s.nodes|, params, m.parameters, |params|)
    requires m == m0.(parameters := m.parameters)
    requires m0.name == d.name && VisibilityOf(d.accessibility) == Some(m0.visibility)
    requires m0.isStatic == d.isStatic && m0.optional == d.optional && !m0.isAbstract
    requires |m0.id| > 0 && m0.id[0] == '0'
    requires s' == s2.(nodes := s2.nodes[|st.nodes| := (m.id, MethodNode(m))])
    ensures Extends(st, s') && s'.draws == st.draws + 1
    ensures MethodOk(model, ids, s', d, m)
  {
    var base := |s.nodes|;
    var ps := m.parameters;
    assert s'.nodes[|st.nodes|] == (m.id, MethodNode(m));
    assert st.nodes <= s'.nodes by {
      forall x | 0 <= x < |st.nodes| ensures s'.nodes[x] == st.nodes[x] {
        assert s2.nodes[x] == s1.nodes[x] == s.nodes[x];
      }
    }
    forall i | 0 <= i < |ps|
      ensures (ps[i].id, ParameterNode(ps[i])) in s'.nodes
    {
      assert s'.nodes[base + i] == s2.nodes[base + i];
    }
    forall i | 0 <= i < |d.parameters|
      ensures ParamOk(model, ids, s', d.parameters[i], ps[i])
    {
      assert ParamType(d, i) == d.parameters[i].typeName;
      assert (ps[i].id, ParameterNode(ps[i])) in s'.nodes;
    }
    if d.returnType.Some? {
      var i := |d.parameters|;
      assert ParamType(d, i).None?;
      assert (ps[i].id, ParameterNode(ps[i])) in s'.nodes;
    }
  }
}

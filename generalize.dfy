/**
  The first two stages of `transformModel`: registering the classes
  (src/model-transform.ts:163-172) and resolving the generalizations (174-197).
*/
module Generalize {
  import opened Wrappers
  import opened Ids
  import opened Registry
  import opened Transform

  /** The registry right after stage 1: one bare class node per input class, in input order. */
  predicate Registered(model: CodeModel, ids: seq<string>, st: State)
  {
    |ids| == |model.classes| == |st.nodes| &&
    (forall k :: 0 <= k < |ids| ==>
       st.nodes[k] == (ids[k], ClassNode(ids[k], model.classes[k].name, None, [], []))) &&
    st.dataTypes == [] && st.pool == InitialPool(model.associations) && st.draws == |ids|
  }

  /**
    Each class id is the least free candidate for the token drawn for that class, given the
    ids set before it.
  */
  ghost predicate LeastFreeIds(ids: seq<string>, tokens: nat -> string)
  {
    forall k :: 0 <= k < |ids| ==> IsLeastFree(ids[..k], tokens(k), ids[k])
  }

  lemma LeastFreeIdsStep(ids: seq<string>, tokens: nat -> string, id: string)
    requires LeastFreeIds(ids, tokens) && IsLeastFree(ids, tokens(|ids|), id)
    ensures LeastFreeIds(ids + [id], tokens)
  {
    forall k | 0 <= k < |ids| + 1
      ensures IsLeastFree((ids + [id])[..k], tokens(k), (ids + [id])[k])
    {
      if k < |ids| {
        assert (ids + [id])[..k] == ids[..k];
      } else {
        assert (ids + [id])[..k] == ids;
      }
    }
  }

  /**
    Stage 1: every class must have stereotype 0 or 2, otherwise the run aborts; each class
    gets the least free id built from its own random token, type uml:Class, and is set in
    the registry.
  */
  method RegisterClasses(model: CodeModel, tokens: nat -> string)
    returns (r: Result<(State, seq<string>), Error>)
    requires TokensOk(tokens)
    ensures r.Err? <==> exists k :: 0 <= k < |model.classes| && !StereotypeOk(model.classes[k])
    ensures r.Err? ==> r.error == UnexpectedStereotype
    ensures r.Ok? ==> Registered(model, r.value.1, r.value.0) && Inv(model, r.value.1, r.value.0)
    ensures r.Ok? ==> LeastFreeIds(r.value.1, tokens)
  {
    var classes := model.classes;
    var nodes: Entries := [];
    var ids: seq<string> := [];
    var i := 0;
    while i < |classes|
      invariant 0 <= i <= |classes| && |ids| == i
      invariant forall k :: 0 <= k < i ==> StereotypeOk(classes[k])
      invariant ClassPrefix(classes, ids, nodes)
      invariant LeastFreeIds(ids, tokens)
    {
      if !StereotypeOk(classes[i]) {
        return Err(UnexpectedStereotype);
      }
      var id := NewIdForNode(Keys(nodes), tokens(i));
      var node := ClassNode(id, classes[i].name, None, [], []);
      // xmiNodes.set with a key the map does not hold appends
      SetFresh(nodes, id, node);
      ClassPrefixStep(classes, ids, nodes, id);
      LeastFreeIdsStep(ids, tokens, id);
      nodes := Set(nodes, id, node);
      ids := ids + [id];
      i := i + 1;
    }
    var st := State(nodes, [], InitialPool(model.associations), i);
    RegisteredInv(model, ids, st);
    return Ok((st, ids));
  }

  /** The registry after the first |ids| classes of stage 1 have been set. */
  predicate ClassPrefix(classes: seq<ClassDecl>, ids: seq<string>, nodes: Entries)
  {
    |ids| == |nodes| <= |classes| && Keys(nodes) == ids &&
    (forall k :: 0 <= k < |ids| ==>
       nodes[k] == (ids[k], ClassNode(ids[k], classes[k].name, None, [], []))) &&
    (forall k :: 0 <= k < |ids| ==> |ids[k]| > 0 && ids[k][0] == '0') &&
    (forall a, b :: 0 <= a < b < |ids| ==> ids[a] != ids[b])
  }

  lemma ClassPrefixStep(classes: seq<ClassDecl>, ids: seq<string>, nodes: Entries, id: string)
    requires ClassPrefix(classes, ids, nodes) && |ids| < |classes|
    requires id !in Keys(nodes) && |id| > 0 && id[0] == '0'
    ensures ClassPrefix(classes, ids + [id],
                        nodes + [(id, ClassNode(id, classes[|ids|].name, None, [], []))])
  {
    KeysAppend(nodes, (id, ClassNode(id, classes[|ids|].name, None, [], [])));
  }

  /** Distinct ids make the registry of stage 1 satisfy the invariant. */
  lemma RegisteredInv(model: CodeModel, ids: seq<string>, st: State)
    requires Registered(model, ids, st)
    requires forall k :: 0 <= k < |ids| ==> |ids[k]| > 0 && ids[k][0] == '0'
    requires forall a, b :: 0 <= a < b < |ids| ==> ids[a] != ids[b]
    ensures Inv(model, ids, st)
  {
  }

  // ---------------------------------------------------------------------------
  // Stage 2

  /** During stage 2 the registry holds only classes, datatypes and generalizations. */
  predicate GenPhase(classes: seq<ClassDecl>, nodes: Entries)
  {
    forall i :: |classes| <= i < |nodes| ==> nodes[i].1.DataTypeNode? || nodes[i].1.GeneralizationNode?
  }

  /**
    findXmiNode(name) without a type during stage 2: the first class of that name if any,
    otherwise the datatype of that name if any.
  */
  lemma LookupAny(model: CodeModel, ids: seq<string>, st: State, name: string)
    requires ClassesAt(model.classes, ids, st.nodes) && DataTypesOk(model.classes, st.nodes, st.dataTypes)
    requires GenPhase(model.classes, st.nodes)
    ensures IsClassName(model.classes, name) ==>
              FirstMatch(st.nodes, name, None) == ClassIndex(model.classes, name)
    ensures !IsClassName(model.classes, name) ==>
              FirstMatch(st.nodes, name, None) == FirstMatch(st.nodes, name, Some(TYPE_EXT_DATA_TYPE))
  {
    var c := ClassIndex(model.classes, name);
    if c.Some? {
      FirstMatchAt(st.nodes, name, None, c.value);
    } else {
      forall i | 0 <= i < |st.nodes|
        ensures Matches(st.nodes[i].1, name, None) <==> Matches(st.nodes[i].1, name, Some(TYPE_EXT_DATA_TYPE))
      {
        TagDataType(st.nodes[i].1);
      }
      FirstMatchSame(st.nodes, name, None, Some(TYPE_EXT_DATA_TYPE));
    }
  }

  /** What a generalization of class f looks like once stored. */
  predicate GenStored(model: CodeModel, ids: seq<string>, st: State, f: nat, g: GeneralizationDecl,
                      gen: Generalization)
    requires |ids| == |model.classes| && f < |ids|
  {
    gen.fromId == ids[f] &&
    Resolves(model.classes, ids, st.dataTypes, g.toName, gen.toId) &&
    (gen.id, GeneralizationNode(gen)) in st.nodes
  }

  /**
    The target of a generalization: the first node named `name` (a class, else a datatype),
    or a datatype added for it when there is none.
  */
  method ResolveTarget(model: CodeModel, ids: seq<string>, st: State, name: string)
    returns (s: State, toId: string)
    requires Inv(model, ids, st) && GenPhase(model.classes, st.nodes)
    ensures Inv(model, ids, s) && GenPhase(model.classes, s.nodes)
    ensures Resolves(model.classes, ids, s.dataTypes, name, toId)
    ensures s == TypeResolved(model.classes, st, name)
    ensures NewTypeName(model.classes, st.dataTypes, name) ==> toId == Suffixed("datatype", |st.dataTypes|)
  {
    var to := FindXmiNode(st.nodes, name, None);
    LookupAny(model, ids, st, name);
    LookupDataType(model.classes, st, name);
    s := st;
    if to.None? {
      s, toId := AddExtDataType(model, ids, st, name);
      assert s.dataTypes[|st.dataTypes|] == (toId, name);
    } else {
      toId := to.value.id;
    }
  }

  /**
    The registry after class f's slot is set to `gen` and `gen` is set under its fresh id:
    writing the field of the registered class object changes its entry in place, and setting
    a key that is not in the map appends it (see AttachIsSet).
  */
  function AttachGeneralization(nodes: Entries, f: nat, gen: Generalization): (r: Entries)
    requires f < |nodes| && nodes[f].1.ClassNode?
    ensures |r| == |nodes| + 1 && r[|nodes|] == (gen.id, GeneralizationNode(gen))
    ensures r[f].1 == nodes[f].1.(generalization := Some(gen)) && r[f].0 == nodes[f].0
    ensures forall i :: 0 <= i < |nodes| && i != f ==> r[i] == nodes[i]
  {
    nodes[f := (nodes[f].0, nodes[f].1.(generalization := Some(gen)))] + [(gen.id, GeneralizationNode(gen))]
  }

  /** AttachGeneralization is the two Map updates the source performs, in either order. */
  lemma AttachIsSet(nodes: Entries, f: nat, gen: Generalization)
    requires KeysDistinct(nodes) && f < |nodes| && nodes[f].1.ClassNode? && gen.id !in Keys(nodes)
    ensures AttachGeneralization(nodes, f, gen) ==
            Set(Set(nodes, gen.id, GeneralizationNode(gen)), nodes[f].0, nodes[f].1.(generalization := Some(gen)))
  {
    var n1 := Set(nodes, gen.id, GeneralizationNode(gen));
    assert n1 == nodes + [(gen.id, GeneralizationNode(gen))];
    assert n1[f] == nodes[f];
    assert KeysDistinct(n1) by {
      forall i | 0 <= i < |nodes| ensures nodes[i].0 != gen.id {
        assert Keys(nodes)[i] == nodes[i].0;
      }
    }
    SetExisting(n1, f, nodes[f].1.(generalization := Some(gen)));
  }

  /** Attaching a generalization with a fresh token id keeps the invariant and the phase. */
  lemma InvAttach(model: CodeModel, ids: seq<string>, s: State, f: nat, gen: Generalization)
    requires Inv(model, ids, s) && GenPhase(model.classes, s.nodes) && f < |model.classes|
    requires gen.id !in Keys(s.nodes) && |gen.id| > 0 && gen.id[0] == '0'
    ensures Inv(model, ids, s.(nodes := AttachGeneralization(s.nodes, f, gen), draws := s.draws + 1))
    ensures GenPhase(model.classes, AttachGeneralization(s.nodes, f, gen))
  {
    var v := s.nodes[f].1.(generalization := Some(gen));
    InvUpdateClass(model, ids, s, f, v);
    var s1 := s.(nodes := s.nodes[f := (s.nodes[f].0, v)]);
    assert Keys(s1.nodes) == Keys(s.nodes);
    InvAppend(model, ids, s1, gen.id, GeneralizationNode(gen));
  }

  /**
    What one generalization does once its from-class (input class f) is found: the class's
    single generalization slot is set to it, replacing any earlier one; its target is the
    first node named toName, or a datatype added for it; it is set in the registry under a
    fresh id. Nothing else changes.
  */
  ghost predicate GenStep(model: CodeModel, ids: seq<string>, tokens: nat -> string, st: State,
                          g: GeneralizationDecl, f: nat, s: State)
    requires ClassesAt(model.classes, ids, st.nodes) && f < |model.classes|
  {
    Inv(model, ids, s) && GenPhase(model.classes, s.nodes) && GenEffect(model, ids, tokens, st, g, f, s)
  }

  /** GenStep without the invariant. */
  ghost predicate GenEffect(model: CodeModel, ids: seq<string>, tokens: nat -> string, st: State,
                            g: GeneralizationDecl, f: nat, s: State)
    requires ClassesAt(model.classes, ids, st.nodes) && f < |model.classes|
  {
    var mid := TypeResolved(model.classes, st, g.toName).nodes;
    ClassesAt(model.classes, ids, s.nodes) &&
    Grows(|model.classes|, st, s) && s.pool == st.pool && s.draws == st.draws + 1 &&
    s.nodes[f].1.generalization.Some? &&
    s.nodes[f].1 == st.nodes[f].1.(generalization := s.nodes[f].1.generalization) &&
    GenStored(model, ids, s, f, g, s.nodes[f].1.generalization.value) &&
    (forall k :: 0 <= k < |model.classes| && k != f ==> s.nodes[k] == st.nodes[k]) &&
    s.dataTypes == TypeResolved(model.classes, st, g.toName).dataTypes &&
    IsLeastFree(Keys(mid), tokens(st.draws), s.nodes[f].1.generalization.value.id) &&
    s.nodes == AttachGeneralization(mid, f, s.nodes[f].1.generalization.value)
  }

  /**
    Registry value n is one stage 2 adds for a generalization of the model: the datatype
    for its target name, or a generalization from its from-class.
  */
  ghost predicate GenMade(model: CodeModel, ids: seq<string>, n: Node)
    requires |ids| == |model.classes|
  {
    var gens := model.generalizations;
    match n
    case DataTypeNode(_, name) => exists j :: 0 <= j < |gens| && gens[j].toName == name
    case GeneralizationNode(g) =>
      exists j :: 0 <= j < |gens| && ClassIndex(model.classes, gens[j].fromName).Some? &&
                  g.fromId == ids[ClassIndex(model.classes, gens[j].fromName).value]
    case _ => false
  }

  /** Every entry from position `from` on is one stage 2 adds. */
  ghost predicate GensMade(model: CodeModel, ids: seq<string>, nodes: Entries, from: nat)
    requires |ids| == |model.classes|
  {
    forall x :: from <= x < |nodes| ==> GenMade(model, ids, nodes[x].1)
  }

  /** The entries generalization i adds are ones stage 2 adds. */
  lemma GensMadeStep(model: CodeModel, ids: seq<string>, tokens: nat -> string, st: State, s: State,
                     i: nat, from: nat)
    requires i < |model.generalizations| && IsClassName(model.classes, model.generalizations[i].fromName)
    requires ClassesAt(model.classes, ids, st.nodes) && |model.classes| <= from <= |st.nodes|
    requires GensMade(model, ids, st.nodes, from)
    requires GenEffect(model, ids, tokens, st, model.generalizations[i],
                       ClassIndex(model.classes, model.generalizations[i].fromName).value, s)
    ensures GensMade(model, ids, s.nodes, from)
  {
    var g := model.generalizations[i];
    var f := ClassIndex(model.classes, g.fromName).value;
    var gen := s.nodes[f].1.generalization.value;
    var mid := TypeResolved(model.classes, st, g.toName).nodes;
    forall x | from <= x < |s.nodes| ensures GenMade(model, ids, s.nodes[x].1) {
      if x < |st.nodes| {
        assert s.nodes[x] == st.nodes[x];
      } else if x < |mid| {
        assert s.nodes[x] == mid[x];
      } else {
        assert s.nodes[x].1 == GeneralizationNode(gen);
      }
    }
  }

  /** Growth is transitive. */
  lemma GrowsTrans(n: nat, a: State, b: State, c: State)
    requires Grows(n, a, b) && Grows(n, b, c)
    ensures Grows(n, a, c)
  {
  }

  /** The found branch of a generalization. */
  method StoreGeneralization(model: CodeModel, ids: seq<string>, st: State, g: GeneralizationDecl,
                             f: nat, tokens: nat -> string)
    returns (s': State)
    requires Inv(model, ids, st) && GenPhase(model.classes, st.nodes) && TokensOk(tokens)
    requires f < |model.classes|
    ensures GenStep(model, ids, tokens, st, g, f, s')
  {
    var fromNode := st.nodes[f].1;
    var s, toId := ResolveTarget(model, ids, st, g.toName);
    var gid := NewIdForNode(Keys(s.nodes), tokens(s.draws));
    var gen := Generalization(gid, fromNode.id, toId);
    var nodes := AttachGeneralization(s.nodes, f, gen);
    AttachIsSet(s.nodes, f, gen);
    InvAttach(model, ids, s, f, gen);
    GenStepAttach(model, ids, tokens, st, s, g, f, gen);
    s' := s.(nodes := nodes, draws := s.draws + 1);
  }

  /** Attaching the generalization to the state after its target was resolved completes GenStep. */
  lemma GenStepAttach(model: CodeModel, ids: seq<string>, tokens: nat -> string, st: State, s: State,
                      g: GeneralizationDecl, f: nat, gen: Generalization)
    requires ClassesAt(model.classes, ids, st.nodes) && f < |model.classes|
    requires s == TypeResolved(model.classes, st, g.toName)
    requires gen.fromId == ids[f] && Resolves(model.classes, ids, s.dataTypes, g.toName, gen.toId)
    requires IsLeastFree(Keys(s.nodes), tokens(st.draws), gen.id)
    requires ClassesAt(model.classes, ids, AttachGeneralization(s.nodes, f, gen))
    ensures GenEffect(model, ids, tokens, st, g, f,
                      s.(nodes := AttachGeneralization(s.nodes, f, gen), draws := s.draws + 1))
  {
    var s' := s.(nodes := AttachGeneralization(s.nodes, f, gen), draws := s.draws + 1);
    assert s'.nodes[|s.nodes|] == (gen.id, GeneralizationNode(gen));
    assert st.dataTypes <= s.dataTypes;
  }

  /**
    One generalization: the from-class must exist ("From node not found"), and then the
    first class of that name is changed as GenStep says.
  */
  method ResolveGeneralization(model: CodeModel, ids: seq<string>, st: State, g: GeneralizationDecl,
                               tokens: nat -> string)
    returns (r: Result<State, Error>)
    requires Inv(model, ids, st) && GenPhase(model.classes, st.nodes) && TokensOk(tokens)
    ensures r.Err? <==> !IsClassName(model.classes, g.fromName)
    ensures r.Err? ==> r.error == FromNodeNotFound(g.fromName)
    ensures r.Ok? ==> GenStep(model, ids, tokens, st, g, ClassIndex(model.classes, g.fromName).value, r.value)
  {
    var from := FindXmiNode(st.nodes, g.fromName, Some(TYPE_CLASS));
    LookupClass(model.classes, ids, st.nodes, g.fromName);
    if from.None? {
      return Err(FromNodeNotFound(g.fromName));
    }
    var s := StoreGeneralization(model, ids, st, g, ClassIndex(model.classes, g.fromName).value, tokens);
    return Ok(s);
  }

  /** The last generalization among `gens` whose from-class is class k. */
  function LastGenFor(classes: seq<ClassDecl>, gens: seq<GeneralizationDecl>, k: nat): (r: Option<nat>)
    ensures r.Some? ==> r.value < |gens| && ClassIndex(classes, gens[r.value].fromName) == Some(k)
    ensures r.Some? ==> forall j :: r.value < j < |gens| ==> ClassIndex(classes, gens[j].fromName) != Some(k)
    ensures r.None? ==> forall j :: 0 <= j < |gens| ==> ClassIndex(classes, gens[j].fromName) != Some(k)
  {
    if gens == [] then None
    else if ClassIndex(classes, gens[|gens| - 1].fromName) == Some(k) then Some(|gens| - 1)
    else LastGenFor(classes, gens[..|gens| - 1], k)
  }

  /**
    The generalization slot of class k after the generalizations `gens`: empty if none of
    them starts at k, otherwise the last one that does.
  */
  predicate GenSlotOk(model: CodeModel, ids: seq<string>, st: State, gens: seq<GeneralizationDecl>, k: nat)
    requires |ids| == |model.classes| && k < |ids| && ClassesAt(model.classes, ids, st.nodes)
  {
    var slot := st.nodes[k].1.generalization;
    match LastGenFor(model.classes, gens, k)
    case None => slot.None?
    case Some(j) => slot.Some? && GenStored(model, ids, st, k, gens[j], slot.value)
  }

  /** A stored generalization stays valid while the state grows. */
  lemma GenStoredGrows(model: CodeModel, ids: seq<string>, st: State, st': State, f: nat,
                       g: GeneralizationDecl, gen: Generalization)
    requires |ids| == |model.classes| && f < |ids| && ClassesAt(model.classes, ids, st.nodes)
    requires Grows(|model.classes|, st, st') && GenStored(model, ids, st, f, g, gen)
    ensures GenStored(model, ids, st', f, g, gen)
  {
    ResolvesGrows(model.classes, ids, st.dataTypes, st'.dataTypes, g.toName, gen.toId);
    var m :| 0 <= m < |st.nodes| && st.nodes[m] == (gen.id, GeneralizationNode(gen));
    assert st'.nodes[m] == st.nodes[m];
  }

  /**
    After the generalizations `gens`, class k keeps its stage-1 node except for its
    generalization slot, which is as GenSlotOk says.
  */
  predicate SlotOk(model: CodeModel, ids: seq<string>, st0: State, st: State, gens: seq<GeneralizationDecl>, k: nat)
    requires ClassesAt(model.classes, ids, st0.nodes) && ClassesAt(model.classes, ids, st.nodes)
    requires k < |model.classes|
  {
    st.nodes[k].1 == st0.nodes[k].1.(generalization := st.nodes[k].1.generalization) &&
    GenSlotOk(model, ids, st, gens, k)
  }

  predicate SlotsOk(model: CodeModel, ids: seq<string>, st0: State, st: State, gens: seq<GeneralizationDecl>)
    requires ClassesAt(model.classes, ids, st0.nodes) && ClassesAt(model.classes, ids, st.nodes)
  {
    forall k {:trigger SlotOk(model, ids, st0, st, gens, k)} :: 0 <= k < |model.classes| ==>
      SlotOk(model, ids, st0, st, gens, k)
  }

  /** One more generalization keeps SlotsOk: only its from-class's slot changes. */
  lemma SlotsStep(model: CodeModel, ids: seq<string>, tokens: nat -> string, st0: State, st: State, s: State,
                  gens: seq<GeneralizationDecl>, i: nat)
    requires i < |gens| && IsClassName(model.classes, gens[i].fromName)
    requires ClassesAt(model.classes, ids, st0.nodes) && ClassesAt(model.classes, ids, st.nodes)
    requires SlotsOk(model, ids, st0, st, gens[..i])
    requires GenEffect(model, ids, tokens, st, gens[i], ClassIndex(model.classes, gens[i].fromName).value, s)
    ensures SlotsOk(model, ids, st0, s, gens[..i + 1])
  {
    var f := ClassIndex(model.classes, gens[i].fromName).value;
    var pre, post := gens[..i], gens[..i + 1];
    assert post[..i] == pre && post[i] == gens[i];
    forall k | 0 <= k < |model.classes|
      ensures SlotOk(model, ids, st0, s, post, k)
    {
      assert SlotOk(model, ids, st0, st, pre, k);
      if k != f {
        assert LastGenFor(model.classes, post, k) == LastGenFor(model.classes, pre, k);
        var last := LastGenFor(model.classes, pre, k);
        if last.Some? {
          GenStoredGrows(model, ids, st, s, k, pre[last.value], st.nodes[k].1.generalization.value);
        }
      }
    }
  }

  /**
    The error stage 2 raises: FromNodeNotFound with the from-name of the first
    generalization whose from-class does not exist.
  */
  function GensError(classes: seq<ClassDecl>, gens: seq<GeneralizationDecl>): (e: Option<Error>)
    ensures e.None? <==> FromsExist(classes, gens)
    ensures e.Some? ==> exists j :: 0 <= j < |gens| && FromsExist(classes, gens[..j]) &&
                          !IsClassName(classes, gens[j].fromName) &&
                          e == Some(FromNodeNotFound(gens[j].fromName))
  {
    if gens == [] then None
    else if !IsClassName(classes, gens[0].fromName) then
      assert FromsExist(classes, gens[..0]);
      Some(FromNodeNotFound(gens[0].fromName))
    else
      var e := GensError(classes, gens[1..]);
      assert e.None? ==> FromsExist(classes, gens) by {
        if e.None? {
          forall j | 0 <= j < |gens| ensures IsClassName(classes, gens[j].fromName) {
            if j > 0 { assert gens[j] == gens[1..][j - 1]; }
          }
        }
      }
      assert e.Some? ==> exists j :: 0 <= j < |gens| && FromsExist(classes, gens[..j]) &&
                          !IsClassName(classes, gens[j].fromName) &&
                          e == Some(FromNodeNotFound(gens[j].fromName)) by {
        if e.Some? {
          var j :| 0 <= j < |gens| - 1 && FromsExist(classes, gens[1..][..j]) &&
                   !IsClassName(classes, gens[1..][j].fromName) &&
                   e == Some(FromNodeNotFound(gens[1..][j].fromName));
          assert gens[..j + 1] == [gens[0]] + gens[1..][..j];
          assert FromsExist(classes, gens[..j + 1]);
        }
      }
      e
  }

  /** GensError of the suffix from position i, by the generalization at i. */
  lemma GensErrorAt(classes: seq<ClassDecl>, gens: seq<GeneralizationDecl>, i: nat)
    requires i < |gens|
    ensures !IsClassName(classes, gens[i].fromName) ==>
              GensError(classes, gens[i..]) == Some(FromNodeNotFound(gens[i].fromName))
    ensures IsClassName(classes, gens[i].fromName) ==>
              GensError(classes, gens[i..]) == GensError(classes, gens[i + 1..])
  {
    assert gens[i..][0] == gens[i] && gens[i..][1..] == gens[i + 1..];
  }

  /** Every generalization starts at an input class. */
  predicate FromsExist(classes: seq<ClassDecl>, gens: seq<GeneralizationDecl>)
  {
    forall j :: 0 <= j < |gens| ==> IsClassName(classes, gens[j].fromName)
  }

  lemma FromsStep(classes: seq<ClassDecl>, gens: seq<GeneralizationDecl>, i: nat)
    requires i < |gens| && FromsExist(classes, gens[..i]) && IsClassName(classes, gens[i].fromName)
    ensures FromsExist(classes, gens[..i + 1])
  {
    assert gens[..i + 1] == gens[..i] + [gens[i]];
  }

  /**
    Stage 2: the generalizations in order; the first whose from-class does not exist aborts
    the run. Afterwards every class's slot holds the last generalization that starts at it.
  */
  method ResolveGeneralizations(model: CodeModel, ids: seq<string>, st0: State, tokens: nat -> string)
    returns (r: Result<State, Error>)
    requires Inv(model, ids, st0) && GenPhase(model.classes, st0.nodes) && TokensOk(tokens)
    requires forall k :: 0 <= k < |model.classes| ==> st0.nodes[k].1.generalization.None?
    ensures r.Err? <==> GensError(model.classes, model.generalizations).Some?
    ensures r.Err? ==> r.error == GensError(model.classes, model.generalizations).value
    ensures r.Ok? ==> Inv(model, ids, r.value) && GenPhase(model.classes, r.value.nodes) &&
                      Grows(|model.classes|, st0, r.value) && r.value.pool == st0.pool
    ensures r.Ok? ==> SlotsOk(model, ids, st0, r.value, model.generalizations)
    ensures r.Ok? ==> GensMade(model, ids, r.value.nodes, |st0.nodes|)
  {
    var gens := model.generalizations;
    var st := st0;
    var i := 0;
    while i < |gens|
      invariant 0 <= i <= |gens|
      invariant Inv(model, ids, st) && GenPhase(model.classes, st.nodes)
      invariant Grows(|model.classes|, st0, st) && st.pool == st0.pool
      invariant FromsExist(model.classes, gens[..i])
      invariant SlotsOk(model, ids, st0, st, gens[..i])
      invariant GensError(model.classes, gens) == GensError(model.classes, gens[i..])
      invariant GensMade(model, ids, st.nodes, |st0.nodes|)
    {
      var r1 := ResolveGeneralization(model, ids, st, gens[i], tokens);
      GensErrorAt(model.classes, gens, i);
      if r1.Err? {
        return Err(r1.error);
      }
      FromsStep(model.classes, gens, i);
      SlotsStep(model, ids, tokens, st0, st, r1.value, gens, i);
      GensMadeStep(model, ids, tokens, st, r1.value, i, |st0.nodes|);
      GrowsTrans(|model.classes|, st0, st, r1.value);
      st := r1.value;
      i := i + 1;
    }
    assert gens[..i] == gens;
    return Ok(st);
  }
}

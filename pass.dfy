/**
  The class loop of stage 3 (src/model-transform.ts:199-316) and the whole pass,
  `transformModel` (src/model-transform.ts:152-319), with the facts it establishes
  about the registry it returns.
*/
module Pass {
  import opened Wrappers
  import opened Ids
  import opened Registry
  import opened Transform
  import opened Generalize
  import opened Annotate

  // ---------------------------------------------------------------------------
  // Which error a run raises

  /** The error of the first property among ds whose annotation fails, if any. */
  function PropsError(model: CodeModel, k: nat, ds: seq<PropertyDecl>): (e: Option<Error>)
    requires k < |model.classes|
    ensures e.None? <==> forall i :: 0 <= i < |ds| ==> PropertyError(model, k, ds[i]).None?
    ensures e.Some? ==> exists i :: 0 <= i < |ds| && e == PropertyError(model, k, ds[i]) &&
                          forall i' :: 0 <= i' < i ==> PropertyError(model, k, ds[i']).None?
  {
    if ds == [] then None
    else if PropertyError(model, k, ds[0]).Some? then PropertyError(model, k, ds[0])
    else
      var e := PropsError(model, k, ds[1..]);
      assert e.None? ==> forall i :: 0 <= i < |ds| ==> PropertyError(model, k, ds[i]).None? by {
        if e.None? {
          forall i | 0 < i < |ds| ensures PropertyError(model, k, ds[i]).None? {
            assert ds[i] == ds[1..][i - 1];
          }
        }
      }
      assert e.Some? ==> exists i :: 0 <= i < |ds| && e == PropertyError(model, k, ds[i]) &&
                          forall i' :: 0 <= i' < i ==> PropertyError(model, k, ds[i']).None? by {
        if e.Some? {
          var i :| 0 <= i < |ds| - 1 && e == PropertyError(model, k, ds[1..][i]) &&
                   forall i' :: 0 <= i' < i ==> PropertyError(model, k, ds[1..][i']).None?;
          forall i' | 0 < i' < i + 1 ensures PropertyError(model, k, ds[i']).None? {
            assert ds[i'] == ds[1..][i' - 1];
          }
        }
      }
      e
  }

  /** The error of the methods ds: an accessibility code outside TSVisibilityMap. */
  function MethodsError(ds: seq<MethodDecl>): (e: Option<Error>)
    ensures e.None? <==> forall i :: 0 <= i < |ds| ==> VisibilityOf(ds[i].accessibility).Some?
    ensures e.Some? ==> e.value == VisibilityModifierNotFound
  {
    if ds == [] then None
    else if VisibilityOf(ds[0].accessibility).None? then Some(VisibilityModifierNotFound)
    else
      var e := MethodsError(ds[1..]);
      assert e.None? ==> forall i :: 0 <= i < |ds| ==> VisibilityOf(ds[i].accessibility).Some? by {
        if e.None? {
          forall i | 0 < i < |ds| ensures VisibilityOf(ds[i].accessibility).Some? {
            assert ds[i] == ds[1..][i - 1];
          }
        }
      }
      e
  }

  /** Class k fails on its first failing property, or else on a method with an unknown visibility. */
  function ClassError(model: CodeModel, k: nat): Option<Error>
    requires k < |model.classes|
  {
    var e := PropsError(model, k, model.classes[k].properties);
    if e.Some? then e else MethodsError(model.classes[k].methods)
  }

  /** Class c is the first class from position k on whose annotation fails. */
  predicate FirstFailingClass(model: CodeModel, k: nat, c: nat)
  {
    k <= c < |model.classes| && ClassError(model, c).Some? &&
    forall c' :: k <= c' < c ==> ClassError(model, c').None?
  }

  /** The error of the first class from position k on whose annotation fails, if any. */
  function ClassesErrorFrom(model: CodeModel, k: nat): (e: Option<Error>)
    ensures e.None? <==> forall c :: k <= c < |model.classes| ==> ClassError(model, c).None?
    ensures e.Some? ==> exists c :: FirstFailingClass(model, k, c) && e == ClassError(model, c)
    decreases |model.classes| - k
  {
    if k >= |model.classes| then None
    else if ClassError(model, k).Some? then
      assert FirstFailingClass(model, k, k);
      ClassError(model, k)
    else
      var e := ClassesErrorFrom(model, k + 1);
      ClassesErrorPass(model, k, e);
      e
  }

  /** A class that passes hands the search for the first failing class on to the next class. */
  lemma {:induction false} ClassesErrorPass(model: CodeModel, k: nat, e: Option<Error>)
    requires k < |model.classes| && ClassError(model, k).None?
    requires e.None? <==> forall c :: k + 1 <= c < |model.classes| ==> ClassError(model, c).None?
    requires e.Some? ==> exists c :: FirstFailingClass(model, k + 1, c) && e == ClassError(model, c)
    ensures e.None? <==> forall c :: k <= c < |model.classes| ==> ClassError(model, c).None?
    ensures e.Some? ==> exists c :: FirstFailingClass(model, k, c) && e == ClassError(model, c)
  {
    if e.Some? {
      var c :| FirstFailingClass(model, k + 1, c) && e == ClassError(model, c);
      assert FirstFailingClass(model, k, c);
      assert ClassError(model, c).Some?;
    } else {
      forall c | k <= c < |model.classes| ensures ClassError(model, c).None? {
      }
    }
  }

  /** Class k either fails with its own error or passes the search on to class k + 1. */
  lemma {:induction false} ClassesErrorStep(model: CodeModel, k: nat)
    requires k < |model.classes|
    ensures ClassError(model, k).Some? ==> ClassesErrorFrom(model, k) == ClassError(model, k)
    ensures ClassError(model, k).None? ==> ClassesErrorFrom(model, k) == ClassesErrorFrom(model, k + 1)
  {
  }

  /**
    The error the whole pass raises: an unexpected stereotype (stage 1), else a missing
    from-class (stage 2), else the first failing class of stage 3.
  */
  function ModelError(model: CodeModel): Option<Error>
  {
    if exists k :: 0 <= k < |model.classes| && !StereotypeOk(model.classes[k]) then Some(UnexpectedStereotype)
    else if GensError(model.classes, model.generalizations).Some? then GensError(model.classes, model.generalizations)
    else ClassesErrorFrom(model, 0)
  }

  // ---------------------------------------------------------------------------
  // Where the registry entries of stage 3 come from

  /**
    Registry value n is one that annotating properties ps of class k adds: one of the
    properties, an association one of them refers to, or the datatype for a declared type.
  */
  ghost predicate PropMade(model: CodeModel, k: nat, ps: seq<Property>, n: Node)
    requires k < |model.classes|
  {
    var ds := model.classes[k].properties;
    match n
    case PropertyNode(p) => p in ps
    case AssociationNode(a) => exists q :: 0 <= q < |ps| && ps[q].association == Some(a.id)
    case DataTypeNode(_, name) => exists q :: 0 <= q < |ds| && ds[q].typeName == Some(name)
    case _ => false
  }

  /**
    Registry value n is one that annotating methods ms of class k adds: one of the methods,
    one of their parameters, or the datatype for a declared parameter type.
  */
  ghost predicate MethodMade(model: CodeModel, k: nat, ms: seq<Method>, n: Node)
    requires k < |model.classes|
  {
    var ds := model.classes[k].methods;
    match n
    case MethodNode(m) => m in ms
    case ParameterNode(p) => exists q :: 0 <= q < |ms| && p in ms[q].parameters
    case DataTypeNode(_, name) => exists q :: 0 <= q < |ds| && name in DeclaredTypeNames(ds[q])
    case _ => false
  }

  /** Registry value n is one that annotating class k, whose node is c, adds. */
  ghost predicate MemberMade(model: CodeModel, k: nat, c: Node, n: Node)
    requires k < |model.classes|
  {
    c.ClassNode? && (PropMade(model, k, c.properties, n) || MethodMade(model, k, c.methods, n))
  }

  ghost predicate PropsMade(model: CodeModel, k: nat, nodes: Entries, from: nat, ps: seq<Property>)
    requires k < |model.classes|
  {
    forall x :: from <= x < |nodes| ==> PropMade(model, k, ps, nodes[x].1)
  }

  ghost predicate MethodsMade(model: CodeModel, k: nat, nodes: Entries, from: nat, ms: seq<Method>)
    requires k < |model.classes|
  {
    forall x :: from <= x < |nodes| ==> MethodMade(model, k, ms, nodes[x].1)
  }

  /** Every entry from position `from` on is one that annotating class k adds. */
  ghost predicate ClassMade(model: CodeModel, k: nat, nodes: Entries, from: nat)
    requires k < |model.classes| && k < |nodes|
  {
    forall x :: from <= x < |nodes| ==> MemberMade(model, k, nodes[k].1, nodes[x].1)
  }

  /** Entry x is one that annotating one of the first n classes adds. */
  ghost predicate MadeBefore(model: CodeModel, nodes: Entries, x: nat, n: nat)
    requires x < |nodes|
  {
    exists c :: 0 <= c < n && c < |model.classes| && c < |nodes| && MemberMade(model, c, nodes[c].1, nodes[x].1)
  }

  ghost predicate ClassesMade(model: CodeModel, nodes: Entries, from: nat, n: nat)
  {
    forall x :: from <= x < |nodes| ==> MadeBefore(model, nodes, x, n)
  }

  lemma PropMadeMore(model: CodeModel, k: nat, ps: seq<Property>, p: Property, n: Node)
    requires k < |model.classes| && PropMade(model, k, ps, n)
    ensures PropMade(model, k, ps + [p], n)
  {
    if n.AssociationNode? {
      var q :| 0 <= q < |ps| && ps[q].association == Some(n.association.id);
      assert (ps + [p])[q] == ps[q];
    }
  }

  lemma MethodMadeMore(model: CodeModel, k: nat, ms: seq<Method>, m: Method, n: Node)
    requires k < |model.classes| && MethodMade(model, k, ms, n)
    ensures MethodMade(model, k, ms + [m], n)
  {
    if n.ParameterNode? {
      var q :| 0 <= q < |ms| && n.parameter in ms[q].parameters;
      assert (ms + [m])[q] == ms[q];
    }
  }

  /** The entries one more property adds are ones annotating the class's properties adds. */
  lemma PropsMadeStep(model: CodeModel, ids: seq<string>, k: nat, s: State, s': State, from: nat,
                      ps: seq<Property>, p: Property)
    requires |ids| == |model.classes| && k < |model.classes| && |ps| < |model.classes[k].properties|
    requires from <= |s.nodes| && PropsMade(model, k, s.nodes, from, ps)
    requires PropertyEffect(model, ids, s, k, p, s')
    requires model.classes[k].properties[|ps|].typeName == Some(p.typ.value.name)
    ensures PropsMade(model, k, s'.nodes, from, ps + [p])
  {
    var t := s.(nodes := s.nodes + [(p.id, PropertyNode(p))], draws := s.draws + 1);
    var extra: Entries;
    if IsClassName(model.classes, p.typ.value.name) {
      var j := PoolIndex(t.pool, model.classes[k].name, p.typ.value.name).value;
      if t.pool[j].annotation.None? {
        var a := Association("ASSOC_" + p.id, p.visibility, ids[k], p.typ.value.target, false);
        extra := [(a.id, AssociationNode(a))];
        assert PropMade(model, k, ps + [p], AssociationNode(a)) by {
          assert (ps + [p])[|ps|] == p;
        }
      } else {
        extra := [];
      }
    } else {
      TypeResolvedEntries(model.classes, t, p.typ.value.name);
      extra := DataTypeEntries(s'.dataTypes[|t.dataTypes|..]);
      if NewTypeName(model.classes, t.dataTypes, p.typ.value.name) {
        assert extra[0].1.name == p.typ.value.name;
      }
    }
    assert s'.nodes == t.nodes + extra;
    assert forall x :: 0 <= x < |extra| ==> PropMade(model, k, ps + [p], extra[x].1);
    forall x | from <= x < |s'.nodes| ensures PropMade(model, k, ps + [p], s'.nodes[x].1) {
      if x < |s.nodes| {
        assert s'.nodes[x] == s.nodes[x];
        PropMadeMore(model, k, ps, p, s.nodes[x].1);
      } else if x > |s.nodes| {
        assert s'.nodes[x] == extra[x - |t.nodes|];
      }
    }
  }

  /** The entries one more method adds are ones annotating the class's methods adds. */
  lemma MethodsMadeStep(model: CodeModel, k: nat, s: State, s': State, from: nat, ms: seq<Method>, m: Method)
    requires k < |model.classes| && |ms| < |model.classes[k].methods|
    requires from <= |s.nodes| && MethodsMade(model, k, s.nodes, from, ms)
    requires MethodEffect(model.classes, s, model.classes[k].methods[|ms|], m, s')
    ensures MethodsMade(model, k, s'.nodes, from, ms + [m])
  {
    var d := model.classes[k].methods[|ms|];
    var base := |s.nodes| + 1;
    var dts := s'.dataTypes[|s.dataTypes|..];
    AddTypeNamesFrom(model.classes, s.dataTypes, DeclaredTypeNames(d));
    assert (ms + [m])[|ms|] == m;
    forall x | from <= x < |s'.nodes| ensures MethodMade(model, k, ms + [m], s'.nodes[x].1) {
      if x < |s.nodes| {
        assert s'.nodes[x] == s.nodes[x];
        MethodMadeMore(model, k, ms, m, s.nodes[x].1);
      } else if x == |s.nodes| {
      } else if x < base + |m.parameters| {
        assert s'.nodes[x] == ParamEntries(m.parameters)[x - base];
      } else {
        var y := x - base - |m.parameters|;
        assert s'.nodes[x] == DataTypeEntries(dts)[y];
        assert dts[y] == s'.dataTypes[|s.dataTypes| + y];
      }
    }
  }

  /** After class k, its node lists the members whose entries were added. */
  lemma ClassMadeOf(model: CodeModel, k: nat, st: State, s1: State, s2: State, s3: State,
                    ps: seq<Property>, ms: seq<Method>)
    requires k < |model.classes| <= |st.nodes| && st.nodes[k].1.ClassNode?
    requires st.nodes <= s1.nodes <= s2.nodes
    requires PropsMade(model, k, s1.nodes, |st.nodes|, ps) && MethodsMade(model, k, s2.nodes, |s1.nodes|, ms)
    requires s3.nodes == s2.nodes[k := (s2.nodes[k].0, s2.nodes[k].1.(properties := ps, methods := ms))]
    ensures ClassMade(model, k, s3.nodes, |st.nodes|)
  {
    forall x | |st.nodes| <= x < |s3.nodes| ensures MemberMade(model, k, s3.nodes[k].1, s3.nodes[x].1) {
      if x < |s1.nodes| {
        assert s3.nodes[x] == s1.nodes[x];
      } else {
        assert s3.nodes[x] == s2.nodes[x];
      }
    }
  }

  /** Class k's entries join those of the classes before it; class nodes before k are untouched. */
  lemma ClassesMadeStep(model: CodeModel, s: State, s': State, from: nat, k: nat)
    requires k < |model.classes| <= from <= |s.nodes| <= |s'.nodes|
    requires forall x :: |model.classes| <= x < |s.nodes| ==> s'.nodes[x] == s.nodes[x]
    requires forall c :: 0 <= c < |model.classes| && c != k ==> s'.nodes[c] == s.nodes[c]
    requires ClassesMade(model, s.nodes, from, k) && ClassMade(model, k, s'.nodes, |s.nodes|)
    ensures ClassesMade(model, s'.nodes, from, k + 1)
  {
    var n := k + 1;
    forall x | from <= x < |s'.nodes| ensures MadeBefore(model, s'.nodes, x, n) {
      if x < |s.nodes| {
        assert MadeBefore(model, s.nodes, x, k);
        var c :| 0 <= c < k && c < |model.classes| && c < |s.nodes| &&
                 MemberMade(model, c, s.nodes[c].1, s.nodes[x].1);
        assert s'.nodes[c] == s.nodes[c] && s'.nodes[x] == s.nodes[x];
      } else {
        assert MemberMade(model, k, s'.nodes[k].1, s'.nodes[x].1);
      }
    }
  }

  // ---------------------------------------------------------------------------
  // The members of one class

  lemma ExtendsGrows(n: nat, s: State, s': State)
    requires Extends(s, s')
    ensures Grows(n, s, s')
  {
  }

  /** Properties ps are the annotations of the first |ps| declarations ds of class k. */
  predicate PropsOk(model: CodeModel, ids: seq<string>, s: State, k: nat, ds: seq<PropertyDecl>, ps: seq<Property>)
    requires |ids| == |model.classes| && k < |ids|
  {
    |ps| <= |ds| && forall i :: 0 <= i < |ps| ==> PropertyOk(model, ids, s, k, ds[i], ps[i])
  }

  lemma PropsGrows(model: CodeModel, ids: seq<string>, s: State, s': State, k: nat,
                   ds: seq<PropertyDecl>, ps: seq<Property>)
    requires |ids| == |model.classes| && k < |ids| && ClassesAt(model.classes, ids, s.nodes)
    requires Grows(|model.classes|, s, s') && PoolGrows(s.pool, s'.pool)
    requires PropsOk(model, ids, s, k, ds, ps)
    ensures PropsOk(model, ids, s', k, ds, ps)
  {
    forall i | 0 <= i < |ps| ensures PropertyOk(model, ids, s', k, ds[i], ps[i]) {
      PropertyOkGrows(model, ids, s, s', k, ds[i], ps[i]);
    }
  }

  lemma PropsStep(model: CodeModel, ids: seq<string>, s: State, s': State, k: nat,
                  ds: seq<PropertyDecl>, ps: seq<Property>, p: Property)
    requires |ids| == |model.classes| && k < |ids| && ClassesAt(model.classes, ids, s.nodes)
    requires Extends(s, s') && PropsOk(model, ids, s, k, ds, ps) && |ps| < |ds|
    requires PropertyOk(model, ids, s', k, ds[|ps|], p)
    ensures PropsOk(model, ids, s', k, ds, ps + [p])
  {
    ExtendsGrows(|model.classes|, s, s');
    PropsGrows(model, ids, s, s', k, ds, ps);
  }

  /**
    The properties of class k in order (src/model-transform.ts:206-258): the first failing
    one aborts the run.
  */
  method AnnotateProperties(model: CodeModel, ids: seq<string>, st: State, k: nat, tokens: nat -> string)
    returns (r: Result<(State, seq<Property>), Error>)
    requires Inv(model, ids, st) && TokensOk(tokens) && k < |model.classes|
    ensures r.Err? <==> PropsError(model, k, model.classes[k].properties).Some?
    ensures r.Err? ==> r.error == PropsError(model, k, model.classes[k].properties).value
    ensures r.Ok? ==> Inv(model, ids, r.value.0) && Extends(st, r.value.0) &&
                      |r.value.1| == |model.classes[k].properties| &&
                      PropsOk(model, ids, r.value.0, k, model.classes[k].properties, r.value.1) &&
                      PropsMade(model, k, r.value.0.nodes, |st.nodes|, r.value.1)
  {
    var ds := model.classes[k].properties;
    var s := st;
    var ps: seq<Property> := [];
    var i := 0;
    while i < |ds|
      invariant 0 <= i <= |ds| && |ps| == i
      invariant Inv(model, ids, s) && Extends(st, s)
      invariant PropsOk(model, ids, s, k, ds, ps)
      invariant PropsMade(model, k, s.nodes, |st.nodes|, ps)
      invariant PropsError(model, k, ds) == PropsError(model, k, ds[i..])
    {
      var r1 := AnnotateProperty(model, ids, s, k, ds[i], tokens);
      assert ds[i..][0] == ds[i] && ds[i..][1..] == ds[i + 1..];
      if r1.Err? {
        return Err(r1.error);
      }
      PropsStep(model, ids, s, r1.value.0, k, ds, ps, r1.value.1);
      PropsMadeStep(model, ids, k, s, r1.value.0, |st.nodes|, ps, r1.value.1);
      ExtendsTrans(st, s, r1.value.0);
      s := r1.value.0;
      ps := ps + [r1.value.1];
      i := i + 1;
    }
    return Ok((s, ps));
  }

  /** Methods ms are the annotations of the first |ms| declarations ds. */
  predicate MethodsOk(model: CodeModel, ids: seq<string>, s: State, ds: seq<MethodDecl>, ms: seq<Method>)
    requires |ids| == |model.classes|
  {
    |ms| <= |ds| && forall i :: 0 <= i < |ms| ==> MethodOk(model, ids, s, ds[i], ms[i])
  }

  lemma MethodsGrows(model: CodeModel, ids: seq<string>, s: State, s': State,
                     ds: seq<MethodDecl>, ms: seq<Method>)
    requires |ids| == |model.classes| && ClassesAt(model.classes, ids, s.nodes)
    requires Grows(|model.classes|, s, s') && MethodsOk(model, ids, s, ds, ms)
    ensures MethodsOk(model, ids, s', ds, ms)
  {
    forall i | 0 <= i < |ms| ensures MethodOk(model, ids, s', ds[i], ms[i]) {
      MethodOkGrows(model, ids, s, s', ds[i], ms[i]);
    }
  }

  lemma MethodsStep(model: CodeModel, ids: seq<string>, s: State, s': State,
                    ds: seq<MethodDecl>, ms: seq<Method>, m: Method)
    requires |ids| == |model.classes| && ClassesAt(model.classes, ids, s.nodes)
    requires Extends(s, s') && MethodsOk(model, ids, s, ds, ms) && |ms| < |ds|
    requires MethodOk(model, ids, s', ds[|ms|], m)
    ensures MethodsOk(model, ids, s', ds, ms + [m])
  {
    ExtendsGrows(|model.classes|, s, s');
    MethodsGrows(model, ids, s, s', ds, ms);
  }

  /**
    The methods of class k in order (src/model-transform.ts:262-315): the first with an
    unknown visibility aborts the run.
  */
  method AnnotateMethods(model: CodeModel, ids: seq<string>, st: State, k: nat, tokens: nat -> string)
    returns (r: Result<(State, seq<Method>), Error>)
    requires Inv(model, ids, st) && TokensOk(tokens) && k < |model.classes|
    ensures r.Err? <==> MethodsError(model.classes[k].methods).Some?
    ensures r.Err? ==> r.error == VisibilityModifierNotFound
    ensures r.Ok? ==> Inv(model, ids, r.value.0) && Extends(st, r.value.0) &&
                      |r.value.1| == |model.classes[k].methods| &&
                      MethodsOk(model, ids, r.value.0, model.classes[k].methods, r.value.1) &&
                      MethodsMade(model, k, r.value.0.nodes, |st.nodes|, r.value.1)
  {
    var ds := model.classes[k].methods;
    var s := st;
    var ms: seq<Method> := [];
    var i := 0;
    while i < |ds|
      invariant 0 <= i <= |ds| && |ms| == i
      invariant Inv(model, ids, s) && Extends(st, s)
      invariant MethodsOk(model, ids, s, ds, ms)
      invariant MethodsMade(model, k, s.nodes, |st.nodes|, ms)
      invariant MethodsError(ds) == MethodsError(ds[i..])
    {
      var r1 := AnnotateMethod(model, ids, s, ds[i], tokens);
      assert ds[i..][0] == ds[i] && ds[i..][1..] == ds[i + 1..];
      if r1.Err? {
        return Err(r1.error);
      }
      MethodsStep(model, ids, s, r1.value.0, ds, ms, r1.value.1);
      MethodsMadeStep(model, k, s, r1.value.0, |st.nodes|, ms, r1.value.1);
      ExtendsTrans(st, s, r1.value.0);
      s := r1.value.0;
      ms := ms + [r1.value.1];
      i := i + 1;
    }
    return Ok((s, ms));
  }

  // ---------------------------------------------------------------------------
  // One class

  /**
    The class node at position k lists the annotations of all of class k's declared
    properties and methods, in declaration order.
  */
  predicate ClassDone(model: CodeModel, ids: seq<string>, s: State, k: nat)
    requires ClassesAt(model.classes, ids, s.nodes) && k < |model.classes|
  {
    var c := s.nodes[k].1;
    var decl := model.classes[k];
    |c.properties| == |decl.properties| && PropsOk(model, ids, s, k, decl.properties, c.properties) &&
    |c.methods| == |decl.methods| && MethodsOk(model, ids, s, decl.methods, c.methods)
  }

  lemma ClassDoneGrows(model: CodeModel, ids: seq<string>, s: State, s': State, k: nat)
    requires ClassesAt(model.classes, ids, s.nodes) && ClassesAt(model.classes, ids, s'.nodes)
    requires k < |model.classes| && s'.nodes[k] == s.nodes[k]
    requires Grows(|model.classes|, s, s') && PoolGrows(s.pool, s'.pool)
    requires ClassDone(model, ids, s, k)
    ensures ClassDone(model, ids, s', k)
  {
    var c := s.nodes[k].1;
    PropsGrows(model, ids, s, s', k, model.classes[k].properties, c.properties);
    MethodsGrows(model, ids, s, s', model.classes[k].methods, c.methods);
  }

  /**
    What annotating class k does to the state: the class node at k gets its members and
    keeps its generalization, the other classes are untouched, and everything after the
    classes only grows.
  */
  predicate ClassStep(model: CodeModel, ids: seq<string>, st: State, s: State, k: nat)
    requires ClassesAt(model.classes, ids, st.nodes) && ClassesAt(model.classes, ids, s.nodes)
    requires k < |model.classes|
  {
    Grows(|model.classes|, st, s) && PoolGrows(st.pool, s.pool) && st.draws <= s.draws &&
    s.nodes[k].1.generalization == st.nodes[k].1.generalization &&
    (forall c :: 0 <= c < |model.classes| && c != k ==> s.nodes[c] == st.nodes[c]) &&
    ClassDone(model, ids, s, k)
  }

  /** One class: its properties, then its methods, then the class node lists them. */
  method AnnotateClass(model: CodeModel, ids: seq<string>, st: State, k: nat, tokens: nat -> string)
    returns (r: Result<State, Error>)
    requires Inv(model, ids, st) && TokensOk(tokens) && k < |model.classes|
    ensures r.Err? <==> ClassError(model, k).Some?
    ensures r.Err? ==> r.error == ClassError(model, k).value
    ensures r.Ok? ==> Inv(model, ids, r.value) && ClassStep(model, ids, st, r.value, k)
    ensures r.Ok? ==> ClassMade(model, k, r.value.nodes, |st.nodes|)
  {
    var r1 := AnnotateProperties(model, ids, st, k, tokens);
    if r1.Err? {
      return Err(r1.error);
    }
    var (s1, ps) := r1.value;
    var r2 := AnnotateMethods(model, ids, s1, k, tokens);
    if r2.Err? {
      return Err(r2.error);
    }
    var (s2, ms) := r2.value;
    var c := s2.nodes[k].1.(properties := ps, methods := ms);
    InvUpdateClass(model, ids, s2, k, c);
    var s3 := s2.(nodes := s2.nodes[k := (s2.nodes[k].0, c)]);
    ClassCompleted(model, ids, st, s1, s2, s3, k, ps, ms);
    ClassMadeOf(model, k, st, s1, s2, s3, ps, ms);
    return Ok(s3);
  }

  lemma ClassCompleted(model: CodeModel, ids: seq<string>, st: State, s1: State, s2: State, s3: State,
                       k: nat, ps: seq<Property>, ms: seq<Method>)
    requires Inv(model, ids, st) && Inv(model, ids, s1) && Inv(model, ids, s2) && Inv(model, ids, s3)
    requires k < |model.classes| && Extends(st, s1) && Extends(s1, s2)
    requires |ps| == |model.classes[k].properties| && PropsOk(model, ids, s1, k, model.classes[k].properties, ps)
    requires |ms| == |model.classes[k].methods| && MethodsOk(model, ids, s2, model.classes[k].methods, ms)
    requires s3 == s2.(nodes := s2.nodes[k := (s2.nodes[k].0, s2.nodes[k].1.(properties := ps, methods := ms))])
    ensures ClassStep(model, ids, st, s3, k)
  {
    ExtendsGrows(|model.classes|, s1, s2);
    assert Grows(|model.classes|, s2, s3);
    GrowsTrans(|model.classes|, s1, s2, s3);
    PropsGrows(model, ids, s1, s3, k, model.classes[k].properties, ps);
    MethodsGrows(model, ids, s2, s3, model.classes[k].methods, ms);
    ExtendsGrows(|model.classes|, st, s1);
    GrowsTrans(|model.classes|, st, s1, s3);
  }

  // ---------------------------------------------------------------------------
  // All classes

  /** The state after the first n classes of stage 3, started from st0. */
  predicate ClassesDone(model: CodeModel, ids: seq<string>, st0: State, s: State, n: nat)
    requires ClassesAt(model.classes, ids, st0.nodes) && ClassesAt(model.classes, ids, s.nodes)
  {
    n <= |model.classes| &&
    Grows(|model.classes|, st0, s) && PoolGrows(st0.pool, s.pool) && st0.draws <= s.draws &&
    (forall k :: 0 <= k < |model.classes| ==>
       s.nodes[k].1.generalization == st0.nodes[k].1.generalization) &&
    (forall k :: 0 <= k < n ==> ClassDone(model, ids, s, k)) &&
    (forall k :: n <= k < |model.classes| ==> s.nodes[k] == st0.nodes[k])
  }

  lemma ClassesStep(model: CodeModel, ids: seq<string>, st0: State, s: State, s': State, n: nat)
    requires ClassesAt(model.classes, ids, st0.nodes) && ClassesAt(model.classes, ids, s.nodes)
    requires ClassesAt(model.classes, ids, s'.nodes)
    requires n < |model.classes| && ClassesDone(model, ids, st0, s, n)
    requires ClassStep(model, ids, s, s', n)
    ensures ClassesDone(model, ids, st0, s', n + 1)
  {
    GrowsTrans(|model.classes|, st0, s, s');
    forall k | 0 <= k < n ensures ClassDone(model, ids, s', k) {
      ClassDoneGrows(model, ids, s, s', k);
    }
  }

  /** What stage 3 has established after annotating the first n classes. */
  ghost predicate ClassesLoop(model: CodeModel, ids: seq<string>, st0: State, s: State, n: nat)
  {
    Inv(model, ids, st0) && Inv(model, ids, s) && ClassesDone(model, ids, st0, s, n) &&
    ClassesMade(model, s.nodes, |st0.nodes|, n)
  }

  lemma ClassesLoopStart(model: CodeModel, ids: seq<string>, st0: State)
    requires Inv(model, ids, st0)
    ensures ClassesLoop(model, ids, st0, st0, 0)
  {
  }

  lemma ClassesLoopStep(model: CodeModel, ids: seq<string>, st0: State, s: State, s': State, n: nat)
    requires n < |model.classes| && ClassesLoop(model, ids, st0, s, n) && Inv(model, ids, s')
    requires ClassStep(model, ids, s, s', n) && ClassMade(model, n, s'.nodes, |s.nodes|)
    ensures ClassesLoop(model, ids, st0, s', n + 1)
  {
    ClassesStep(model, ids, st0, s, s', n);
    ClassesMadeStep(model, s, s', |st0.nodes|, n);
  }

  /** Stage 3: the classes in input order; the first failing class aborts the run. */
  method AnnotateClasses(model: CodeModel, ids: seq<string>, st0: State, tokens: nat -> string)
    returns (r: Result<State, Error>)
    requires Inv(model, ids, st0) && TokensOk(tokens)
    ensures r.Err? <==> ClassesErrorFrom(model, 0).Some?
    ensures r.Err? ==> r.error == ClassesErrorFrom(model, 0).value
    ensures r.Ok? ==> Inv(model, ids, r.value) &&
                      ClassesDone(model, ids, st0, r.value, |model.classes|) &&
                      ClassesMade(model, r.value.nodes, |st0.nodes|, |model.classes|)
  {
    var s := st0;
    var k := 0;
    ClassesLoopStart(model, ids, st0);
    while k < |model.classes|
      invariant 0 <= k <= |model.classes|
      invariant ClassesLoop(model, ids, st0, s, k)
      invariant ClassesErrorFrom(model, 0) == ClassesErrorFrom(model, k)
    {
      var r1 := AnnotateClass(model, ids, s, k, tokens);
      ClassesErrorStep(model, k);
      if r1.Err? {
        return Err(r1.error);
      }
      ClassesLoopStep(model, ids, st0, s, r1.value, k);
      s := r1.value;
      k := k + 1;
    }
    return Ok(s);
  }

  // ---------------------------------------------------------------------------
  // The whole pass

  /**
    `transformModel`: stage 1, stage 2, stage 3, each aborting the run with its first error.
    The result is the registry together with the ids given to the input classes. Every
    class's node lists its annotated members and holds the last generalization that starts
    at it; every other entry is accounted for; the registry keeps the invariant.
  */
  method TransformModel(model: CodeModel, tokens: nat -> string)
    returns (r: Result<(State, seq<string>), Error>)
    requires TokensOk(tokens)
    ensures r.Err? <==> ModelError(model).Some?
    ensures r.Err? ==> r.error == ModelError(model).value
    ensures r.Ok? ==> var (st, ids) := r.value;
                      Inv(model, ids, st) && LeastFreeIds(ids, tokens) &&
                      Accounted(model, ids, st.nodes) &&
                      forall k :: 0 <= k < |model.classes| ==>
                        ClassDone(model, ids, st, k) && GenSlotOk(model, ids, st, model.generalizations, k)
  {
    var r1 := RegisterClasses(model, tokens);
    if r1.Err? {
      return Err(r1.error);
    }
    var (st1, ids) := r1.value;
    var r2 := ResolveGeneralizations(model, ids, st1, tokens);
    if r2.Err? {
      return Err(r2.error);
    }
    var r3 := AnnotateClasses(model, ids, r2.value, tokens);
    if r3.Err? {
      return Err(r3.error);
    }
    SlotsKept(model, ids, st1, r2.value, r3.value);
    AccountedOf(model, ids, st1, r2.value, r3.value);
    return Ok((r3.value, ids));
  }

  /**
    Every registry entry after the classes is one the run had a reason to add: the datatype
    for a generalization's target or the generalization itself, or a property, association,
    method, parameter or datatype added while annotating a class whose node lists them.
  */
  ghost predicate Accounted(model: CodeModel, ids: seq<string>, nodes: Entries)
    requires |ids| == |model.classes|
  {
    forall x :: |model.classes| <= x < |nodes| ==>
      GenMade(model, ids, nodes[x].1) || MadeBefore(model, nodes, x, |model.classes|)
  }

  /** Stage 2's entries stay as they are in stage 3, which adds the rest. */
  lemma AccountedOf(model: CodeModel, ids: seq<string>, st1: State, st2: State, st3: State)
    requires Registered(model, ids, st1) && GensMade(model, ids, st2.nodes, |st1.nodes|)
    requires Grows(|model.classes|, st2, st3)
    requires ClassesMade(model, st3.nodes, |st2.nodes|, |model.classes|)
    ensures Accounted(model, ids, st3.nodes)
  {
    forall x | |model.classes| <= x < |st3.nodes|
      ensures GenMade(model, ids, st3.nodes[x].1) || MadeBefore(model, st3.nodes, x, |model.classes|)
    {
      if x < |st2.nodes| {
        assert st3.nodes[x] == st2.nodes[x];
      } else {
        assert MadeBefore(model, st3.nodes, x, |model.classes|);
      }
    }
  }

  /** Stage 3 leaves the generalization slots stage 2 filled as they were. */
  lemma SlotsKept(model: CodeModel, ids: seq<string>, st1: State, st2: State, st3: State)
    requires Inv(model, ids, st1) && Inv(model, ids, st2) && Inv(model, ids, st3)
    requires SlotsOk(model, ids, st1, st2, model.generalizations)
    requires ClassesDone(model, ids, st2, st3, |model.classes|)
    ensures forall k :: 0 <= k < |model.classes| ==> GenSlotOk(model, ids, st3, model.generalizations, k)
  {
    forall k | 0 <= k < |model.classes|
      ensures GenSlotOk(model, ids, st3, model.generalizations, k)
    {
      assert SlotOk(model, ids, st1, st2, model.generalizations, k);
      var last := LastGenFor(model.classes, model.generalizations, k);
      if last.Some? {
        GenStoredGrows(model, ids, st2, st3, k, model.generalizations[last.value],
                       st2.nodes[k].1.generalization.value);
      }
    }
  }

  // ---------------------------------------------------------------------------
  // What the invariant guarantees about the registry

  /** The class ids are pairwise distinct. */
  lemma ClassIdsDistinct(model: CodeModel, ids: seq<string>, st: State, c: nat, c': nat)
    requires Inv(model, ids, st) && c < |model.classes| && c' < |model.classes| && ids[c] == ids[c']
    ensures c == c'
  {
    assert st.nodes[c].0 == ids[c] && st.nodes[c'].0 == ids[c'];
  }

  /**
    At most one association joins two classes in the same direction: the first property
    to find an association descriptor annotates it, and later ones reuse it.
  */
  lemma AssociationsUnique(model: CodeModel, ids: seq<string>, st: State, i: nat, i': nat)
    requires Inv(model, ids, st)
    requires AssociationAt(st.nodes, i) && AssociationAt(st.nodes, i')
    requires st.nodes[i].1.association.fromId == st.nodes[i'].1.association.fromId
    requires st.nodes[i].1.association.toId == st.nodes[i'].1.association.toId
    ensures i == i'
  {
    var a, a' := st.nodes[i].1.association, st.nodes[i'].1.association;
    var j :| 0 <= j < |st.pool| && st.pool[j].annotation == Some(a);
    var j' :| 0 <= j' < |st.pool| && st.pool[j'].annotation == Some(a');
    assert AnnotatedAt(st.pool, j) && AnnotatedAt(st.pool, j');
    var e, e' := st.pool[j], st.pool[j'];
    var c :| 0 <= c < |model.classes| && model.classes[c].name == e.fromName && a.fromId == ids[c];
    var c' :| 0 <= c' < |model.classes| && model.classes[c'].name == e'.fromName && a'.fromId == ids[c'];
    ClassIdsDistinct(model, ids, st, c, c');
    var t, t' := ClassIndex(model.classes, e.toName).value, ClassIndex(model.classes, e'.toName).value;
    ClassIdsDistinct(model, ids, st, t, t');
    assert PoolIndex(st.pool, e.fromName, e.toName) == Some(j);
    assert PoolIndex(st.pool, e'.fromName, e'.toName) == Some(j');
  }

  /** `name` is the target of a generalization or the declared type of a property or parameter. */
  ghost predicate UsedTypeName(model: CodeModel, name: string)
  {
    var cs := model.classes;
    (exists j :: 0 <= j < |model.generalizations| && model.generalizations[j].toName == name) ||
    (exists k, q :: 0 <= k < |cs| && 0 <= q < |cs[k].properties| && cs[k].properties[q].typeName == Some(name)) ||
    (exists k, q, x :: 0 <= k < |cs| && 0 <= q < |cs[k].methods| && 0 <= x < |cs[k].methods[q].parameters| &&
                       cs[k].methods[q].parameters[x].typeName == Some(name))
  }

  /** Every datatype of the registry is named by a type the input uses. */
  lemma DataTypeNameUsed(model: CodeModel, ids: seq<string>, st: State, i: nat)
    requires Inv(model, ids, st) && Accounted(model, ids, st.nodes) && DataTypeAt(st.nodes, i)
    ensures UsedTypeName(model, st.nodes[i].1.name)
  {
    var n := st.nodes[i].1;
    if !GenMade(model, ids, n) {
      var c :| 0 <= c < |model.classes| && c < |st.nodes| && MemberMade(model, c, st.nodes[c].1, n);
      if !PropMade(model, c, st.nodes[c].1.properties, n) {
        var ds := model.classes[c].methods;
        var q :| 0 <= q < |ds| && n.name in DeclaredTypeNames(ds[q]);
        TypeNamesUpToIn(ds[q], |ds[q].parameters|, n.name);
      }
    }
  }

  /** Every association of the registry is the one some property of a class node refers to. */
  lemma AssociationReferenced(model: CodeModel, ids: seq<string>, st: State, i: nat)
    requires Inv(model, ids, st) && Accounted(model, ids, st.nodes) && AssociationAt(st.nodes, i)
    ensures exists c, q :: 0 <= c < |model.classes| && 0 <= q < |st.nodes[c].1.properties| &&
                           st.nodes[c].1.properties[q].association == Some(st.nodes[i].0)
  {
    var n := st.nodes[i].1;
    var c :| 0 <= c < |model.classes| && c < |st.nodes| && MemberMade(model, c, st.nodes[c].1, n);
    var ps := st.nodes[c].1.properties;
    var q :| 0 <= q < |ps| && ps[q].association == Some(n.association.id);
  }

  /**
    A model without members and generalizations yields a registry of its classes alone, and
    no datatypes.
  */
  lemma NoMembersOnlyClasses(model: CodeModel, ids: seq<string>, st: State)
    requires Inv(model, ids, st) && Accounted(model, ids, st.nodes)
    requires forall k :: 0 <= k < |model.classes| ==> ClassDone(model, ids, st, k)
    requires model.generalizations == []
    requires forall k :: 0 <= k < |model.classes| ==>
               model.classes[k].properties == [] && model.classes[k].methods == []
    ensures |st.nodes| == |model.classes| && st.dataTypes == []
  {
    if |st.nodes| > |model.classes| {
      NothingMade(model, ids, st, |model.classes|);
      assert false;
    }
    if st.dataTypes != [] {
      DataTypeAfterClasses(model, ids, st);
      assert false;
    }
  }

  /** Without members and generalizations, no entry after the classes is accounted for. */
  lemma NothingMade(model: CodeModel, ids: seq<string>, st: State, x: nat)
    requires Inv(model, ids, st) && |model.classes| <= x < |st.nodes|
    requires forall k :: 0 <= k < |model.classes| ==> ClassDone(model, ids, st, k)
    requires model.generalizations == []
    requires forall k :: 0 <= k < |model.classes| ==>
               model.classes[k].properties == [] && model.classes[k].methods == []
    ensures !GenMade(model, ids, st.nodes[x].1) && !MadeBefore(model, st.nodes, x, |model.classes|)
  {
    forall c | 0 <= c < |model.classes| ensures !MemberMade(model, c, st.nodes[c].1, st.nodes[x].1) {
      assert ClassDone(model, ids, st, c);
    }
  }

  /** A datatype of the map is set in the registry after the classes. */
  lemma DataTypeAfterClasses(model: CodeModel, ids: seq<string>, st: State)
    requires Inv(model, ids, st) && st.dataTypes != []
    ensures |st.nodes| > |model.classes|
  {
    var e := (st.dataTypes[0].0, DataTypeNode(st.dataTypes[0].0, st.dataTypes[0].1));
    var i :| 0 <= i < |st.nodes| && st.nodes[i] == e;
  }

  /** Each datatype name is registered once. */
  lemma DataTypesUnique(model: CodeModel, ids: seq<string>, st: State, i: nat, i': nat)
    requires Inv(model, ids, st)
    requires DataTypeAt(st.nodes, i) && DataTypeAt(st.nodes, i')
    requires st.nodes[i].1.name == st.nodes[i'].1.name
    ensures i == i'
  {
    DataTypeNamedUnique(model.classes, st, st.nodes[i].0, st.nodes[i'].0, st.nodes[i].1.name);
  }
}

/**
  The data of the annotation pass (src/model-transform.ts:1-108, 134-150).

  The input is the code model handed over by the upstream parser: classes with their
  properties and methods, plus generalization and association descriptors that name
  classes. The output is the node registry, a JavaScript `Map` from identifier to node,
  represented as the sequence of its entries in insertion order. Links between nodes
  (`__from_node`, `__to_node`, `type.__referencedNode`, `__association`) are kept as
  identifiers.
*/
module Registry {
  import opened Wrappers

  // ---------------------------------------------------------------------------
  // The input code model

  /** A class attribute as parsed: `type` may be missing, `accessibility` is a code. */
  datatype PropertyDecl = PropertyDecl(
    name: string, typeName: Option<string>, accessibility: int, isStatic: bool, optional: bool)

  /** A declared method parameter; its type may be missing. */
  datatype ParameterDecl = ParameterDecl(name: string, typeName: Option<string>)

  /** A class method; `returnType` is present when the method declares one. */
  datatype MethodDecl = MethodDecl(
    name: string, accessibility: int, isStatic: bool, optional: bool,
    parameters: seq<ParameterDecl>, returnType: Option<string>)

  /** A class-like declaration; `stereotype` is the parser's classification code. */
  datatype ClassDecl = ClassDecl(
    name: string, stereotype: int, properties: seq<PropertyDecl>, methods: seq<MethodDecl>)

  /** `fromName extends toName`. */
  datatype GeneralizationDecl = GeneralizationDecl(fromName: string, toName: string)

  /** A class-level association from the parser's association pool. */
  datatype AssociationDecl = AssociationDecl(fromName: string, toName: string)

  datatype CodeModel = CodeModel(
    classes: seq<ClassDecl>,
    generalizations: seq<GeneralizationDecl>,
    associations: seq<AssociationDecl>)

  // ---------------------------------------------------------------------------
  // The annotated nodes

  datatype Visibility = Public | Protected | Private

  /** `ParamDirection`; `InOut` is part of the vocabulary but never produced. */
  datatype Direction = In | InOut | Return

  /** A resolved type: the declared type name and the id of the node it refers to. */
  datatype TypeRef = TypeRef(name: string, target: string)

  datatype Property = Property(
    id: string, name: string, visibility: Visibility, isStatic: bool, optional: bool,
    association: Option<string>, typ: Option<TypeRef>)

  datatype Parameter = Parameter(id: string, name: string, direction: Direction, typ: Option<TypeRef>)

  datatype Method = Method(
    id: string, name: string, visibility: Visibility, isStatic: bool, optional: bool,
    isAbstract: bool, parameters: seq<Parameter>)

  datatype Generalization = Generalization(id: string, fromId: string, toId: string)

  datatype Association = Association(
    id: string, visibility: Visibility, fromId: string, toId: string, navigable: bool)

  /** One registry value, tagged by its kind (`__type`). */
  datatype Node =
    | ClassNode(id: string, name: string, generalization: Option<Generalization>,
                properties: seq<Property>, methods: seq<Method>)
    | PropertyNode(property: Property)
    | MethodNode(operation: Method)
    | ParameterNode(parameter: Parameter)
    | AssociationNode(association: Association)
    | GeneralizationNode(gen: Generalization)
    | DataTypeNode(id: string, name: string)

  const TYPE_CLASS := "uml:Class"
  const TYPE_GENERALIZATION := "uml:Generalization"
  const TYPE_OPERATION := "uml:Operation"
  const TYPE_PROPERTY := "uml:Property"
  const TYPE_PARAMETER := "uml:Parameter"
  const TYPE_ASSOCIATION := "uml:Association"
  const TYPE_EXT_DATA_TYPE := "uml:DataType"

  /** The `__type` string the pass writes on each kind of node. */
  function TypeTag(n: Node): string
  {
    match n
    case ClassNode(_, _, _, _, _) => TYPE_CLASS
    case PropertyNode(_) => TYPE_PROPERTY
    case MethodNode(_) => TYPE_OPERATION
    case ParameterNode(_) => TYPE_PARAMETER
    case AssociationNode(_) => TYPE_ASSOCIATION
    case GeneralizationNode(_) => TYPE_GENERALIZATION
    case DataTypeNode(_, _) => TYPE_EXT_DATA_TYPE
  }

  /** Distinct kinds carry distinct `__type` strings, so a lookup by tag selects exactly one kind. */
  lemma TypeTagInjective(a: Node, b: Node)
    requires TypeTag(a) == TypeTag(b)
    ensures a.ClassNode? == b.ClassNode? && a.DataTypeNode? == b.DataTypeNode?
    ensures a.AssociationNode? == b.AssociationNode? && a.PropertyNode? == b.PropertyNode?
  {
    assert TYPE_CLASS[4] == 'C' && TYPE_EXT_DATA_TYPE[4] == 'D' && TYPE_ASSOCIATION[4] == 'A';
    assert TYPE_PROPERTY[4] == 'P' && TYPE_PARAMETER[4] == 'P' && TYPE_PARAMETER[5] == 'a';
    assert TYPE_PROPERTY[5] == 'r' && TYPE_OPERATION[4] == 'O' && TYPE_GENERALIZATION[4] == 'G';
  }

  /**
    The `identifier` that findXmiNode compares: a class's, member's or datatype's name.
    Generalization and association records carry no identifier.
  */
  function Identifier(n: Node): Option<string>
  {
    match n
    case ClassNode(_, name, _, _, _) => Some(name)
    case PropertyNode(p) => Some(p.name)
    case MethodNode(m) => Some(m.name)
    case ParameterNode(p) => Some(p.name)
    case AssociationNode(_) => None
    case GeneralizationNode(_) => None
    case DataTypeNode(_, name) => Some(name)
  }

  /** `ClassVisibility` as the strings the document carries. */
  function VisibilityName(v: Visibility): string
  {
    match v
    case Public => "public"
    case Protected => "protected"
    case Private => "private"
  }

  /** The `ParamDirection` strings. */
  function DirectionName(d: Direction): string
  {
    match d
    case In => "in"
    case InOut => "inout"
    case Return => "return"
  }

  /** TSVisibilityMap: the accessibility codes the parser uses, and nothing else. */
  function VisibilityOf(code: int): (r: Option<Visibility>)
  {
    if code == 0 then Some(Public)
    else if code == 1 then Some(Protected)
    else if code == 2 then Some(Private)
    else None
  }

  /** The code the parser uses for each visibility. */
  function VisibilityCode(v: Visibility): (code: int)
  {
    match v
    case Public => 0
    case Protected => 1
    case Private => 2
  }

  /**
    TSVisibilityMap is a bijection between {0, 1, 2} and the three visibilities,
    and every other code is unknown to it.
  */
  lemma VisibilityMapBijective(code: int, v: Visibility)
    ensures VisibilityOf(VisibilityCode(v)) == Some(v)
    ensures VisibilityOf(code) == Some(v) <==> code == VisibilityCode(v)
    ensures VisibilityOf(code).Some? <==> 0 <= code <= 2
  {
  }

  // ---------------------------------------------------------------------------
  // The registry: a Map in insertion order

  type Entries = seq<(string, Node)>

  /** `map.keys()` in insertion order. */
  function Keys(nodes: Entries): (ks: seq<string>)
    ensures |ks| == |nodes|
    ensures forall i :: 0 <= i < |nodes| ==> ks[i] == nodes[i].0
  {
    seq(|nodes|, i requires 0 <= i < |nodes| => nodes[i].0)
  }

  /** A Map never holds one key twice. */
  predicate KeysDistinct(nodes: Entries)
  {
    forall i, j :: 0 <= i < j < |nodes| ==> nodes[i].0 != nodes[j].0
  }

  /** `map.get(k)`. */
  function Get(nodes: Entries, k: string): (r: Option<Node>)
    ensures r.Some? <==> k in Keys(nodes)
  {
    if nodes == [] then None
    else if nodes[0].0 == k then Some(nodes[0].1)
    else Get(nodes[1..], k)
  }

  /**
    `map.set(k, v)`: an existing key keeps its position and gets the new value,
    a new key goes to the end. Writing a field of an object that is already in the
    map is the same change, so it is modelled by Set as well.
  */
  function Set(nodes: Entries, k: string, v: Node): (r: Entries)
    ensures Keys(r) == if k in Keys(nodes) then Keys(nodes) else Keys(nodes) + [k]
  {
    if k in Keys(nodes) then
      seq(|nodes|, i requires 0 <= i < |nodes| => if nodes[i].0 == k then (k, v) else nodes[i])
    else
      nodes + [(k, v)]
  }

  /** The keys after appending an entry. */
  lemma KeysAppend(nodes: Entries, e: (string, Node))
    ensures Keys(nodes + [e]) == Keys(nodes) + [e.0]
  {
  }

  /** Setting a key the map does not hold appends it. */
  lemma SetFresh(nodes: Entries, k: string, v: Node)
    requires k !in Keys(nodes)
    ensures Set(nodes, k, v) == nodes + [(k, v)]
  {
  }

  /** Get finds the value at the position of a key when keys are distinct. */
  lemma {:induction false} GetAt(nodes: Entries, i: nat)
    requires KeysDistinct(nodes) && i < |nodes|
    ensures Get(nodes, nodes[i].0) == Some(nodes[i].1)
  {
    if i > 0 {
      assert nodes[0].0 != nodes[i].0;
      GetAt(nodes[1..], i - 1);
    }
  }

  /**
    The laws of Map.set: afterwards k maps to v, every other key keeps its value,
    and keys stay distinct.
  */
  lemma SetLaws(nodes: Entries, k: string, v: Node, other: string)
    requires KeysDistinct(nodes)
    ensures KeysDistinct(Set(nodes, k, v))
    ensures Get(Set(nodes, k, v), k) == Some(v)
    ensures other != k ==> Get(Set(nodes, k, v), other) == Get(nodes, other)
  {
    var r := Set(nodes, k, v);
    assert |Keys(r)| == |r|;
    assert KeysDistinct(r) by {
      forall i, j | 0 <= i < j < |r| ensures r[i].0 != r[j].0 {
        assert Keys(r)[i] == r[i].0 && Keys(r)[j] == r[j].0;
        if k !in Keys(nodes) && j == |nodes| {
          assert r[i].0 == nodes[i].0;
        } else {
          assert Keys(nodes)[i] == nodes[i].0 && Keys(nodes)[j] == nodes[j].0;
        }
      }
    }
    var at :| 0 <= at < |r| && r[at].0 == k;
    assert r[at].1 == v;
    GetAt(r, at);
    if other != k {
      if other in Keys(nodes) {
        var m :| 0 <= m < |nodes| && nodes[m].0 == other;
        assert r[m] == nodes[m];
        GetAt(nodes, m);
        GetAt(r, m);
      }
    }
  }

  // ---------------------------------------------------------------------------
  // findXmiNode

  /** The test findXmiNode applies: same identifier and, when a type is given, same `__type`. */
  predicate Matches(n: Node, ident: string, tag: Option<string>)
  {
    Identifier(n) == Some(ident) && (tag.Some? ==> TypeTag(n) == tag.value)
  }

  /** The position of the first entry findXmiNode accepts, if any. */
  function FirstMatch(nodes: Entries, ident: string, tag: Option<string>): (r: Option<nat>)
    ensures r.Some? ==> r.value < |nodes| && Matches(nodes[r.value].1, ident, tag)
    ensures r.Some? ==> forall j :: 0 <= j < r.value ==> !Matches(nodes[j].1, ident, tag)
    ensures r.None? ==> forall j :: 0 <= j < |nodes| ==> !Matches(nodes[j].1, ident, tag)
  {
    if nodes == [] then None
    else if Matches(nodes[0].1, ident, tag) then Some(0)
    else match FirstMatch(nodes[1..], ident, tag)
      case None => None
      case Some(k) => Some(k + 1)
  }

  /**
    findXmiNode: scans the values in insertion order and returns the first accepted node,
    or nothing (`null`) when no node is accepted.
  */
  method FindXmiNode(nodes: Entries, ident: string, tag: Option<string>) returns (r: Option<Node>)
    ensures r.None? <==> forall j :: 0 <= j < |nodes| ==> !Matches(nodes[j].1, ident, tag)
    ensures r.Some? ==> exists i :: 0 <= i < |nodes| && nodes[i].1 == r.value &&
                                    Matches(r.value, ident, tag) &&
                                    forall j :: 0 <= j < i ==> !Matches(nodes[j].1, ident, tag)
    ensures r == if FirstMatch(nodes, ident, tag).Some? then Some(nodes[FirstMatch(nodes, ident, tag).value].1) else None
  {
    var i := 0;
    while i < |nodes|
      invariant 0 <= i <= |nodes|
      invariant forall j :: 0 <= j < i ==> !Matches(nodes[j].1, ident, tag)
    {
      if Matches(nodes[i].1, ident, tag) {
        FirstMatchAt(nodes, ident, tag, i);
        return Some(nodes[i].1);
      }
      i := i + 1;
    }
    return None;
  }

  /** An accepted entry with no accepted entry before it is the first match. */
  lemma FirstMatchAt(nodes: Entries, ident: string, tag: Option<string>, i: nat)
    requires i < |nodes| && Matches(nodes[i].1, ident, tag)
    requires forall j :: 0 <= j < i ==> !Matches(nodes[j].1, ident, tag)
    ensures FirstMatch(nodes, ident, tag) == Some(i)
  {
  }

  /** Two tests that accept the same entries find the same first match. */
  lemma {:induction false} FirstMatchSame(nodes: Entries, ident: string, tag: Option<string>, tag': Option<string>)
    requires forall i :: 0 <= i < |nodes| ==> (Matches(nodes[i].1, ident, tag) <==> Matches(nodes[i].1, ident, tag'))
    ensures FirstMatch(nodes, ident, tag) == FirstMatch(nodes, ident, tag')
  {
    if nodes != [] {
      FirstMatchSame(nodes[1..], ident, tag, tag');
    }
  }
}

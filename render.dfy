/**
  The XML object tree of the registry (src/xml-render.ts:14-268), up to the point where
  the `xml` package would serialize it.

  The source builds nested JavaScript objects in the `xml` package's format, where
  `{tag: [{_attr: {...}}, child, ...]}` and `{tag: {_attr: {...}}}` both denote one
  element. Here an element is its tag, its attributes in insertion order, and its children.
*/
module Render {
  import opened Wrappers
  import opened Registry

  datatype Element = Element(tag: string, attrs: seq<(string, string)>, children: seq<Element>)

  /** The value of the first attribute named `key`. */
  function Attr(e: Element, key: string): (r: Option<string>)
    ensures r.Some? <==> exists i :: 0 <= i < |e.attrs| && e.attrs[i].0 == key
    ensures r.Some? ==> (key, r.value) in e.attrs
  {
    AttrIn(e.attrs, key)
  }

  function AttrIn(attrs: seq<(string, string)>, key: string): (r: Option<string>)
    ensures r.Some? <==> exists i :: 0 <= i < |attrs| && attrs[i].0 == key
    ensures r.Some? ==> (key, r.value) in attrs
  {
    if attrs == [] then None
    else if attrs[0].0 == key then Some(attrs[0].1)
    else
      var r := AttrIn(attrs[1..], key);
      assert r.None? ==> forall i :: 0 < i < |attrs| ==> attrs[i].0 != key by {
        if r.None? {
          forall i | 0 < i < |attrs| ensures attrs[i].0 != key {
            assert attrs[i] == attrs[1..][i - 1];
          }
        }
      }
      r
  }

  // ---------------------------------------------------------------------------
  // The element of each kind of node

  /** A `type` child: always typed "uml:Class", whatever kind of node it refers to. */
  function TypeElement(target: string): Element
  {
    Element("type", [("xmi:type", TYPE_CLASS), ("xmi:idref", target)], [])
  }

  /** The `type` child of a typed member, if it has a type. */
  function TypeChildren(t: Option<TypeRef>): seq<Element>
  {
    if t.Some? then [TypeElement(t.value.target)] else []
  }

  /** getDataTypesData, for one datatype (src/xml-render.ts:20-28). */
  function DataTypeElement(id: string, name: string): Element
  {
    Element("uml:DataType", [("xmi:id", id), ("xmi:type", TYPE_EXT_DATA_TYPE), ("name", name)], [])
  }

  /** getClassAdditionalNodes, for a present generalization (src/xml-render.ts:41-49). */
  function GeneralizationElement(g: Generalization): Element
  {
    Element("generalization", [("xmi:id", g.id), ("xmi:type", TYPE_GENERALIZATION), ("general", g.toId)], [])
  }

  /** getClassAttributes, for one property (src/xml-render.ts:62-92). */
  function PropertyElement(p: Property): Element
  {
    Element("ownedAttribute",
            [("xmi:id", p.id), ("xmi:type", TYPE_PROPERTY), ("name", p.name),
             ("visibility", VisibilityName(p.visibility)), ("aggregation", "none")] +
            (if p.association.Some? then [("association", p.association.value)] else []),
            TypeChildren(p.typ))
  }

  /** getClassOperations, for one parameter (src/xml-render.ts:108-132). */
  function ParameterElement(p: Parameter): Element
  {
    Element("ownedParameter",
            [("xmi:id", p.id), ("name", p.name), ("direction", DirectionName(p.direction))],
            TypeChildren(p.typ))
  }

  function ParameterElements(ps: seq<Parameter>): (es: seq<Element>)
    ensures |es| == |ps| && forall i :: 0 <= i < |ps| ==> es[i] == ParameterElement(ps[i])
  {
    seq(|ps|, i requires 0 <= i < |ps| => ParameterElement(ps[i]))
  }

  /** getClassOperations, for one method (src/xml-render.ts:137-150). */
  function OperationElement(m: Method): Element
  {
    Element("ownedOperation",
            [("xmi:id", m.id), ("xmi:type", TYPE_OPERATION), ("name", m.name),
             ("visibility", VisibilityName(m.visibility)),
             ("isAbstract", if m.isAbstract then "true" else "false")],
            ParameterElements(m.parameters))
  }

  function AttributeElements(ps: seq<Property>): (es: seq<Element>)
    ensures |es| == |ps| && forall i :: 0 <= i < |ps| ==> es[i] == PropertyElement(ps[i])
  {
    seq(|ps|, i requires 0 <= i < |ps| => PropertyElement(ps[i]))
  }

  function OperationElements(ms: seq<Method>): (es: seq<Element>)
    ensures |es| == |ms| && forall i :: 0 <= i < |ms| ==> es[i] == OperationElement(ms[i])
  {
    seq(|ms|, i requires 0 <= i < |ms| => OperationElement(ms[i]))
  }

  /** getClassAdditionalNodes (src/xml-render.ts:37-55). */
  function AdditionalElements(g: Option<Generalization>): seq<Element>
  {
    if g.Some? then [GeneralizationElement(g.value)] else []
  }

  /**
    getClassesData, for one class (src/xml-render.ts:164-182): the class's attributes,
    then its generalization, attributes and operations as children. Classes are always
    rendered with visibility "public".
  */
  function ClassElement(id: string, name: string, g: Option<Generalization>,
                        ps: seq<Property>, ms: seq<Method>): Element
  {
    Element("packagedElement",
            [("xmi:id", id), ("xmi:type", TYPE_CLASS), ("name", name), ("visibility", "public")],
            AdditionalElements(g) + AttributeElements(ps) + OperationElements(ms))
  }

  /** The id of the association-owned end of association a. */
  function ReverseEndId(a: Association): string
  {
    "REVERSE_" + a.id
  }

  /**
    getAssociationData, for one association (src/xml-render.ts:197-234): a member end
    referring to the from-class, an association-owned end typed with the to-class, and a
    member end referring to that owned end. As the source builds it, the owned end's id
    is "REVERSE_" + from-id, so two associations from one class share it.
  */
  function AssociationElementAsWritten(a: Association): Element
  {
    AssociationElementWith(a, "REVERSE_" + a.fromId)
  }

  /** The association element with the owned end's id built from the association's own id. */
  function AssociationElement(a: Association): Element
  {
    AssociationElementWith(a, ReverseEndId(a))
  }

  function AssociationElementWith(a: Association, endId: string): Element
  {
    Element("packagedElement",
            [("xmi:id", a.id), ("xmi:type", TYPE_ASSOCIATION), ("visibility", VisibilityName(a.visibility))],
            [Element("memberEnd", [("xmi:idref", a.fromId)], []),
             Element("ownedEnd",
                     [("xmi:id", endId), ("xmi:type", "uml:Property"), ("association", a.id),
                      ("visibility", VisibilityName(a.visibility)), ("type", a.toId),
                      ("aggregation", "none"), ("isNavigable", "false")], []),
             Element("memberEnd", [("xmi:idref", endId)], [])])
  }

  /** The element a registry value renders to. */
  function NodeElement(n: Node): Element
  {
    match n
    case ClassNode(id, name, g, ps, ms) => ClassElement(id, name, g, ps, ms)
    case PropertyNode(p) => PropertyElement(p)
    case MethodNode(m) => OperationElement(m)
    case ParameterNode(p) => ParameterElement(p)
    case AssociationNode(a) => AssociationElementAsWritten(a)
    case GeneralizationNode(g) => GeneralizationElement(g)
    case DataTypeNode(id, name) => DataTypeElement(id, name)
  }

  /** The elements of the registry values whose `__type` is `tag`, in registry order. */
  function Rendered(nodes: Entries, tag: string): seq<Element>
  {
    if nodes == [] then []
    else
      var last := nodes[|nodes| - 1].1;
      Rendered(nodes[..|nodes| - 1], tag) + (if TypeTag(last) == tag then [NodeElement(last)] else [])
  }

  /** The element `transformModelToXMLObj` returns (src/xml-render.ts:243-267). */
  function Document(nodes: Entries): Element
  {
    Element("xmi:XMI",
            [("xmi:version", "2.1"), ("xmlns:uml", "http://schema.omg.org/spec/UML/2.1"),
             ("xmlns:xmi", "http://schema.omg.org/spec/XMI/2.1")],
            [Element("xmi:Documentation", [("exporter", "DenKornCustom"), ("exporterVersion", "1.0")], []),
             Element("uml:Package", [("xmi:type", "uml:Package"), ("xmi:id", PACKAGE_ID), ("name", "app")],
                     Rendered(nodes, TYPE_CLASS) + Rendered(nodes, TYPE_ASSOCIATION))] +
            Rendered(nodes, TYPE_EXT_DATA_TYPE))
  }

  /** The fixed id of the one package. */
  const PACKAGE_ID := "0x1f5e5_22"

  // ---------------------------------------------------------------------------
  // The render functions

  /** getDataTypesData (src/xml-render.ts:14-35). */
  method GetDataTypesData(nodes: Entries) returns (r: seq<Element>)
    ensures r == Rendered(nodes, TYPE_EXT_DATA_TYPE)
  {
    r := [];
    var i := 0;
    while i < |nodes|
      invariant 0 <= i <= |nodes|
      invariant r == Rendered(nodes[..i], TYPE_EXT_DATA_TYPE)
    {
      var n := nodes[i].1;
      assert nodes[..i + 1][..i] == nodes[..i];
      if TypeTag(n) == TYPE_EXT_DATA_TYPE {
        TypeTagInjective(n, DataTypeNode("", ""));
        r := r + [DataTypeElement(n.id, n.name)];
      }
      i := i + 1;
    }
    assert nodes[..i] == nodes;
  }

  /** getClassAttributes (src/xml-render.ts:57-98). */
  method GetClassAttributes(ps: seq<Property>) returns (r: seq<Element>)
    ensures r == AttributeElements(ps)
  {
    r := [];
    var i := 0;
    while i < |ps|
      invariant 0 <= i <= |ps|
      invariant r == AttributeElements(ps[..i])
    {
      var p := ps[i];
      var attrs := [("xmi:id", p.id), ("xmi:type", TYPE_PROPERTY), ("name", p.name),
                    ("visibility", VisibilityName(p.visibility)), ("aggregation", "none")];
      if p.association.Some? {
        attrs := attrs + [("association", p.association.value)];
      }
      var children := [];
      if p.typ.Some? {
        children := children + [TypeElement(p.typ.value.target)];
      }
      assert Element("ownedAttribute", attrs, children) == PropertyElement(p);
      assert ps[..i + 1] == ps[..i] + [p];
      r := r + [Element("ownedAttribute", attrs, children)];
      i := i + 1;
    }
    assert ps[..i] == ps;
  }

  /** getClassOperations (src/xml-render.ts:100-156): each method with its parameters. */
  method GetClassOperations(ms: seq<Method>) returns (r: seq<Element>)
    ensures r == OperationElements(ms)
  {
    r := [];
    var i := 0;
    while i < |ms|
      invariant 0 <= i <= |ms|
      invariant r == OperationElements(ms[..i])
    {
      var m := ms[i];
      var params := [];
      var j := 0;
      while j < |m.parameters|
        invariant 0 <= j <= |m.parameters|
        invariant params == ParameterElements(m.parameters[..j])
      {
        var p := m.parameters[j];
        var children := [];
        if p.typ.Some? {
          children := children + [TypeElement(p.typ.value.target)];
        }
        var param := Element("ownedParameter",
                             [("xmi:id", p.id), ("name", p.name), ("direction", DirectionName(p.direction))],
                             children);
        assert param == ParameterElement(p);
        assert m.parameters[..j + 1] == m.parameters[..j] + [p];
        params := params + [param];
        j := j + 1;
      }
      assert m.parameters[..j] == m.parameters;
      var op := Element("ownedOperation",
                        [("xmi:id", m.id), ("xmi:type", TYPE_OPERATION), ("name", m.name),
                         ("visibility", VisibilityName(m.visibility)),
                         ("isAbstract", if m.isAbstract then "true" else "false")],
                        params);
      assert op == OperationElement(m);
      assert ms[..i + 1] == ms[..i] + [m];
      r := r + [op];
      i := i + 1;
    }
    assert ms[..i] == ms;
  }

  /** getClassesData (src/xml-render.ts:158-189). */
  method GetClassesData(nodes: Entries) returns (r: seq<Element>)
    ensures r == Rendered(nodes, TYPE_CLASS)
  {
    r := [];
    var i := 0;
    while i < |nodes|
      invariant 0 <= i <= |nodes|
      invariant r == Rendered(nodes[..i], TYPE_CLASS)
    {
      var n := nodes[i].1;
      assert nodes[..i + 1][..i] == nodes[..i];
      if TypeTag(n) == TYPE_CLASS {
        TypeTagInjective(n, ClassNode("", "", None, [], []));
        var additional := AdditionalElements(n.generalization);
        var attributes := GetClassAttributes(n.properties);
        var operations := GetClassOperations(n.methods);
        r := r + [Element("packagedElement",
                          [("xmi:id", n.id), ("xmi:type", TYPE_CLASS), ("name", n.name), ("visibility", "public")],
                          additional + attributes + operations)];
      }
      i := i + 1;
    }
    assert nodes[..i] == nodes;
  }

  /** getAssociationData (src/xml-render.ts:191-241). */
  method GetAssociationData(nodes: Entries) returns (r: seq<Element>)
    ensures r == Rendered(nodes, TYPE_ASSOCIATION)
  {
    r := [];
    var i := 0;
    while i < |nodes|
      invariant 0 <= i <= |nodes|
      invariant r == Rendered(nodes[..i], TYPE_ASSOCIATION)
    {
      var n := nodes[i].1;
      assert nodes[..i + 1][..i] == nodes[..i];
      if TypeTag(n) == TYPE_ASSOCIATION {
        TypeTagInjective(n, AssociationNode(Association("", Public, "", "", false)));
        r := r + [AssociationElementAsWritten(n.association)];
      }
      i := i + 1;
    }
    assert nodes[..i] == nodes;
  }

  /** transformModelToXMLObj (src/xml-render.ts:243-268). */
  method TransformModelToXmlObj(nodes: Entries) returns (doc: Element)
    ensures doc == Document(nodes)
  {
    var classesData := GetClassesData(nodes);
    var associationData := GetAssociationData(nodes);
    var dataTypesData := GetDataTypesData(nodes);
    doc := Element("xmi:XMI",
                   [("xmi:version", "2.1"), ("xmlns:uml", "http://schema.omg.org/spec/UML/2.1"),
                    ("xmlns:xmi", "http://schema.omg.org/spec/XMI/2.1")],
                   [Element("xmi:Documentation", [("exporter", "DenKornCustom"), ("exporterVersion", "1.0")], []),
                    Element("uml:Package", [("xmi:type", "uml:Package"), ("xmi:id", PACKAGE_ID), ("name", "app")],
                            classesData + associationData)] +
                   dataTypesData);
  }

  // ---------------------------------------------------------------------------
  // Properties of the rendering

  /** Every registry value whose `__type` is tag is rendered for tag. */
  lemma {:induction false} RenderedComplete(nodes: Entries, tag: string, i: nat)
    requires i < |nodes| && TypeTag(nodes[i].1) == tag
    ensures NodeElement(nodes[i].1) in Rendered(nodes, tag)
  {
    var init := nodes[..|nodes| - 1];
    if i < |init| {
      RenderedComplete(init, tag, i);
      assert init[i] == nodes[i];
    }
  }

  /** Every element rendered for tag is the element of a registry value whose `__type` is tag. */
  lemma {:induction false} RenderedSound(nodes: Entries, tag: string, e: Element)
    requires e in Rendered(nodes, tag)
    ensures exists i :: 0 <= i < |nodes| && TypeTag(nodes[i].1) == tag && e == NodeElement(nodes[i].1)
  {
    var init := nodes[..|nodes| - 1];
    if e in Rendered(init, tag) {
      RenderedSound(init, tag, e);
      var i :| 0 <= i < |init| && TypeTag(init[i].1) == tag && e == NodeElement(init[i].1);
      assert nodes[i] == init[i];
    } else {
      assert TypeTag(nodes[|nodes| - 1].1) == tag && e == NodeElement(nodes[|nodes| - 1].1);
    }
  }

  /**
    Rendering keeps registry order: the elements rendered for tag come from strictly
    increasing registry positions holding values of that tag.
  */
  lemma {:induction false} RenderedPositions(nodes: Entries, tag: string) returns (pos: seq<nat>)
    ensures |pos| == |Rendered(nodes, tag)|
    ensures forall a :: 0 <= a < |pos| ==>
              pos[a] < |nodes| && TypeTag(nodes[pos[a]].1) == tag &&
              Rendered(nodes, tag)[a] == NodeElement(nodes[pos[a]].1)
    ensures forall a, b :: 0 <= a < b < |pos| ==> pos[a] < pos[b]
  {
    if nodes == [] {
      return [];
    }
    var init := nodes[..|nodes| - 1];
    var last := nodes[|nodes| - 1].1;
    pos := RenderedPositions(init, tag);
    forall a | 0 <= a < |pos| ensures nodes[pos[a]] == init[pos[a]] {
    }
    if TypeTag(last) == tag {
      pos := pos + [|nodes| - 1];
    }
  }

  /** Entries after the last one of a tag add nothing for that tag. */
  lemma {:induction false} RenderedPrefix(nodes: Entries, n: nat, tag: string)
    requires n <= |nodes|
    requires forall i :: n <= i < |nodes| ==> TypeTag(nodes[i].1) != tag
    ensures Rendered(nodes, tag) == Rendered(nodes[..n], tag)
  {
    if |nodes| > n {
      var init := nodes[..|nodes| - 1];
      RenderedPrefix(init, n, tag);
      assert init[..n] == nodes[..n];
    } else {
      assert nodes[..n] == nodes;
    }
  }

  /** When every entry carries the tag, each one renders in place. */
  lemma {:induction false} RenderedAll(nodes: Entries, tag: string)
    requires forall i :: 0 <= i < |nodes| ==> TypeTag(nodes[i].1) == tag
    ensures |Rendered(nodes, tag)| == |nodes|
    ensures forall i :: 0 <= i < |nodes| ==> Rendered(nodes, tag)[i] == NodeElement(nodes[i].1)
  {
    if nodes != [] {
      var init := nodes[..|nodes| - 1];
      RenderedAll(init, tag);
      RenderedLast(nodes, tag);
      AppendIndex(Rendered(init, tag), NodeElement(nodes[|init|].1));
      forall i | 0 <= i < |init| ensures init[i] == nodes[i] {
      }
    }
  }

  /** Indexing into a sequence with one element appended. */
  lemma AppendIndex<T>(xs: seq<T>, x: T)
    ensures |xs + [x]| == |xs| + 1 && (xs + [x])[|xs|] == x
    ensures forall i :: 0 <= i < |xs| ==> (xs + [x])[i] == xs[i]
  {
  }

  /** An entry carrying the tag renders right after the entries before it. */
  lemma RenderedLast(nodes: Entries, tag: string)
    requires nodes != [] && TypeTag(nodes[|nodes| - 1].1) == tag
    ensures Rendered(nodes, tag) == Rendered(nodes[..|nodes| - 1], tag) + [NodeElement(nodes[|nodes| - 1].1)]
  {
  }

  /**
    The source's owned-end id depends only on the association's from-class, so any two
    associations from one class render owned ends with the same xmi:id.
  */
  lemma ReverseEndIdsCollide(a: Association, b: Association)
    requires a.id != b.id && a.fromId == b.fromId
    ensures Attr(AssociationElementAsWritten(a).children[1], "xmi:id") ==
            Attr(AssociationElementAsWritten(b).children[1], "xmi:id") == Some("REVERSE_" + a.fromId)
  {
  }

  /** Owned-end ids built from the association id are distinct for distinct associations. */
  lemma ReverseEndIdsDistinct(a: Association, b: Association)
    requires a.id != b.id
    ensures ReverseEndId(a) != ReverseEndId(b)
    ensures Attr(AssociationElement(a).children[1], "xmi:id") != Attr(AssociationElement(b).children[1], "xmi:id")
  {
    assert ReverseEndId(a)[8..] == a.id && ReverseEndId(b)[8..] == b.id;
  }
}

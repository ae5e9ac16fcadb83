# ts-xmi-converter core, modelled in Dafny

ts-xmi-converter turns the code model of a TypeScript project into an XMI 2.1 / UML 2.1
class diagram. The code model comes from an upstream parser and holds classes, their
properties and methods, generalizations and class-level associations. Two steps make up
the core.

1. **The annotation pass, `transformModel`** (`src/model-transform.ts`). It walks the code
   model in three stages and builds a *node registry*: a JavaScript `Map` from identifier to
   node, kept in insertion order.
   - Stage 1 registers every class under a fresh random identifier.
   - Stage 2 resolves every generalization. The `from` class must exist. A `to` name that is
     not found becomes an external datatype.
   - Stage 3 annotates each class's properties and methods. It resolves their type names
     against the classes, or else against external datatypes, which are created on first use.
   - For a class-typed property, stage 3 takes the first association of the parser's pool
     with that pair of names, and annotates it if it is not yet annotated.
   - Any inconsistency aborts the whole run.
2. **The XML object builder, `transformModelToXMLObj`** (`src/xml-render.ts`). It filters the
   registry by node kind and builds the element tree of the document:
   - one package holding the classes, then the associations;
   - after the package, the datatypes.

The Dafny modules follow that structure:

- `Wrappers`: `Option` and `Result`.
- `Ids`: identifier generation (`getNewIdForNode`, `getNewNodeCustomId`).
- `Registry`: the input code model, the annotated nodes, the registry with its `Map`
  operations, `findXmiNode` and the visibility map.
- `Transform`: the state of the pass and its invariant, `addExtDataType`, datatype lookup.
- `Generalize`: stages 1 and 2.
- `Annotate`: stage 3 for one property or one method.
- `Pass`: stage 3 over all classes, and `transformModel` as a whole.
- `Render`: the element tree of `xml-render.ts`.
- `Output`: properties of the rendered document of a successful pass.

How the model represents the source:

- The registry is the sequence of its entries, and `Registry.Set` has the `Map.set`
  semantics: a new key is appended, and an existing key keeps its position.
- The state that the source keeps in closure-captured locals becomes a `State` value:
  the registry, the datatype map, the association pool and the count of random tokens drawn.
  The pass's methods take a state and return the new state.
- Every `throw` becomes an `Err` of `Transform.Error`.
- For each stage there is a specification function of the error it raises, and each loop
  method is proved to fail exactly when that function reports an error.

Behaviour of the code that the model follows and that a reader might not expect:

- The synthesized return parameter is named `"return"` and has direction `return`. It never
  carries a type, because the code never copies the return type onto it.
- A property without a type aborts the run: the code reads `type.name` after registering the
  property, which throws a `TypeError`. This is modelled as the error `PropertyTypeMissing`.
- A property's and a method's identifier is drawn from the random source before the visibility
  check. Stage 3 type lookups are typed (class, then datatype). The stage 2 lookup of a
  generalization's target is untyped. At that point the registry holds only classes,
  datatypes and generalizations. Generalization and association records carry no
  `identifier`, so the untyped lookup finds the first class of that name, or else the
  datatype of that name.
- The check `xmiNode.__type !== TYPE_CLASS` in stage 3 never fires, because stage 1 tags
  every node as a class. The model has no such branch.
- The `type` child of a property or parameter always has `xmi:type` `uml:Class`, even when
  the referenced node is a datatype. Classes are rendered with visibility `public`.

## Model

| member | source | states |
|---|---|---|
| Ids.NewIdForNode | src/model-transform.ts:111-122 | The id is `<token>_<i>` for the least i whose candidate is not a key: it is fresh, it is the least free candidate, and it starts with the token's '0' |
| Ids.NewNodeCustomId | src/model-transform.ts:124-132 | The id is `<prefix>_<i>` for the least i whose candidate is not a key, and it is fresh |
| Ids.LeastFreeUnique | src/model-transform.ts:117-131 | Only one candidate is the least free one, so the keys determine the id the search returns |
| Ids.FreeCandidateExists | src/model-transform.ts:117-119 | Among the first \|keys\|+1 candidates one is free, so the search loop ends |
| Ids.NatToStringInjective | src/model-transform.ts:121 | Distinct counters print as distinct decimal suffixes |
| Ids.SuffixedInjective | src/model-transform.ts:121 | `prefix_i == prefix_j` only when i == j |
| Registry.TypeTagInjective | src/model-transform.ts:5-13 | Nodes with equal `__type` tags are of the same kind |
| Registry.VisibilityMapBijective | src/model-transform.ts:28-32 | Codes 0, 1 and 2 map to public, protected and private; each visibility comes from exactly one code; no other code maps to anything |
| Registry.Get | src/model-transform.ts:117 | `Map.has`/`Map.get`: a key has a value exactly when it was set |
| Registry.Set | src/model-transform.ts:158-159 | `Map.set` appends a new key and leaves the key order alone for an existing key |
| Registry.SetFresh | src/model-transform.ts:171 | Setting a fresh key appends exactly that entry |
| Registry.SetLaws | src/model-transform.ts:171 | After `set`, the key maps to the new value, every other key keeps its value, and keys stay distinct |
| Registry.GetAt | src/model-transform.ts:117 | In a map with distinct keys, looking up the key of entry i yields entry i's value |
| Registry.FirstMatch | src/model-transform.ts:137-149 | The index of the first node in insertion order with that identifier (and tag, when one is given), or none if no node matches |
| Registry.FindXmiNode | src/model-transform.ts:135-150 | Returns the first matching node in insertion order, and null exactly when no node matches |
| Registry.FirstMatchAt | src/model-transform.ts:137-147 | A matching node with no matching node before it is the one the lookup returns |
| Registry.FirstMatchSame | src/model-transform.ts:138-146 | Two lookups whose match conditions agree on every node return the same node |
| Transform.ClassIndex | src/model-transform.ts:175 | The first input class with that name; none exactly when no class has it |
| Transform.PoolIndex | src/model-transform.ts:223-227 | `filter(...)[0]`: the first pool association with that from/to name pair, or none |
| Transform.LookupClass | src/model-transform.ts:220 | While the registry starts with the classes, a class-typed lookup finds the first class of that name |
| Transform.LookupDataType | src/model-transform.ts:249 | A datatype-typed lookup fails exactly when no datatype has that name, and otherwise finds the datatype of that name |
| Transform.DataTypeNamedUnique | src/model-transform.ts:156-161 | Two datatypes with the same name are the same datatype |
| Transform.AddExtDataType | src/model-transform.ts:156-161 | The new datatype gets id `datatype_<n>` for n datatypes so far, and is set in both maps; the invariant is kept |
| Transform.InvAddDataType | src/model-transform.ts:156-161 | Adding a datatype whose name is neither a class nor a known datatype keeps the registry invariant |
| Transform.ResolveDataType | src/model-transform.ts:249-254 | Reuses the datatype of that name and leaves the state unchanged, or else creates `datatype_<n>`. The new state is exactly TypeResolved: one datatype entry appended to the registry and to the name map, nothing else changed |
| Transform.TypeResolvedEntries | src/model-transform.ts:156-161 | Resolving a type name leaves the pool and the draws alone, extends the datatype map as AddTypeName says, and appends to the registry exactly one entry per datatype it adds |
| Generalize.RegisterClasses | src/model-transform.ts:163-172 | Fails with UnexpectedStereotype exactly when some class has a stereotype other than 0 or 2; otherwise the registry holds the classes in input order under least free token ids |
| Generalize.LookupAny | src/model-transform.ts:183 | During stage 2 the untyped lookup finds the first class of that name, or else the datatype of that name |
| Generalize.ResolveTarget | src/model-transform.ts:183-188 | The target resolves to the class or datatype of that name. The new state is exactly the type resolution of that name: a datatype `datatype_<n>` is created only when neither exists |
| Generalize.AttachIsSet | src/model-transform.ts:181-196 | Attaching equals the two `Map.set` calls of the source |
| Generalize.StoreGeneralization | src/model-transform.ts:181-196 | Draws one token. The generalization id is the least free candidate for that token among the keys after the target is resolved. The registry is the target resolution followed by the two `Map.set` calls: the class slot, then the appended generalization. The datatype map is that of the target resolution, the pool is unchanged, and the invariant is kept |
| Generalize.ResolveGeneralization | src/model-transform.ts:174-197 | Fails with FromNodeNotFound(fromName) exactly when no class has that name; otherwise the new state is exactly the store step on the first class of that name |
| Generalize.LastGenFor | src/model-transform.ts:174-181 | The last generalization whose from name denotes class k, or none |
| Generalize.GensError | src/model-transform.ts:174-179 | None exactly when every from name is a class; otherwise FromNodeNotFound of the first from name that is not |
| Generalize.ResolveGeneralizations | src/model-transform.ts:174-197 | Fails exactly when GensError reports, with that error. Otherwise every class slot holds the last generalization from it, or stays empty. Every entry stage 2 adds is the datatype of a generalization target, or a generalization from the first class of its from name |
| Generalize.GensMadeStep | src/model-transform.ts:181-196 | The entries one generalization adds are the datatype of its target or the generalization from its class |
| Annotate.PropertyError | src/model-transform.ts:212-230 | The first error a property raises is one of an unknown visibility code, a missing type, or a missing pool association |
| Annotate.PoolIndexHas | src/model-transform.ts:223-227 | The pool lookup finds an entry exactly when the parser's associations hold that name pair |
| Annotate.AssocKeyFresh | src/model-transform.ts:236 | `ASSOC_` plus the property id just set is not yet a key |
| Annotate.InvAddAssociation | src/model-transform.ts:233-247 | Annotating the first pool entry of a class pair keeps the invariant |
| Annotate.ResolvePropertyType | src/model-transform.ts:220-257 | Fails with AssociationNotFound exactly when the type is a class and no pool association joins the owner to it. For a class type, the target is that class's id. An unannotated pool entry is annotated with `ASSOC_<pid>`, its node is appended, and the property refers to it. An already annotated entry leaves the state unchanged and the property has no association. Any other type changes the state exactly as the datatype resolution of the name |
| Annotate.AnnotateProperty | src/model-transform.ts:206-258 | Fails exactly when PropertyError reports, with that error. Otherwise the property has the least free token id, the declared name and flags, the mapped visibility and a resolved type. The new state is the property set under its id, then exactly the type step of ResolvePropertyType |
| Annotate.AddProperty | src/model-transform.ts:207-257 | With a known visibility and a type name: the same error condition. Otherwise the annotated property is registered under the given id, and the new state is exactly the property set followed by its type step |
| Annotate.PropertyOkGrows | src/model-transform.ts:206-258 | A property annotation stays valid while later steps only add to the state |
| Annotate.AddParameter | src/model-transform.ts:279-283 | The parameter gets the least free `op_param_<n>` id and the given name and direction, and is appended to the registry |
| Annotate.RegisterParameters | src/model-transform.ts:278-295 | One parameter per declared parameter with direction in, plus a `return` parameter with direction return exactly when a return type is declared, in order |
| Annotate.ResolveTypeName | src/model-transform.ts:302-311 | A parameter type name resolves to the first class of that name, or else to the datatype of that name. The new state is exactly the type resolution of the name: unchanged for a class or a known datatype, otherwise one new datatype |
| Annotate.ResolveParameterTypes | src/model-transform.ts:297-314 | Each parameter with a declared type gets the resolved type; untyped ones stay untyped |
| Annotate.AnnotateMethod | src/model-transform.ts:262-275 | Fails with VisibilityModifierNotFound exactly when the code is unknown. Otherwise the method has the least free token id, the declared name and flags, is not abstract, and its parameters satisfy MethodOk. The new registry is the old one, then the method, its parameters, and exactly the datatypes its declared parameter type names add, in order; the pool is untouched |
| Annotate.AddMethod | src/model-transform.ts:263-315 | The method is registered under the given id with the declared parameters, then the return parameter. The registry grows by the method, its parameters and the datatypes its parameter type names add, and by nothing else |
| Annotate.AddTypeNamesFrom | src/model-transform.ts:302-311 | Resolving a run of type names only appends to the datatype map, and each appended datatype is named by one of those names |
| Annotate.TypeNamesUpToIn | src/model-transform.ts:297-303 | A type name collected from a method's parameters is the declared type of one of them |
| Annotate.MethodOkGrows | src/model-transform.ts:262-315 | A method annotation stays valid while later steps only add to the state |
| Pass.PropsError | src/model-transform.ts:206-258 | None exactly when every property annotates; otherwise the error of the first property that does not |
| Pass.MethodsError | src/model-transform.ts:262-275 | None exactly when every method's visibility code is known; otherwise VisibilityModifierNotFound |
| Pass.ClassesErrorFrom | src/model-transform.ts:199-316 | None exactly when every class from k on annotates; otherwise the error of the first class that does not |
| Pass.AnnotateProperties | src/model-transform.ts:206-258 | Fails exactly when PropsError reports, with that error; otherwise there is one annotated property per declared property, in order |
| Pass.AnnotateMethods | src/model-transform.ts:262-315 | Fails exactly when MethodsError reports; otherwise there is one annotated method per declared method, in order |
| Pass.AnnotateClass | src/model-transform.ts:204-315 | Fails exactly when the class's properties or methods fail; otherwise the class node holds its annotated members and nothing before it changes |
| Pass.AnnotateClasses | src/model-transform.ts:199-316 | Fails exactly when ClassesErrorFrom(0) reports, with that error. Otherwise every class is annotated, and every entry stage 3 adds is a member, association, parameter or datatype of a class whose node lists the member |
| Pass.TransformModel | src/model-transform.ts:152-319 | Fails exactly when the stereotype, generalization or class annotation errors report, in that order. Otherwise the invariant holds, the class ids are least free, every class is annotated and has its last generalization, and every entry after the classes is accounted for by a generalization or by a member of some class |
| Pass.PropsMadeStep | src/model-transform.ts:206-258 | The entries one more property adds are the property, the association it refers to, or the datatype of its declared type |
| Pass.MethodsMadeStep | src/model-transform.ts:262-315 | The entries one more method adds are the method, one of its parameters, or a datatype of a declared parameter type |
| Pass.SlotsKept | src/model-transform.ts:199-316 | Stage 3 leaves the generalization slots of stage 2 intact |
| Pass.ClassIdsDistinct | src/model-transform.ts:169 | Distinct classes get distinct ids |
| Pass.AssociationsUnique | src/model-transform.ts:233-247 | The registry holds at most one association per pair of from/to class ids |
| Pass.DataTypesUnique | src/model-transform.ts:156-161 | The registry holds at most one datatype per name |
| Pass.DataTypeNameUsed | src/model-transform.ts:156-161 | Every datatype in the registry is named by a generalization target or by the declared type of a property or parameter |
| Pass.AssociationReferenced | src/model-transform.ts:233-247 | Every association in the registry is the one some property of a class node refers to |
| Pass.NoMembersOnlyClasses | src/model-transform.ts:152-319 | A model without members or generalizations yields a registry of just its classes and no datatypes |
| Render.GetDataTypesData | src/xml-render.ts:14-35 | The datatype elements of the registry's datatype nodes, in insertion order |
| Render.GetClassAttributes | src/xml-render.ts:57-98 | The attribute elements of the class's properties |
| Render.GetClassOperations | src/xml-render.ts:100-156 | The operation elements of the class's methods, each with its parameter elements |
| Render.GetClassesData | src/xml-render.ts:158-189 | The class elements of the registry's class nodes, in insertion order |
| Render.GetAssociationData | src/xml-render.ts:191-241 | The association elements of the registry's association nodes, in insertion order, as the code writes them: the owned end's id is `REVERSE_` + the from-class id |
| Render.TransformModelToXmlObj | src/xml-render.ts:243-268 | The document: the package with the classes, then the associations as the code writes them, followed by the datatypes |
| Render.RenderedComplete | src/xml-render.ts:18-31 | Every node of the filtered kind is rendered |
| Render.RenderedSound | src/xml-render.ts:18-31 | Every rendered element comes from a node of the filtered kind |
| Render.RenderedPositions | src/xml-render.ts:18-31 | The rendered elements come from strictly increasing registry positions, so insertion order is kept |
| Render.RenderedPrefix | src/xml-render.ts:18-31 | Entries after the last node of a kind do not change that kind's rendering |
| Render.RenderedAll | src/xml-render.ts:18-31 | If every node is of the kind, the rendering is one element per node, in order |
| Render.ReverseEndIdsCollide | src/xml-render.ts:214-231 | As written: two associations from the same class get the same owned-end id `REVERSE_<fromId>` |
| Render.ReverseEndIdsDistinct | src/xml-render.ts:214-231 | Corrected: distinct associations get distinct owned-end ids |
| Output.ElementId | src/xml-render.ts:172 | A class, association or datatype element carries its registry key as `xmi:id` |
| Output.ClassElementsInOrder | src/xml-render.ts:158-189 | After a successful pass the class elements are exactly the input classes, in input order, with their ids |
| Output.TopIdsDistinct | src/xml-render.ts:243-268 | The class, association and datatype elements of the document have pairwise distinct `xmi:id`s |
| Output.ResolvesDefined | src/xml-render.ts:85 | A resolved type target is the `xmi:id` of a class or datatype element |
| Output.ClassReferencesDefined | src/xml-render.ts:37-156 | Every property type, typed parameter and generalization target of an annotated class refers to a class or datatype element |
| Output.PropertyTypeDefined | src/xml-render.ts:80-87 | A property's type reference refers to a class or datatype element |
| Output.ParameterTypeDefined | src/xml-render.ts:120-127 | A typed parameter's type reference refers to a class or datatype element |
| Output.AssociationEndsDefined | src/xml-render.ts:206-225 | Both ends of an association are the `xmi:id`s of class elements |
| Output.ClassDefined | src/xml-render.ts:172 | Every class id is the `xmi:id` of a class element |
| Output.DocumentTop | src/xml-render.ts:243-268 | The package is the document's second child; its children, followed by the document's later children, are the class, association and datatype elements in that order |

## Left out

- Randomness: `randomHex` (`Math.random`) becomes a stream of tokens passed as a parameter.
  Every token is assumed to have randomHex's shape: `0x` and five lower-case hex digits.
- Object identity and aliasing are not modelled. Node references are held as identifiers:
  `__from_node`, `__to_node`, `type.__referencedNode`, and an association shared by several
  properties. Writes into the parser's objects become new values in the state.
- `renderModel` and the XML serialization by the `xml` package are not modelled. Neither is
  the command-line entry point with its file I/O (`src/index.ts`) or the upstream parser that
  builds the code model. The model stops at the element tree.
- The element tree keeps attributes as ordered key/value pairs. The source's distinction
  between `{tag: {_attr}}` and `{tag: [{_attr}, ...children]}` objects is not kept.
- Annotate.RegisterParameters: states only that parameter ids have the `op_param_` form, not
  that each is the least free one. AddParameter states that for a single parameter.
- Annotate.PropertyError: its own contract lists only the possible errors. That it is exactly
  the error the annotation raises is stated by AnnotateProperty.
- Pass.TransformModel: states least-freeness for the class ids only. For member ids it is
  stated per step by AnnotateProperty and AnnotateMethod, and is not carried to the whole run.
- The package id `0x1f5e5_22` is a constant. That it differs from every node id is not
  proved. It could equal a token id only if token `0x1f5e5` were drawn at least
  twenty-three times.
- Direction `inout` is in the vocabulary but never produced, as in the source.

## Findings

| source | as written | input that shows it | evidently intended | confidence | as-written member | corrected member |
|---|---|---|---|---|---|---|
| src/xml-render.ts:216,229 | The owned end of an association gets the id `REVERSE_` + the association's from-class id | A class with two properties typed by two different classes yields two associations from that class; both owned ends get the same `xmi:id`, which XMI requires to be unique | An owned-end id derived from the association's own (unique) id, `REVERSE_` + association id | medium, not executed | Render.AssociationElementAsWritten, Render.ReverseEndIdsCollide | Render.AssociationElement, Render.ReverseEndIdsDistinct |

The renderer, `Render.GetAssociationData` and `Render.TransformModelToXmlObj`, follows the code as
written. `Render.AssociationElement` is the corrected element, and `Render.ReverseEndIdsDistinct`
is proved about it; it is defined beside the renderer and is not used by it.

# C linkage of the persisted symbol index, and the parser keyword tables

This project models two parts of the CDT C/C++ tooling.

**The C linkage of the persisted symbol index (`PDOMCLinkage`).** It maps the
parser's live semantic bindings (variables, functions, structures, fields,
enumerations, enumerators, typedefs) to persisted records:

- `addBinding` finds or creates a record.
- `adaptBinding` looks one up without creating it.
- `resolveBinding` resolves a name reference.
- `getNode` decodes a record id back into the wrapper for its stored node type.
- `addType` adds a type.
- `getBindingType` and `isFileLocalBinding` classify a binding.

**The keyword tables of the parser (`KeywordSets`).** For a syntactic position
and a language (C or C++), they give the set of keywords that may start a token
there.

Files:

- `wrappers.dfy` holds `Option` (the source's `null`) and `Result` (the source's exceptions).
- `keyword_sets.dfy` (module `KeywordSets`) holds:
  - the keyword tables, as set constants built by union and difference;
  - one function per per-language `Hashtable` of the source;
  - the lookup `GetKeywords`;
  - the subset and membership relations between the tables.
- `c_node_types.dfy` (module `CNodeTypes`) holds:
  - the node-type tags;
  - the live binding, represented as the set of binding interfaces it implements, since one binding can be both a field and a variable;
  - the pure dispatch functions: `BindingType`, `IsFileLocalBinding`, `CandidateTags` and `WrapperFor`.
- `c_linkage.dfy` (module `CLinkageStore`) holds the store and the class `PdomCLinkage`.
  - A store is an arena of records plus the ordered child list of each parent. Each record has a tag, a parent, a name and, for an enumerator, its enumeration. The linkage's own child list is its top-level name index.
  - The class holds this store in fields. Its methods `AddBinding`, `AddName` and `AddType` update the fields in place.
  - Each method is proved against a specification function of the old state: `AddPlan` or `NamePlan`, followed by `Reply` and `After`.
  - The kind dispatch (`Creation`, and the method `NewBinding` in the class) is separate from the lookup-and-register steps around it.
  - `ValidStore` is the index invariant. It requires:
    1. the linkage record exists;
    2. every registered child is a binding record whose parent is the list's owner;
    3. every binding record is named and registered with its parent;
    4. every enumerator points at an enumeration;
    5. no two children of a searchable parent share name and tag.
  - `AddPreservesValid` and `AddIsIdempotent` are the two main lemmas about this invariant.

Collaborators whose code is not part of this model are written as deterministic functions over the store:

- `FindBinding.findBinding` becomes `Find`: the first child, in child-list order, with the given name and one of the given tags.
- `getAdaptedParent` becomes `ResolveParent`: the parent a live binding names, if it is a record of the store or the linkage.
- `PDOMASTAdapter.getAdapterIfAnonymous` becomes `AnonymousAdapter`: a named binding is kept as it is; an anonymous binding takes its synthetic name, or is dropped when there is none.
- Record allocation becomes `Allocate`, which appends to the arena.
- `addChild` becomes `AddChild`, which appends to the parent's list. `Register` is the two in sequence.

The live binding carries what these collaborators report about it:

- the owner it resolves to;
- its synthetic name;
- its store of origin, when it is already persisted;
- for an enumerator, the enumeration reported by `getType()`.

Two facts about the source that the model follows:

- `resolveBinding` returns a single binding, the first match of the index search (PDOMCLinkage.java:235).
- A field under a parent that is not a member owner gives null, and no fault (PDOMCLinkage.java:91-93).

The node-type base `LAST_NODE_TYPE`, the generic `LINKAGE` tag and the linkage id belong to classes that are not part of this model. They are constants without a value. `LINKAGE` is only known to lie in the generic tag range.

## Model

| member | source | states |
|---|---|---|
| CNodeTypes.NodeTypesDistinct | core/org.eclipse.cdt.core/parser/org/eclipse/cdt/internal/core/pdom/dom/c/PDOMCLinkage.java:68-76 | the nine C tags are pairwise distinct, all above LAST_NODE_TYPE, and none is the linkage's own tag |
| CNodeTypes.BindingType | core/org.eclipse.cdt.core/parser/org/eclipse/cdt/internal/core/pdom/dom/c/PDOMCLinkage.java:143-161 | the tag is 0 or one of the seven binding tags; a field (even one that is also a variable) is CFIELD; CVARIABLE only for a variable that is not a field |
| CNodeTypes.BindingTypeFollowsPrecedence | core/org.eclipse.cdt.core/parser/org/eclipse/cdt/internal/core/pdom/dom/c/PDOMCLinkage.java:143-161 | the tag is that of the first kind, in the order Field, Variable, Function, Composite, Enumeration, Enumerator, Typedef, that the binding has |
| CNodeTypes.BindingTypeZero | core/org.eclipse.cdt.core/parser/org/eclipse/cdt/internal/core/pdom/dom/c/PDOMCLinkage.java:143-161 | the tag is 0 exactly when the binding has none of the seven kinds |
| CNodeTypes.BindingTypeIgnoresParameterAndProblem | core/org.eclipse.cdt.core/parser/org/eclipse/cdt/internal/core/pdom/dom/c/PDOMCLinkage.java:143-161 | being a parameter or a problem binding never changes the tag |
| CNodeTypes.IsFileLocalBinding | core/org.eclipse.cdt.core/parser/org/eclipse/cdt/internal/core/pdom/dom/c/PDOMCLinkage.java:255-268 | file-local exactly when the binding is static and classified as a variable or a function; never for a field |
| CNodeTypes.CandidateTags | core/org.eclipse.cdt.core/parser/org/eclipse/cdt/internal/core/pdom/dom/c/PDOMCLinkage.java:218-234 | no tag set exactly for a role outside id-expression, elaborated and named type specifier; otherwise a nonempty set of binding tags, never CFIELD |
| CNodeTypes.CandidateTagsSeparateValuesFromTypes | core/org.eclipse.cdt.core/parser/org/eclipse/cdt/internal/core/pdom/dom/c/PDOMCLinkage.java:221-231 | value references and type references search disjoint tags, call targets and other values too; an elaborated type searches a subset of what a named type searches |
| CNodeTypes.WrapperFor | core/org.eclipse.cdt.core/parser/org/eclipse/cdt/internal/core/pdom/dom/c/PDOMCLinkage.java:194-215 | a C wrapper is chosen only for its own tag; a record goes to the generic layer only when no C wrapper has its tag |
| CNodeTypes.WrapperForWrapperTag | core/org.eclipse.cdt.core/parser/org/eclipse/cdt/internal/core/pdom/dom/c/PDOMCLinkage.java:194-213 | a record stored under a wrapper's tag reads back as that wrapper |
| CLinkageStore.Find | core/org.eclipse.cdt.core/parser/org/eclipse/cdt/internal/core/pdom/dom/c/PDOMCLinkage.java:182-184 | the result is a listed record with that name and one of the tags, and the first such in the list; none exactly when no listed record matches |
| CLinkageStore.ResolveParent | core/org.eclipse.cdt.core/parser/org/eclipse/cdt/internal/core/pdom/dom/c/PDOMCLinkage.java:81-83 | the parent a binding names is the linkage or an existing record of the store; an unresolvable owner, or an owner not in the store, gives null |
| CLinkageStore.AnonymousAdapter | core/org.eclipse.cdt.core/parser/org/eclipse/cdt/internal/core/pdom/dom/c/PDOMCLinkage.java:173-177 | a named binding passes unchanged; an anonymous one is dropped exactly when it has no synthetic name; what passes has a nonempty name and is otherwise the same binding |
| CLinkageStore.AdaptBinding | core/org.eclipse.cdt.core/parser/org/eclipse/cdt/internal/core/pdom/dom/c/PDOMCLinkage.java:163-188 | a binding of this store is returned as it is; any other binding (including one of another store) is found only as a record registered under a searchable parent with its name and tag, and none means no such record exists |
| CLinkageStore.SearchedBindingKeepsKindsAndOwner | core/org.eclipse.cdt.core/parser/org/eclipse/cdt/internal/core/pdom/dom/c/PDOMCLinkage.java:170-179 | the binding a lookup searches for has the kinds, the tag and the owner of the binding handed in |
| CLinkageStore.NoLookupOutsideSearchableScopes | core/org.eclipse.cdt.core/parser/org/eclipse/cdt/internal/core/pdom/dom/c/PDOMCLinkage.java:179-187 | a binding whose parent is neither the linkage nor a member owner is never found |
| CLinkageStore.FoundRecordCarriesBindingType | core/org.eclipse.cdt.core/parser/org/eclipse/cdt/internal/core/pdom/dom/c/PDOMCLinkage.java:182-184 | in a valid store, what a lookup finds is a record carrying the binding's own tag, which is a binding tag |
| CLinkageStore.UnknownKindsAreNeverFound | core/org.eclipse.cdt.core/parser/org/eclipse/cdt/internal/core/pdom/dom/c/PDOMCLinkage.java:182-184 | in a valid store, a binding classified 0 is never found |
| CLinkageStore.Creation | core/org.eclipse.cdt.core/parser/org/eclipse/cdt/internal/core/pdom/dom/c/PDOMCLinkage.java:91-114 | a record is chosen exactly for a persisted kind, a field only under a member owner, an enumerator only when its enumeration adapts to an enumeration record; the record carries the binding's tag, the parent and the name, and an enumerator the record of its enumeration; a fault exactly for an enumerator whose type is missing (TypeUnavailable) or not an enumeration (NotAnEnumeration) |
| CLinkageStore.AddPlan | core/org.eclipse.cdt.core/parser/org/eclipse/cdt/internal/core/pdom/dom/c/PDOMCLinkage.java:78-121 | an existing record is returned exactly when the lookup finds one; a record is created exactly when lookup fails, the parent resolves, the adapter names it, it is no parameter, its kind is persisted, a field has a member-owner parent and an enumerator's enumeration adapts to an enumeration record; the record created carries the binding's tag, parent and adapted name, and the enumerator its enumeration; a fault exactly when lookup fails, the parent resolves, the adapter names it, it is no parameter and it is an enumerator whose type is missing (TypeUnavailable) or not an enumeration (NotAnEnumeration) |
| CLinkageStore.ParametersAreNeverCreated | core/org.eclipse.cdt.core/parser/org/eclipse/cdt/internal/core/pdom/dom/c/PDOMCLinkage.java:88-89 | a parameter gets what the lookup found, or null, and the store is unchanged |
| CLinkageStore.FoundBindingIsReturnedUnchanged | core/org.eclipse.cdt.core/parser/org/eclipse/cdt/internal/core/pdom/dom/c/PDOMCLinkage.java:78-80 | when the lookup finds a record it is the answer, and nothing is allocated or registered |
| CLinkageStore.UnnamedBindingIsRefused | core/org.eclipse.cdt.core/parser/org/eclipse/cdt/internal/core/pdom/dom/c/PDOMCLinkage.java:85-89 | an anonymous binding the adapter cannot name gives null and leaves the store unchanged |
| CLinkageStore.Commit | core/org.eclipse.cdt.core/parser/org/eclipse/cdt/internal/core/pdom/dom/c/PDOMCLinkage.java:116-118 | the new record is appended after every old one, which are kept; the parent's child list gains exactly the new record's id at its end, and every other child list is kept |
| CLinkageStore.CommitAddsOnlyTheNewChild | core/org.eclipse.cdt.core/parser/org/eclipse/cdt/internal/core/pdom/dom/c/PDOMCLinkage.java:116-118 | a creation appends exactly one record, keeps every other record, and changes only the parent's child list, which gains the new record at its end |
| CLinkageStore.CommitPreservesValid | core/org.eclipse.cdt.core/parser/org/eclipse/cdt/internal/core/pdom/dom/c/PDOMCLinkage.java:116-118 | registering a named binding record whose key is new under a searchable parent keeps the index invariant |
| CLinkageStore.CommitKeepsRecordsLinked | core/org.eclipse.cdt.core/parser/org/eclipse/cdt/internal/core/pdom/dom/c/PDOMCLinkage.java:116-118 | after registration every child still names its parent and every binding record is still named and registered with its parent |
| CLinkageStore.CommitKeepsKeysDistinct | core/org.eclipse.cdt.core/parser/org/eclipse/cdt/internal/core/pdom/dom/c/PDOMCLinkage.java:116-118 | registering a key new under its searchable parent keeps all keys under searchable parents distinct |
| CLinkageStore.CreationSearchedItsOwnKey | core/org.eclipse.cdt.core/parser/org/eclipse/cdt/internal/core/pdom/dom/c/PDOMCLinkage.java:79-86 | a binding that gets created was searched for in its parent under exactly the name and tag it is created with |
| CLinkageStore.AddPreservesValid | core/org.eclipse.cdt.core/parser/org/eclipse/cdt/internal/core/pdom/dom/c/PDOMCLinkage.java:78-121 | every find-or-create call keeps the index invariant: distinct keys under searchable parents, no unnamed or unregistered binding, enumerators linked to enumerations |
| CLinkageStore.AddIsIdempotent | core/org.eclipse.cdt.core/parser/org/eclipse/cdt/internal/core/pdom/dom/c/PDOMCLinkage.java:78-121 | repeating a call that found a record, or created one under a searchable parent, returns the same result and changes nothing |
| CLinkageStore.NamePlan | core/org.eclipse.cdt.core/parser/org/eclipse/cdt/internal/core/pdom/dom/c/PDOMCLinkage.java:123-141 | a null name, null characters, a null or problem binding or a parameter gives null; otherwise the result is the live-binding find-or-create |
| CLinkageStore.AppendNonBindingPreservesValid | core/org.eclipse.cdt.core/parser/org/eclipse/cdt/internal/core/pdom/dom/c/PDOMCLinkage.java:242-243 | allocating a basic-type record keeps the index invariant |
| CLinkageStore.GetNode | core/org.eclipse.cdt.core/parser/org/eclipse/cdt/internal/core/pdom/dom/c/PDOMCLinkage.java:190-216 | record 0 and only record 0 gives no node; any other record gives the C wrapper of its stored tag, or the generic layer when no C wrapper has that tag |
| CLinkageStore.RegisteredBindingsDecodeAsCWrappers | core/org.eclipse.cdt.core/parser/org/eclipse/cdt/internal/core/pdom/dom/c/PDOMCLinkage.java:190-216 | in a valid store every registered binding decodes as a C wrapper of itself, and the linkage's own record goes to the generic layer |
| CLinkageStore.ResolveBinding | core/org.eclipse.cdt.core/parser/org/eclipse/cdt/internal/core/pdom/dom/c/PDOMCLinkage.java:218-236 | other roles give null; a result is a top-level record with the name and a tag allowed for the role; null means no top-level record has the name and such a tag |
| CLinkageStore.PdomCLinkage.constructor | core/org.eclipse.cdt.core/parser/org/eclipse/cdt/internal/core/pdom/dom/c/PDOMCLinkage.java:56-58 | a new linkage is its own record, tagged LINKAGE and named by the linkage id, with an empty index, and the store is valid |
| CLinkageStore.PdomCLinkage.Allocate | core/org.eclipse.cdt.core/parser/org/eclipse/cdt/internal/core/pdom/dom/c/PDOMCLinkage.java:93-114 | constructing a binding appends its record to the arena, leaves the child lists alone and returns the new record's id |
| CLinkageStore.PdomCLinkage.AddChild | core/org.eclipse.cdt.core/parser/org/eclipse/cdt/internal/core/pdom/dom/c/PDOMCLinkage.java:116-118 | `parent.addChild` appends the child to that parent's list and leaves records and every other list alone |
| CLinkageStore.PdomCLinkage.Register | core/org.eclipse.cdt.core/parser/org/eclipse/cdt/internal/core/pdom/dom/c/PDOMCLinkage.java:93-118 | allocating and registering a record leaves the fields exactly as Commit prescribes, and returns the new record's id |
| CLinkageStore.PdomCLinkage.AddBinding | core/org.eclipse.cdt.core/parser/org/eclipse/cdt/internal/core/pdom/dom/c/PDOMCLinkage.java:78-121 | the reply and the new fields are those AddPlan prescribes for the old state, and the store stays valid |
| CLinkageStore.PdomCLinkage.NewBinding | core/org.eclipse.cdt.core/parser/org/eclipse/cdt/internal/core/pdom/dom/c/PDOMCLinkage.java:91-114 | the record chosen, the null or the fault is the one Creation prescribes for the current state |
| CLinkageStore.PdomCLinkage.AddName | core/org.eclipse.cdt.core/parser/org/eclipse/cdt/internal/core/pdom/dom/c/PDOMCLinkage.java:123-141 | the reply and the new fields are those NamePlan prescribes for the old state, and the store stays valid |
| CLinkageStore.PdomCLinkage.AddType | core/org.eclipse.cdt.core/parser/org/eclipse/cdt/internal/core/pdom/dom/c/PDOMCLinkage.java:238-249 | a problem binding gives null and no change; a basic type allocates one unregistered CBASICTYPE record under the given parent, whatever that parent is; a binding type is the find-or-create; any other type goes to the generic layer unchanged; the store stays valid |
| KeywordSets.DeclSpecifierSequenceTable | core/org.eclipse.cdt.core/parser/org/eclipse/cdt/internal/core/parser/token/KeywordSets.java:81-137 | _Bool is a decl-specifier exactly in C, bool exactly in C++ |
| KeywordSets.DeclarationTable | core/org.eclipse.cdt.core/parser/org/eclipse/cdt/internal/core/parser/token/KeywordSets.java:139-165 | in both languages every decl-specifier, and asm, may start a declaration |
| KeywordSets.ExpressionTable | core/org.eclipse.cdt.core/parser/org/eclipse/cdt/internal/core/parser/token/KeywordSets.java:184-210 | in both languages an expression may start with every C expression keyword |
| KeywordSets.StatementTable | core/org.eclipse.cdt.core/parser/org/eclipse/cdt/internal/core/parser/token/KeywordSets.java:212-259 | in both languages a statement may start with every declaration and every expression keyword |
| KeywordSets.FunctionModifierTable | core/org.eclipse.cdt.core/parser/org/eclipse/cdt/internal/core/parser/token/KeywordSets.java:288-306 | the table is empty exactly for C, and holds only throw, try and volatile |
| KeywordSets.AllTable | core/org.eclipse.cdt.core/parser/org/eclipse/cdt/internal/core/parser/token/KeywordSets.java:327-457 | both ALL tables hold every preprocessor directive |
| KeywordSets.GetKeywords | core/org.eclipse.cdt.core/parser/org/eclipse/cdt/internal/core/parser/token/KeywordSets.java:28-62 | null exactly for an unhandled key; EMPTY gives the empty set; MEMBER gives CLASS_MEMBER for C++ and the empty set for C; every other key selects its own static table, through the per-language table where the key has one |
| KeywordSets.MemberTable | core/org.eclipse.cdt.core/parser/org/eclipse/cdt/internal/core/parser/token/KeywordSets.java:271-278 | the C++ member table is the C++ decl-specifier table plus public, protected and private, and the C member table is empty |
| KeywordSets.CppDeclSpecifiersFromC | core/org.eclipse.cdt.core/parser/org/eclipse/cdt/internal/core/parser/token/KeywordSets.java:112-129 | the C++ decl-specifiers are the C ones minus _Complex, _Imaginary and _Bool, plus virtual, mutable, explicit, friend, bool, typename and class; _Bool is C-only and bool C++-only |
| KeywordSets.BoolSpellings | core/org.eclipse.cdt.core/parser/org/eclipse/cdt/internal/core/parser/token/KeywordSets.java:115-128 | _Bool is a C decl-specifier but not a C++ one, and bool is a C++ decl-specifier |
| KeywordSets.DeclarationCoversDeclSpecifiers | core/org.eclipse.cdt.core/parser/org/eclipse/cdt/internal/core/parser/token/KeywordSets.java:139-157 | in both languages every decl-specifier may start a declaration, and so may asm, which is no decl-specifier |
| KeywordSets.AsmIsNoDeclSpecifier | core/org.eclipse.cdt.core/parser/org/eclipse/cdt/internal/core/parser/token/KeywordSets.java:81-129 | asm is in neither decl-specifier table |
| KeywordSets.StatementCoversDeclarationAndExpression | core/org.eclipse.cdt.core/parser/org/eclipse/cdt/internal/core/parser/token/KeywordSets.java:212-251 | in both languages the statement table contains the declaration and the expression tables |
| KeywordSets.ExpressionCInExpressionCpp | core/org.eclipse.cdt.core/parser/org/eclipse/cdt/internal/core/parser/token/KeywordSets.java:184-202 | every C expression keyword is a C++ expression keyword |
| KeywordSets.FunctionModifierTables | core/org.eclipse.cdt.core/parser/org/eclipse/cdt/internal/core/parser/token/KeywordSets.java:288-305 | no C function modifiers; the C++ ones are exactly throw, try and volatile |
| KeywordSets.AllContainsDirectives | core/org.eclipse.cdt.core/parser/org/eclipse/cdt/internal/core/parser/token/KeywordSets.java:327-450 | both ALL tables contain every preprocessor directive |
| KeywordSets.LanguageIndependentKeys | core/org.eclipse.cdt.core/parser/org/eclipse/cdt/internal/core/parser/token/KeywordSets.java:38-55 | EMPTY, BASE_SPECIFIER, POST_USING, NAMESPACE_ONLY, MACRO and PP_DIRECTIVE give the same table for C as for C++; BASE_SPECIFIER is public, protected, private and virtual |
| KeywordSets.AsmMissingFromAllC | core/org.eclipse.cdt.core/parser/org/eclipse/cdt/internal/core/parser/token/KeywordSets.java:327-369 | ALL_C is a list of its own: asm starts a C statement but is not in ALL_C |
| KeywordSets.AsmNotInAllC | core/org.eclipse.cdt.core/parser/org/eclipse/cdt/internal/core/parser/token/KeywordSets.java:327-369 | asm is not in ALL_C |
| KeywordSets.DeleteInAllC | core/org.eclipse.cdt.core/parser/org/eclipse/cdt/internal/core/parser/token/KeywordSets.java:327-369 | delete is in ALL_C but starts no C statement |
| KeywordSets.DeleteStartsNoCStatement | core/org.eclipse.cdt.core/parser/org/eclipse/cdt/internal/core/parser/token/KeywordSets.java:212-230 | delete is not in the C statement table |
| KeywordSets.MutableIsACDeclSpecifier | core/org.eclipse.cdt.core/parser/org/eclipse/cdt/internal/core/parser/token/KeywordSets.java:81-110 | the C decl-specifier table contains mutable |

## Left out

- The keyword, directive and macro-operator strings are defined in `Keywords` and `Directives`, which are not part of this model. Each is an enumeration constructor, so distinct entries are distinct values. `TreeSet` ordering and `HashSet`/`Hashtable` identity are not modelled: each table is a `set`.
- The step-by-step `add`/`addAll`/`remove` of the static initializers is modelled as the set expression it builds. Nothing mutates a table after class initialization.
- `getAdaptedParent` with creation enabled, as `addBinding` calls it, may create a missing parent scope. `ResolveParent` only resolves existing records, so parent creation is not modelled.
- B-tree ordering by `getIndexComparator` is abstracted to child-list order. `Find` returns the first match in that order. `getIndexComparator`, `getID`, `getNodeType` and the record-reopening constructor `PDOMCLinkage(PDOM, int)` are plumbing over the generic layer and are left out.
- The top-level index and a member owner's child list are both one `seq` per parent. `addChild` always appends. Any self-registration done by the `PDOMC*` constructors is not modelled, because those classes are not part of this model.
- Attribute copying in the `PDOMC*` constructors (types, storage class, enumerator values) is not modelled. A created record holds tag, parent, name and enumeration link.
- `CoreException` from the record database and `DOMException` from `isStatic()` are not modelled. The model's `isStatic` is a plain field. A `DOMException` from an enumerator's `getType()` is `Err(TypeUnavailable)`. A type that is not an enumeration, which would be a `ClassCastException` in the source, is `Err(NotAnEnumeration)`.
- `super.getNode` and `super.addType` of the generic layer are results (`BaseNode`, `Delegated`), not computations.
- `PDOMCLinkage` takes no locks and has no transactions, so none are modelled.
- CLinkageStore.AddIsIdempotent: stated only for calls that found a record or created one under the linkage or a member owner. Under any other parent the lookup never searches (`NoLookupOutsideSearchableScopes`), so an identical call creates a second record, as the source does.
- CLinkageStore.PdomCLinkage.AddBinding: requires `WellFormed(b)`, that a binding of some store has a nonempty name. Persisted bindings are named by construction, and the proof of the index invariant depends on it.
- CLinkageStore.GetNode: requires the record to be 0 or an allocated record. Reading the tag of an unallocated record is outside what the database defines.
- `addBinding` on a parameter returns whatever `adaptBinding` finds, since the lookup runs before the parameter check. `ParametersAreNeverCreated` states this; only a parameter the lookup does not find gives null.
- `IsMemberOwner` treats the structure and enumeration records as the `IPDOMMemberOwner`s. The classes that implement that interface are not part of this model, so this is an assumption about them.
- CLinkageStore.PdomCLinkage.AddType: any type that is not a problem, a basic type or a binding goes to `super.addType(parent, type)`, which takes `parent` and may allocate. The model treats that delegation as leaving this store unchanged.

/** The C linkage's node-type numbering and the pure dispatch over the parser's
    live semantic bindings: which tag a binding is stored under, whether it is
    local to its translation unit, which tags a name reference is looked up
    under, and which wrapper a stored tag is read back as. */
module CNodeTypes {
  import opened Wrappers

  /** The last tag of the generic linkage layer. It is defined outside this
      model; nothing below depends on its value. */
  const LAST_NODE_TYPE: nat

  /** A tag of the generic layer, such as the tag of a linkage record. */
  type GenericTag = t: nat | t <= LAST_NODE_TYPE

  /** The tag of the linkage's own record (generic layer). */
  const LINKAGE: GenericTag

  const CVARIABLE: nat := LAST_NODE_TYPE + 1
  const CFUNCTION: nat := LAST_NODE_TYPE + 2
  const CSTRUCTURE: nat := LAST_NODE_TYPE + 3
  const CFIELD: nat := LAST_NODE_TYPE + 4
  const CENUMERATION: nat := LAST_NODE_TYPE + 5
  const CENUMERATOR: nat := LAST_NODE_TYPE + 6
  const CTYPEDEF: nat := LAST_NODE_TYPE + 7
  const CPARAMETER: nat := LAST_NODE_TYPE + 8
  const CBASICTYPE: nat := LAST_NODE_TYPE + 9

  /** The tags a persisted binding can carry: the seven kinds the linkage
      creates bindings for (parameters and basic types are not bindings). */
  predicate IsBindingTag(t: nat) {
    CVARIABLE <= t <= CTYPEDEF
  }

  /** The interfaces a live binding may implement. One binding may implement
      several (a field is also a variable); `Problem` marks a binding that
      stands for a failed name resolution. */
  datatype Kind =
    | Field | Variable | Function | Composite | Enumeration | Enumerator
    | Typedef | Parameter | Problem

  /** A non-empty name, as the anonymous-type adapter assigns. */
  type Identifier = s: seq<char> | s != [] witness ['_']

  /** Where the owner of a live binding resolves to in the store: the linkage
      itself, another persisted record, or nowhere. */
  datatype ParentRef = LinkageScope | RecordScope(record: nat) | Unresolvable

  /** A live binding that is itself a persisted binding: the identity of the
      store it belongs to and its record there. */
  datatype PersistedRef = PersistedRef(pdom: nat, record: nat)

  /** The parser's live semantic binding, with what the linkage asks of it.
      `anonymousName` is the synthetic name the anonymous-type adapter would
      give it (`None` when the adapter has none); `enumeration` is what an
      enumerator reports as its type (`None` when that query fails). */
  datatype LiveBinding = LiveBinding(
    kinds: set<Kind>,
    name: seq<char>,
    anonymousName: Option<Identifier>,
    isStatic: bool,
    owner: ParentRef,
    persisted: Option<PersistedRef>,
    enumeration: Option<LiveBinding>)

  /** The syntactic place of a name reference: inside an id-expression (and
      whether that expression's parent is a function call), after an elaborated
      type keyword, as a named type specifier, or anywhere else. */
  datatype NameRole =
    | IdExpression(inFunctionCall: bool)
    | ElaboratedTypeSpecifier
    | NamedTypeSpecifier
    | OtherRole

  /** The kinds in the order the linkage tests them. */
  const PRECEDENCE: seq<Kind> :=
    [Field, Variable, Function, Composite, Enumeration, Enumerator, Typedef]

  /** The tag of each kind the linkage persists (0 for the others). */
  function KindTag(k: Kind): nat {
    match k
    case Field => CFIELD
    case Variable => CVARIABLE
    case Function => CFUNCTION
    case Composite => CSTRUCTURE
    case Enumeration => CENUMERATION
    case Enumerator => CENUMERATOR
    case Typedef => CTYPEDEF
    case Parameter => 0
    case Problem => 0
  }

  /** The tag a live binding is searched and stored under. */
  function BindingType(b: LiveBinding): (t: nat)
    ensures t == 0 || IsBindingTag(t)
    ensures Field in b.kinds ==> t == CFIELD
    ensures t == CVARIABLE ==> Variable in b.kinds && Field !in b.kinds
  {
    if Field in b.kinds then CFIELD            // must come before Variable
    else if Variable in b.kinds then CVARIABLE
    else if Function in b.kinds then CFUNCTION
    else if Composite in b.kinds then CSTRUCTURE
    else if Enumeration in b.kinds then CENUMERATION
    else if Enumerator in b.kinds then CENUMERATOR
    else if Typedef in b.kinds then CTYPEDEF
    else 0
  }

  /** The tag is that of the first kind in PRECEDENCE the binding has. */
  lemma BindingTypeFollowsPrecedence(b: LiveBinding, i: nat)
    requires i < |PRECEDENCE| && PRECEDENCE[i] in b.kinds
    requires forall j :: 0 <= j < i ==> PRECEDENCE[j] !in b.kinds
    ensures BindingType(b) == KindTag(PRECEDENCE[i])
  {
    if i > 0 { assert PRECEDENCE[0] !in b.kinds; }
    if i > 1 { assert PRECEDENCE[1] !in b.kinds; }
    if i > 2 { assert PRECEDENCE[2] !in b.kinds; }
    if i > 3 { assert PRECEDENCE[3] !in b.kinds; }
    if i > 4 { assert PRECEDENCE[4] !in b.kinds; }
    if i > 5 { assert PRECEDENCE[5] !in b.kinds; }
  }

  /** The tag is 0 exactly when the binding has none of the persisted kinds. */
  lemma BindingTypeZero(b: LiveBinding)
    ensures BindingType(b) == 0 <==> forall j :: 0 <= j < |PRECEDENCE| ==> PRECEDENCE[j] !in b.kinds
  {
    if BindingType(b) != 0 {
      var j :| 0 <= j < |PRECEDENCE| && KindTag(PRECEDENCE[j]) == BindingType(b) && PRECEDENCE[j] in b.kinds by {
        if Field in b.kinds { assert PRECEDENCE[0] == Field; }
        else if Variable in b.kinds { assert PRECEDENCE[1] == Variable; }
        else if Function in b.kinds { assert PRECEDENCE[2] == Function; }
        else if Composite in b.kinds { assert PRECEDENCE[3] == Composite; }
        else if Enumeration in b.kinds { assert PRECEDENCE[4] == Enumeration; }
        else if Enumerator in b.kinds { assert PRECEDENCE[5] == Enumerator; }
        else { assert PRECEDENCE[6] == Typedef; }
      }
    }
  }

  /** Being a parameter or a problem binding does not change the tag. */
  lemma BindingTypeIgnoresParameterAndProblem(b: LiveBinding)
    ensures BindingType(b) == BindingType(b.(kinds := b.kinds - {Parameter, Problem}))
  {
  }

  /** The nine tags are pairwise distinct and all above the generic range. */
  lemma NodeTypesDistinct()
    ensures forall t ::
              (t in [CVARIABLE, CFUNCTION, CSTRUCTURE, CFIELD, CENUMERATION,
                     CENUMERATOR, CTYPEDEF, CPARAMETER, CBASICTYPE]) ==> t > LAST_NODE_TYPE
    ensures |{CVARIABLE, CFUNCTION, CSTRUCTURE, CFIELD, CENUMERATION,
              CENUMERATOR, CTYPEDEF, CPARAMETER, CBASICTYPE}| == 9
    ensures LINKAGE !in {CVARIABLE, CFUNCTION, CSTRUCTURE, CFIELD, CENUMERATION,
                          CENUMERATOR, CTYPEDEF, CPARAMETER, CBASICTYPE}
  {
  }

  /** Whether a binding's visibility is limited to its translation unit: only
      static variables and static functions are, and a field never is. */
  function IsFileLocalBinding(b: LiveBinding): (r: bool)
    ensures r <==> b.isStatic && BindingType(b) in {CVARIABLE, CFUNCTION}
    ensures Field in b.kinds ==> !r
  {
    if Field in b.kinds then false
    else if Variable in b.kinds then b.isStatic
    else if Function in b.kinds then b.isStatic
    else false
  }

  /** The tags a name reference is resolved among; `None` when the linkage
      does not resolve names in that position at all. */
  function CandidateTags(role: NameRole): (tags: Option<set<nat>>)
    ensures tags.None? <==> role == OtherRole
    ensures tags.Some? ==> tags.value != {} && forall t :: t in tags.value ==> IsBindingTag(t) && t != CFIELD
  {
    match role
    case IdExpression(inFunctionCall) =>
      if inFunctionCall then Some({CFUNCTION}) else Some({CVARIABLE, CENUMERATOR})
    case ElaboratedTypeSpecifier => Some({CSTRUCTURE})
    case NamedTypeSpecifier => Some({CSTRUCTURE, CENUMERATION, CTYPEDEF})
    case OtherRole => None
  }

  /** Values and types are looked up among disjoint tags, and an elaborated
      type is one of the tags a named type may denote. */
  lemma CandidateTagsSeparateValuesFromTypes(inCall: bool)
    ensures CandidateTags(IdExpression(inCall)).value !! CandidateTags(NamedTypeSpecifier).value
    ensures CandidateTags(IdExpression(true)).value !! CandidateTags(IdExpression(false)).value
    ensures CandidateTags(ElaboratedTypeSpecifier).value <= CandidateTags(NamedTypeSpecifier).value
  {
  }

  /** The wrapper classes a stored tag is read back as. */
  datatype CNodeKind =
    | CVariableNode | CFunctionNode | CStructureNode | CFieldNode
    | CEnumerationNode | CEnumeratorNode | CTypedefNode | CParameterNode
    | CBasicTypeNode

  /** A node read back from the store: none (record 0), a C wrapper, or a node
      the generic linkage layer decodes. */
  datatype Node = NoNode | CNode(kind: CNodeKind, record: nat) | BaseNode(record: nat)

  /** The tag each wrapper is stored under. */
  function WrapperTag(k: CNodeKind): nat {
    match k
    case CVariableNode => CVARIABLE
    case CFunctionNode => CFUNCTION
    case CStructureNode => CSTRUCTURE
    case CFieldNode => CFIELD
    case CEnumerationNode => CENUMERATION
    case CEnumeratorNode => CENUMERATOR
    case CTypedefNode => CTYPEDEF
    case CParameterNode => CPARAMETER
    case CBasicTypeNode => CBASICTYPE
  }

  /** The wrapper for a non-zero record whose stored tag is `tag`. */
  function WrapperFor(record: nat, tag: nat): (n: Node)
    requires record != 0
    ensures n.CNode? ==> WrapperTag(n.kind) == tag && n.record == record
    ensures n.BaseNode? ==> n.record == record && forall k :: WrapperTag(k) != tag
    ensures !n.NoNode?
  {
    if tag == CVARIABLE then CNode(CVariableNode, record)
    else if tag == CFUNCTION then CNode(CFunctionNode, record)
    else if tag == CSTRUCTURE then CNode(CStructureNode, record)
    else if tag == CFIELD then CNode(CFieldNode, record)
    else if tag == CENUMERATION then CNode(CEnumerationNode, record)
    else if tag == CENUMERATOR then CNode(CEnumeratorNode, record)
    else if tag == CTYPEDEF then CNode(CTypedefNode, record)
    else if tag == CPARAMETER then CNode(CParameterNode, record)
    else if tag == CBASICTYPE then CNode(CBasicTypeNode, record)
    else BaseNode(record)
  }

  /** Reading back a record stored under a wrapper's tag gives that wrapper. */
  lemma WrapperForWrapperTag(record: nat, k: CNodeKind)
    requires record != 0
    ensures WrapperFor(record, WrapperTag(k)) == CNode(k, record)
  {
    match k
    case CVariableNode =>
    case CFunctionNode =>
    case CStructureNode =>
    case CFieldNode =>
    case CEnumerationNode =>
    case CEnumeratorNode =>
    case CTypedefNode =>
    case CParameterNode =>
    case CBasicTypeNode =>
  }
}

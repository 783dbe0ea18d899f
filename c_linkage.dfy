/** The C linkage of the persisted symbol index: an arena of records (each
    with its node-type tag, parent record and name), the ordered child list of
    every parent (the linkage's own list is its top-level name index), and the
    find-or-create, lookup and decoding operations over them. */
module CLinkageStore {
  import opened Wrappers
  import opened CNodeTypes

  /** The linkage id, defined outside this model. */
  const C_LINKAGE_ID: seq<char>

  /** One persisted record. `enumeration` is the record of the owning
      enumeration for an enumerator, and 0 for every other record. */
  datatype Record = Record(tag: nat, parent: nat, name: seq<char>, enumeration: nat)

  /** The store as this linkage sees it. Record ids start at 1 (0 is the
      "no node" id): record `id` is `records[id - 1]`. `pdom` identifies the
      store, so that bindings of another store can be told apart. */
  datatype Store = Store(
    pdom: nat,
    linkage: nat,
    records: seq<Record>,
    children: map<nat, seq<nat>>)

  /** The exceptions a creation can raise: an enumerator whose type cannot be
      obtained, or whose type is not an enumeration. */
  datatype Fault = TypeUnavailable | NotAnEnumeration

  predicate IsRecord(s: Store, id: nat) {
    1 <= id <= |s.records|
  }

  function TagOf(s: Store, id: nat): nat {
    if IsRecord(s, id) then s.records[id - 1].tag else 0
  }

  /** What the name index orders and searches by: name and tag. */
  function Key(s: Store, id: nat): (seq<char>, nat) {
    if IsRecord(s, id) then (s.records[id - 1].name, s.records[id - 1].tag) else ([], 0)
  }

  function ChildrenOf(s: Store, parent: nat): seq<nat> {
    if parent in s.children then s.children[parent] else []
  }

  /** Structures and enumerations can own members. */
  predicate IsMemberOwner(s: Store, id: nat) {
    TagOf(s, id) == CSTRUCTURE || TagOf(s, id) == CENUMERATION
  }

  /** The parents whose children the lookup searches. */
  predicate Searchable(s: Store, parent: nat) {
    parent == s.linkage || IsMemberOwner(s, parent)
  }

  // ------------------------------------------------------------------
  // Store invariant

  /** A child registered under `parent` is a binding record that names
      `parent` as its parent. */
  predicate IsChildOf(s: Store, parent: nat, child: nat) {
    IsRecord(s, child) && s.records[child - 1].parent == parent
    && IsBindingTag(s.records[child - 1].tag)
  }

  /** Every binding record is named and registered with its parent (no
      half-linked binding), and every enumerator points at an enumeration. */
  predicate RecordIsLinked(s: Store, id: nat)
    requires IsRecord(s, id)
  {
    var rec := s.records[id - 1];
    && (IsBindingTag(rec.tag) ==>
          IsRecord(s, rec.parent) && rec.name != [] && id in ChildrenOf(s, rec.parent))
    && (rec.tag == CENUMERATOR ==> TagOf(s, rec.enumeration) == CENUMERATION)
  }

  /** No two entries of a child list share name and tag. */
  predicate DistinctKeys(s: Store, ids: seq<nat>) {
    forall i, j :: 0 <= i < j < |ids| ==> Key(s, ids[i]) != Key(s, ids[j])
  }

  ghost predicate ValidStore(s: Store) {
    && IsRecord(s, s.linkage) && TagOf(s, s.linkage) == LINKAGE
    && (forall p :: p in s.children ==> IsRecord(s, p))
    && (forall p, c :: p in s.children && c in s.children[p] ==> IsChildOf(s, p, c))
    && (forall id :: IsRecord(s, id) ==> RecordIsLinked(s, id))
    && (forall p :: p in s.children && Searchable(s, p) ==> DistinctKeys(s, s.children[p]))
  }

  /** A binding of a store always carries a name. */
  predicate WellFormed(b: LiveBinding) {
    b.persisted.Some? ==> b.name != []
  }

  // ------------------------------------------------------------------
  // Collaborators: index search, parent resolution, anonymous naming

  predicate Matches(s: Store, id: nat, name: seq<char>, tags: set<nat>) {
    IsRecord(s, id) && s.records[id - 1].name == name && s.records[id - 1].tag in tags
  }

  /** The index search: the first of `ids` with that name and one of the tags. */
  function Find(s: Store, ids: seq<nat>, name: seq<char>, tags: set<nat>): (r: Option<nat>)
    ensures r.Some? ==> r.value in ids && Matches(s, r.value, name, tags)
    ensures r.None? <==> forall i :: 0 <= i < |ids| ==> !Matches(s, ids[i], name, tags)
    ensures r.Some? ==>
      exists i :: 0 <= i < |ids| && ids[i] == r.value
        && forall j :: 0 <= j < i ==> !Matches(s, ids[j], name, tags)
    decreases |ids|
  {
    if ids == [] then None
    else if Matches(s, ids[0], name, tags) then
      Some(ids[0])
    else
      var r := Find(s, ids[1..], name, tags);
      assert forall i :: 0 <= i < |ids[1..]| ==> ids[1..][i] == ids[i + 1];
      if r.Some? then
        var i :| 0 <= i < |ids[1..]| && ids[1..][i] == r.value
          && forall j :: 0 <= j < i ==> !Matches(s, ids[1..][j], name, tags);
        assert ids[i + 1] == r.value && forall j :: 0 <= j < i + 1 ==> !Matches(s, ids[j], name, tags);
        r
      else
        assert forall i :: 1 <= i < |ids| ==> !Matches(s, ids[i], name, tags);
        r
  }

  /** Where a live binding's owner resolves to, without creating anything. */
  function ResolveParent(s: Store, b: LiveBinding): (p: Option<nat>)
    ensures p.Some? ==> IsRecord(s, p.value) || p.value == s.linkage
  {
    match b.owner
    case LinkageScope => Some(s.linkage)
    case RecordScope(id) => if IsRecord(s, id) then Some(id) else None
    case Unresolvable => None
  }

  /** The anonymous-type adapter: a named binding is kept; an anonymous one
      gets its synthetic name, or is dropped when there is none. */
  function AnonymousAdapter(b: LiveBinding): (a: Option<LiveBinding>)
    ensures a.Some? ==> a.value.name != [] && a.value == b.(name := a.value.name)
    ensures b.name != [] ==> a == Some(b)
    ensures b.name == [] ==> (a.Some? <==> b.anonymousName.Some?)
  {
    if b.name != [] then Some(b)
    else match b.anonymousName
      case Some(n) => Some(b.(name := n))
      case None => None
  }

  // ------------------------------------------------------------------
  // adaptBinding

  predicate SameStore(s: Store, b: LiveBinding) {
    b.persisted.Some? && b.persisted.value.pdom == s.pdom
  }

  /** The binding a lookup searches for: a binding of another store as it is,
      any other binding after the anonymous-type adapter. */
  function SearchedBinding(b: LiveBinding): Option<LiveBinding> {
    if b.persisted.Some? then Some(b) else AnonymousAdapter(b)
  }

  /** The parent whose children a lookup for `q` searches, if any. */
  function SearchScope(s: Store, q: LiveBinding): Option<nat> {
    match ResolveParent(s, q)
    case Some(p) => if Searchable(s, p) then Some(p) else None
    case None => None
  }

  /** `id` is registered under `parent` with the name and tag of `q`. */
  predicate IndexedUnder(s: Store, parent: nat, id: nat, q: LiveBinding) {
    id in ChildrenOf(s, parent) && IsRecord(s, id) && Key(s, id) == (q.name, BindingType(q))
  }

  /** Lookup without creation. A binding of this store is its own answer;
      anything else is found exactly when its parent is searchable and has a
      child with its name and tag. */
  function AdaptBinding(s: Store, b: LiveBinding): (r: Option<nat>)
    ensures SameStore(s, b) ==> r == Some(b.persisted.value.record)
    ensures !SameStore(s, b) && r.Some? ==>
      && SearchedBinding(b).Some?
      && SearchScope(s, SearchedBinding(b).value).Some?
      && IndexedUnder(s, SearchScope(s, SearchedBinding(b).value).value, r.value, SearchedBinding(b).value)
    ensures !SameStore(s, b) && r.None? && SearchedBinding(b).Some?
              && SearchScope(s, SearchedBinding(b).value).Some? ==>
      forall id :: !IndexedUnder(s, SearchScope(s, SearchedBinding(b).value).value, id, SearchedBinding(b).value)
  {
    if SameStore(s, b) then Some(b.persisted.value.record)
    else
      var q := SearchedBinding(b);
      if q.None? then None
      else
        var a := q.value;
        match ResolveParent(s, a)
        case None => None
        case Some(p) =>
          if p == s.linkage then Find(s, ChildrenOf(s, s.linkage), a.name, {BindingType(a)})
          else if IsMemberOwner(s, p) then Find(s, ChildrenOf(s, p), a.name, {BindingType(a)})
          else None
  }

  /** Outside the linkage and its member owners nothing is ever found. */
  lemma NoLookupOutsideSearchableScopes(s: Store, b: LiveBinding, p: nat)
    requires !SameStore(s, b) && ResolveParent(s, b) == Some(p) && !Searchable(s, p)
    ensures AdaptBinding(s, b) == None
  {
    var q := SearchedBinding(b);
    if q.Some? {
      assert q.value.owner == b.owner;
      assert ResolveParent(s, q.value) == Some(p);
    }
  }

  /** The binding searched for has the kinds, and so the tag, and the owner of
      the binding handed in. */
  lemma SearchedBindingKeepsKindsAndOwner(b: LiveBinding)
    requires SearchedBinding(b).Some?
    ensures SearchedBinding(b).value.kinds == b.kinds
    ensures SearchedBinding(b).value.owner == b.owner
    ensures BindingType(SearchedBinding(b).value) == BindingType(b)
  {
  }

  /** What a lookup finds in a valid store is a binding record with the tag of
      the binding looked up. */
  lemma FoundRecordCarriesBindingType(s: Store, b: LiveBinding)
    requires ValidStore(s) && !SameStore(s, b) && AdaptBinding(s, b).Some?
    ensures IsRecord(s, AdaptBinding(s, b).value)
    ensures TagOf(s, AdaptBinding(s, b).value) == BindingType(b)
    ensures IsBindingTag(BindingType(b))
  {
    var r := AdaptBinding(s, b).value;
    var q := SearchedBinding(b).value;
    var p := SearchScope(s, q).value;
    SearchedBindingKeepsKindsAndOwner(b);
    assert IndexedUnder(s, p, r, q);
    assert p in s.children && r in s.children[p];
    assert IsChildOf(s, p, r);
    assert TagOf(s, r) == Key(s, r).1 == BindingType(q);
  }

  /** A binding of none of the persisted kinds is never found in a valid store. */
  lemma UnknownKindsAreNeverFound(s: Store, b: LiveBinding)
    requires ValidStore(s) && !SameStore(s, b) && BindingType(b) == 0
    ensures AdaptBinding(s, b) == None
  {
    if AdaptBinding(s, b).Some? {
      FoundRecordCarriesBindingType(s, b);
    }
  }

  // ------------------------------------------------------------------
  // addBinding

  /** What a find-or-create call does: return an existing record, refuse
      (return null), or create one record. */
  datatype AddDecision = Existing(record: nat) | Refused | Create(rec: Record)

  /** The conditions under which a call creates a record. */
  ghost predicate CreationAllowed(s: Store, b: LiveBinding) {
    && AdaptBinding(s, b).None?
    && ResolveParent(s, b).Some?
    && AnonymousAdapter(b).Some?
    && Parameter !in b.kinds
    && BindingType(b) != 0
    && (BindingType(b) == CFIELD ==> IsMemberOwner(s, ResolveParent(s, b).value))
    && (BindingType(b) == CENUMERATOR ==>
          && b.enumeration.Some?
          && Enumeration in b.enumeration.value.kinds
          && AdaptBinding(s, b.enumeration.value).Some?
          && TagOf(s, AdaptBinding(s, b.enumeration.value).value) == CENUMERATION)
  }

  /** The conditions under which a call raises: the lookup fails, the parent
      resolves, the adapter names the binding, it is no parameter, and it is
      an enumerator whose type is missing or not an enumeration. */
  ghost predicate CreationFails(s: Store, b: LiveBinding) {
    && AdaptBinding(s, b).None?
    && ResolveParent(s, b).Some?
    && AnonymousAdapter(b).Some?
    && Parameter !in b.kinds
    && BindingType(b) == CENUMERATOR
    && (b.enumeration.None? || Enumeration !in b.enumeration.value.kinds)
  }

  /** The record a creation allocates: tagged by BindingType, under the
      resolved parent, under the adapted name, an enumerator linked to the
      record its enumeration adapts to. */
  ghost predicate CreatesFor(s: Store, b: LiveBinding, rec: Record) {
    && AnonymousAdapter(b).Some?
    && ResolveParent(s, b) == Some(rec.parent)
    && rec.name == AnonymousAdapter(b).value.name
    && rec.tag == BindingType(b)
    && (if rec.tag == CENUMERATOR
        then b.enumeration.Some? && AdaptBinding(s, b.enumeration.value) == Some(rec.enumeration)
        else rec.enumeration == 0)
  }

  /** The kind dispatch of find-or-create, for a named binding `a` that is no
      parameter, under parent `p`: the record to allocate, none, or a fault.
      A record is allocated exactly for a persisted kind, a field only under
      a member owner and an enumerator only when its enumeration adapts to an
      enumeration record. */
  function Creation(s: Store, p: nat, a: LiveBinding): (c: Result<Option<Record>, Fault>)
    ensures (c.Ok? && c.value.Some?) <==>
      && BindingType(a) != 0
      && (BindingType(a) == CFIELD ==> IsMemberOwner(s, p))
      && (BindingType(a) == CENUMERATOR ==>
            && a.enumeration.Some?
            && Enumeration in a.enumeration.value.kinds
            && AdaptBinding(s, a.enumeration.value).Some?
            && TagOf(s, AdaptBinding(s, a.enumeration.value).value) == CENUMERATION)
    ensures c.Ok? && c.value.Some? ==>
      var rec := c.value.value;
      && rec.tag == BindingType(a) && rec.parent == p && rec.name == a.name
      && (if rec.tag == CENUMERATOR
          then a.enumeration.Some? && AdaptBinding(s, a.enumeration.value) == Some(rec.enumeration)
          else rec.enumeration == 0)
    ensures c.Err? <==>
      && BindingType(a) == CENUMERATOR
      && (a.enumeration.None? || Enumeration !in a.enumeration.value.kinds)
    ensures BindingType(a) == CENUMERATOR && a.enumeration.None? ==> c == Err(TypeUnavailable)
    ensures BindingType(a) == CENUMERATOR && a.enumeration.Some? && Enumeration !in a.enumeration.value.kinds ==>
      c == Err(NotAnEnumeration)
  {
    if Field in a.kinds then      // must be before Variable
      if IsMemberOwner(s, p) then Ok(Some(Record(CFIELD, p, a.name, 0))) else Ok(None)
    else if Variable in a.kinds then Ok(Some(Record(CVARIABLE, p, a.name, 0)))
    else if Function in a.kinds then Ok(Some(Record(CFUNCTION, p, a.name, 0)))
    else if Composite in a.kinds then Ok(Some(Record(CSTRUCTURE, p, a.name, 0)))
    else if Enumeration in a.kinds then Ok(Some(Record(CENUMERATION, p, a.name, 0)))
    else if Enumerator in a.kinds then
      match a.enumeration
      case None => Err(TypeUnavailable)
      case Some(e) =>
        if Enumeration !in e.kinds then Err(NotAnEnumeration)
        else
          var q := AdaptBinding(s, e);
          if q.Some? && TagOf(s, q.value) == CENUMERATION
          then Ok(Some(Record(CENUMERATOR, p, a.name, q.value)))
          else Ok(None)
    else if Typedef in a.kinds then Ok(Some(Record(CTYPEDEF, p, a.name, 0)))
    else Ok(None)
  }

  /** The find-or-create decision for a live binding. */
  function AddPlan(s: Store, b: LiveBinding): (d: Result<AddDecision, Fault>)
    ensures AdaptBinding(s, b).Some? <==> d.Ok? && d.value.Existing?
    ensures AdaptBinding(s, b).Some? ==> d == Ok(Existing(AdaptBinding(s, b).value))
    ensures (d.Ok? && d.value.Create?) <==> CreationAllowed(s, b)
    ensures d.Ok? && d.value.Create? ==> CreatesFor(s, b, d.value.rec)
    ensures d.Err? <==> CreationFails(s, b)
    ensures CreationFails(s, b) ==>
      d == Err(if b.enumeration.None? then TypeUnavailable else NotAnEnumeration)
  {
    match AdaptBinding(s, b)
    case Some(id) => Ok(Existing(id))
    case None =>
      match ResolveParent(s, b)
      case None => Ok(Refused)
      case Some(p) =>
        match AnonymousAdapter(b)
        case None => Ok(Refused)
        case Some(a) =>
          if Parameter in a.kinds then Ok(Refused)
          else match Creation(s, p, a)
            case Err(f) => Err(f)
            case Ok(None) => Ok(Refused)
            case Ok(Some(rec)) => Ok(Create(rec))
  }

  /** A parameter is never persisted: the call returns what the lookup found,
      or nothing. */
  lemma ParametersAreNeverCreated(s: Store, b: LiveBinding)
    requires Parameter in b.kinds
    ensures AddPlan(s, b) == (if AdaptBinding(s, b).Some? then Ok(Existing(AdaptBinding(s, b).value)) else Ok(Refused))
    ensures After(s, AddPlan(s, b)) == s
  {
  }

  /** A binding the lookup finds is returned as it is, and nothing is
      allocated or registered. */
  lemma FoundBindingIsReturnedUnchanged(s: Store, b: LiveBinding)
    requires AdaptBinding(s, b).Some?
    ensures Reply(s, AddPlan(s, b)) == Ok(AdaptBinding(s, b))
    ensures After(s, AddPlan(s, b)) == s
  {
  }

  /** An anonymous binding the adapter cannot name is refused (unless the
      lookup finds it), and the store is left as it is. */
  lemma UnnamedBindingIsRefused(s: Store, b: LiveBinding)
    requires AdaptBinding(s, b).None? && AnonymousAdapter(b).None?
    ensures AddPlan(s, b) == Ok(Refused) && After(s, AddPlan(s, b)) == s
  {
  }

  /** The state after creating `rec`: the record is appended to the arena and
      to its parent's child list. */
  function Commit(s: Store, rec: Record): (s': Store)
    ensures s'.pdom == s.pdom && s'.linkage == s.linkage
    ensures |s'.records| == |s.records| + 1
    ensures s'.records[..|s.records|] == s.records && s'.records[|s.records|] == rec
    ensures ChildrenOf(s', rec.parent) == ChildrenOf(s, rec.parent) + [|s'.records|]
    ensures forall p :: p != rec.parent ==> ChildrenOf(s', p) == ChildrenOf(s, p)
  {
    s.(records := s.records + [rec],
       children := s.children[rec.parent := ChildrenOf(s, rec.parent) + [|s.records| + 1]])
  }

  /** What the caller gets back. */
  function Reply(s: Store, d: Result<AddDecision, Fault>): Result<Option<nat>, Fault> {
    match d
    case Err(f) => Err(f)
    case Ok(Existing(id)) => Ok(Some(id))
    case Ok(Refused) => Ok(None)
    case Ok(Create(_)) => Ok(Some(|s.records| + 1))
  }

  /** The store after the call. */
  function After(s: Store, d: Result<AddDecision, Fault>): Store {
    if d.Ok? && d.value.Create? then Commit(s, d.value.rec) else s
  }

  /** A creation touches nothing but the new record and its parent's list,
      which gains exactly the new record at its end. */
  lemma CommitAddsOnlyTheNewChild(s: Store, rec: Record, p: nat, id: nat)
    ensures var s' := Commit(s, rec);
      && s'.pdom == s.pdom && s'.linkage == s.linkage
      && |s'.records| == |s.records| + 1 && s'.records[|s.records|] == rec
      && (IsRecord(s, id) ==> IsRecord(s', id) && s'.records[id - 1] == s.records[id - 1])
      && ChildrenOf(s', p) == (if p == rec.parent then ChildrenOf(s, p) + [|s.records| + 1] else ChildrenOf(s, p))
  {
  }

  /** Keys, tags and matches of existing records survive appending a record. */
  lemma AppendKeepsRecords(s: Store, s': Store, rec: Record)
    requires s'.records == s.records + [rec] && s'.linkage == s.linkage && s'.pdom == s.pdom
    ensures forall id :: IsRecord(s, id) ==> Key(s', id) == Key(s, id) && TagOf(s', id) == TagOf(s, id)
    ensures forall id, name, tags :: IsRecord(s, id) ==> Matches(s', id, name, tags) == Matches(s, id, name, tags)
    ensures forall p :: IsRecord(s, p) || p == s.linkage ==> Searchable(s', p) == Searchable(s, p)
  {
    forall id | IsRecord(s, id)
      ensures s'.records[id - 1] == s.records[id - 1]
    {
      assert s'.records[id - 1] == (s.records + [rec])[id - 1];
    }
  }

  /** Committing a named binding record whose key is new under a searchable
      parent keeps the store valid. */
  lemma CommitPreservesValid(s: Store, rec: Record)
    requires ValidStore(s)
    requires IsRecord(s, rec.parent) && IsBindingTag(rec.tag) && rec.name != []
    requires rec.tag == CENUMERATOR ==> TagOf(s, rec.enumeration) == CENUMERATION
    requires Searchable(s, rec.parent) ==>
      forall i :: 0 <= i < |ChildrenOf(s, rec.parent)| ==> Key(s, ChildrenOf(s, rec.parent)[i]) != (rec.name, rec.tag)
    ensures ValidStore(Commit(s, rec))
  {
    var s' := Commit(s, rec);
    AppendKeepsRecords(s, s', rec);
    CommitKeepsRecordsLinked(s, rec);
    CommitKeepsKeysDistinct(s, rec);
  }

  /** Committing keeps every child registered under its own parent and every
      binding record registered and named. */
  lemma CommitKeepsRecordsLinked(s: Store, rec: Record)
    requires ValidStore(s)
    requires IsRecord(s, rec.parent) && IsBindingTag(rec.tag) && rec.name != []
    requires rec.tag == CENUMERATOR ==> TagOf(s, rec.enumeration) == CENUMERATION
    ensures var s' := Commit(s, rec);
      && (forall p :: p in s'.children ==> IsRecord(s', p))
      && (forall p, c :: p in s'.children && c in s'.children[p] ==> IsChildOf(s', p, c))
      && (forall id :: IsRecord(s', id) ==> RecordIsLinked(s', id))
  {
    var s' := Commit(s, rec);
    var n := |s.records| + 1;
    AppendKeepsRecords(s, s', rec);
    assert s'.records[n - 1] == rec;
    forall p | p in s'.children ensures IsRecord(s', p) {
      if p != rec.parent { assert p in s.children; }
    }
    forall p, c | p in s'.children && c in s'.children[p] ensures IsChildOf(s', p, c) {
      if p == rec.parent && c == n {
      } else if p == rec.parent {
        assert c in ChildrenOf(s, p);
        assert p in s.children && IsChildOf(s, p, c);
        assert s'.records[c - 1] == s.records[c - 1];
      } else {
        assert p in s.children && c in s.children[p] && IsChildOf(s, p, c);
        assert s'.records[c - 1] == s.records[c - 1];
      }
    }
    forall id | IsRecord(s', id) ensures RecordIsLinked(s', id) {
      if id == n {
        assert n in ChildrenOf(s', rec.parent);
      } else {
        assert IsRecord(s, id) && RecordIsLinked(s, id);
        var old_ := s.records[id - 1];
        assert s'.records[id - 1] == old_;
        if IsBindingTag(old_.tag) {
          assert id in ChildrenOf(s, old_.parent);
          assert id in ChildrenOf(s', old_.parent);
        }
        if old_.tag == CENUMERATOR {
          assert IsRecord(s, old_.enumeration);
        }
      }
    }
  }

  /** Committing a key that is new under a searchable parent keeps the keys of
      every searchable parent's children distinct. */
  lemma CommitKeepsKeysDistinct(s: Store, rec: Record)
    requires ValidStore(s)
    requires IsRecord(s, rec.parent)
    requires Searchable(s, rec.parent) ==>
      forall i :: 0 <= i < |ChildrenOf(s, rec.parent)| ==> Key(s, ChildrenOf(s, rec.parent)[i]) != (rec.name, rec.tag)
    ensures var s' := Commit(s, rec);
      forall p :: p in s'.children && Searchable(s', p) ==> DistinctKeys(s', s'.children[p])
  {
    var s' := Commit(s, rec);
    var n := |s.records| + 1;
    AppendKeepsRecords(s, s', rec);
    assert s'.records[n - 1] == rec;
    assert Key(s', n) == (rec.name, rec.tag);
    forall p | p in s'.children && Searchable(s', p) ensures DistinctKeys(s', s'.children[p]) {
      assert IsRecord(s, p) || p == s.linkage;
      assert Searchable(s, p);
      if p == rec.parent {
        var l := ChildrenOf(s, p);
        assert s'.children[p] == l + [n];
        assert DistinctKeys(s, l) by {
          if p in s.children { } else { assert l == []; }
        }
        forall i | 0 <= i < |l| ensures IsRecord(s, l[i]) {
          assert p in s.children && l[i] in s.children[p];
          assert IsChildOf(s, p, l[i]);
        }
        forall i, j | 0 <= i < j < |l + [n]| ensures Key(s', (l + [n])[i]) != Key(s', (l + [n])[j]) {
          if j < |l| {
            assert (l + [n])[i] == l[i] && (l + [n])[j] == l[j];
          } else {
            assert (l + [n])[i] == l[i] && (l + [n])[j] == n;
          }
        }
      } else {
        assert p in s.children && s'.children[p] == s.children[p];
        forall i | 0 <= i < |s.children[p]| ensures IsRecord(s, s.children[p][i]) {
          assert IsChildOf(s, p, s.children[p][i]);
        }
      }
    }
  }

  /** The looked-up and the created binding agree: for a well-formed binding,
      what creation names and tags is exactly what the lookup searched for. */
  lemma CreationSearchedItsOwnKey(s: Store, b: LiveBinding, rec: Record)
    requires ValidStore(s) && WellFormed(b)
    requires AddPlan(s, b) == Ok(Create(rec))
    ensures !SameStore(s, b)
    ensures SearchedBinding(b) == AnonymousAdapter(b)
    ensures SearchScope(s, AnonymousAdapter(b).value) == (if Searchable(s, rec.parent) then Some(rec.parent) else None)
    ensures (AnonymousAdapter(b).value.name, BindingType(AnonymousAdapter(b).value)) == (rec.name, rec.tag)
  {
    var a := AnonymousAdapter(b).value;
    assert a.owner == b.owner && a.kinds == b.kinds;
  }

  /** Every find-or-create call keeps the store valid: the linkage record
      stays, every registered child stays a binding record of its parent,
      every binding record stays named and registered, every enumerator stays
      linked to an enumeration, and keys under searchable parents stay
      distinct. */
  lemma AddPreservesValid(s: Store, b: LiveBinding)
    requires ValidStore(s) && WellFormed(b)
    ensures ValidStore(After(s, AddPlan(s, b)))
  {
    var d := AddPlan(s, b);
    if d.Ok? && d.value.Create? {
      var rec := d.value.rec;
      CreationSearchedItsOwnKey(s, b, rec);
      var a := AnonymousAdapter(b).value;
      assert ResolveParent(s, b) == Some(rec.parent);
      assert IsRecord(s, rec.parent) by {
        if rec.parent == s.linkage { } else { }
      }
      if Searchable(s, rec.parent) {
        forall i | 0 <= i < |ChildrenOf(s, rec.parent)|
          ensures Key(s, ChildrenOf(s, rec.parent)[i]) != (rec.name, rec.tag)
        {
          var c := ChildrenOf(s, rec.parent)[i];
          assert !IndexedUnder(s, rec.parent, c, a);
        }
      }
      if rec.tag == CENUMERATOR {
        assert TagOf(s, rec.enumeration) == CENUMERATION;
      }
      CommitPreservesValid(s, rec);
    }
  }

  /** Idempotence: after a call that returned a record, by finding it or by
      creating it under a parent the lookup searches, an identical call finds
      that same record and changes nothing. (Under any other parent the lookup
      never finds anything, so each call creates a new record.) */
  lemma AddIsIdempotent(s: Store, b: LiveBinding)
    requires ValidStore(s) && WellFormed(b)
    requires var d := AddPlan(s, b); d.Ok? && d.value.Create? ==> Searchable(s, d.value.rec.parent)
    ensures var d := AddPlan(s, b); var s' := After(s, d);
      Reply(s', AddPlan(s', b)) == Reply(s, d) && After(s', AddPlan(s', b)) == s'
  {
    var d := AddPlan(s, b);
    if d.Ok? && d.value.Create? {
      var rec := d.value.rec;
      var s' := Commit(s, rec);
      var n := |s.records| + 1;
      CreationSearchedItsOwnKey(s, b, rec);
      var a := AnonymousAdapter(b).value;
      AppendKeepsRecords(s, s', rec);
      assert !SameStore(s', b);
      assert SearchedBinding(b) == Some(a);
      assert a.owner == b.owner;
      assert ResolveParent(s', a) == Some(rec.parent);
      assert Searchable(s', rec.parent);
      var l := ChildrenOf(s, rec.parent);
      assert ChildrenOf(s', rec.parent) == l + [n];
      forall i | 0 <= i < |l| ensures !Matches(s', (l + [n])[i], a.name, {BindingType(a)}) {
        assert (l + [n])[i] == l[i];
        assert !IndexedUnder(s, rec.parent, l[i], a);
        assert rec.parent in s.children && l[i] in s.children[rec.parent];
        assert IsChildOf(s, rec.parent, l[i]);
      }
      assert s'.records[n - 1] == rec;
      assert Matches(s', (l + [n])[|l|], a.name, {BindingType(a)});
      var found := Find(s', l + [n], a.name, {BindingType(a)});
      assert found == Some(n);
      assert AdaptBinding(s', b) == Some(n);
    }
  }

  // ------------------------------------------------------------------
  // addBinding(IASTName)

  /** A name reference as the parser hands it over: its characters (`None`
      for null) and the binding it resolves to (`None` for null). */
  datatype AstName = AstName(chars: Option<seq<char>>, resolved: Option<LiveBinding>)

  /** The guards of the name overload: no name, no characters, no binding, a
      problem binding or a parameter all give null without touching the store;
      everything else is the live-binding find-or-create. */
  function NamePlan(s: Store, n: Option<AstName>): (d: Result<AddDecision, Fault>)
    ensures (|| n.None? || n.value.chars.None? || n.value.resolved.None?
             || Problem in n.value.resolved.value.kinds
             || Parameter in n.value.resolved.value.kinds) ==> d == Ok(Refused)
    ensures (&& n.Some? && n.value.chars.Some? && n.value.resolved.Some?
             && Problem !in n.value.resolved.value.kinds
             && Parameter !in n.value.resolved.value.kinds) ==> d == AddPlan(s, n.value.resolved.value)
  {
    if n.None? then Ok(Refused)
    else if n.value.chars.None? then Ok(Refused)
    else if n.value.resolved.None? || Problem in n.value.resolved.value.kinds then Ok(Refused)
    else if Parameter in n.value.resolved.value.kinds then Ok(Refused)
    else AddPlan(s, n.value.resolved.value)
  }

  // ------------------------------------------------------------------
  // addType

  /** A type handed to the linkage: a C basic type, a type that is a binding,
      or any other type (an array or a function type, for example). */
  datatype CType = BasicType | TypeBinding(b: LiveBinding) | OtherType

  /** What adding a type gives: null, a record, or handing the type over to
      the generic linkage layer. */
  datatype TypeOutcome = NoType | TypeNode(record: nat) | Delegated

  /** Appending a record that is not a binding keeps the store valid. */
  lemma AppendNonBindingPreservesValid(s: Store, rec: Record)
    requires ValidStore(s) && !IsBindingTag(rec.tag)
    ensures ValidStore(s.(records := s.records + [rec]))
  {
    var s' := s.(records := s.records + [rec]);
    var n := |s.records| + 1;
    AppendKeepsRecords(s, s', rec);
    assert s'.records[n - 1] == rec;
    forall p, c | p in s'.children && c in s'.children[p] ensures IsChildOf(s', p, c) {
      assert IsChildOf(s, p, c);
      assert s'.records[c - 1] == s.records[c - 1];
    }
    forall id | IsRecord(s', id) ensures RecordIsLinked(s', id) {
      if id != n {
        assert RecordIsLinked(s, id);
        assert s'.records[id - 1] == s.records[id - 1];
      }
    }
    forall p | p in s'.children && Searchable(s', p) ensures DistinctKeys(s', s'.children[p]) {
      assert Searchable(s, p) && DistinctKeys(s, s.children[p]);
      forall i | 0 <= i < |s.children[p]| ensures IsRecord(s, s.children[p][i]) {
        assert IsChildOf(s, p, s.children[p][i]);
      }
    }
  }

  // ------------------------------------------------------------------
  // getNode, resolveBinding

  /** Decoding a record: 0 is no node; any other record is read back as the
      wrapper of its stored tag, or handed to the generic layer when no C
      wrapper has that tag. */
  function GetNode(s: Store, record: nat): (n: Node)
    requires record == 0 || IsRecord(s, record)
    ensures n == NoNode <==> record == 0
    ensures n.CNode? ==> n.record == record && WrapperTag(n.kind) == TagOf(s, record)
    ensures n.BaseNode? ==> n.record == record && forall k :: WrapperTag(k) != TagOf(s, record)
  {
    if record == 0 then NoNode else WrapperFor(record, TagOf(s, record))
  }

  /** Every registered binding reads back as its C wrapper, and the linkage's
      own record is decoded by the generic layer. */
  lemma RegisteredBindingsDecodeAsCWrappers(s: Store, p: nat, id: nat)
    requires ValidStore(s) && p in s.children && id in s.children[p]
    ensures GetNode(s, id).CNode? && GetNode(s, id).record == id
    ensures GetNode(s, s.linkage) == BaseNode(s.linkage)
  {
    assert IsChildOf(s, p, id);
    var t := TagOf(s, id);
    assert IsBindingTag(t);
    var k := if t == CVARIABLE then CVariableNode
             else if t == CFUNCTION then CFunctionNode
             else if t == CSTRUCTURE then CStructureNode
             else if t == CFIELD then CFieldNode
             else if t == CENUMERATION then CEnumerationNode
             else if t == CENUMERATOR then CEnumeratorNode
             else CTypedefNode;
    assert WrapperTag(k) == t;
    WrapperForWrapperTag(id, k);
  }

  /** Resolving a name reference: search the top-level index by name among the
      tags its syntactic role allows; a role outside those is not searched. */
  function ResolveBinding(s: Store, role: NameRole, name: seq<char>): (r: Option<nat>)
    ensures role == OtherRole ==> r == None
    ensures r.Some? ==>
      && r.value in ChildrenOf(s, s.linkage)
      && IsRecord(s, r.value)
      && Key(s, r.value).0 == name
      && Key(s, r.value).1 in CandidateTags(role).value
    ensures r.None? && role != OtherRole ==>
      forall id :: id in ChildrenOf(s, s.linkage) && IsRecord(s, id) && Key(s, id).0 == name
        ==> Key(s, id).1 !in CandidateTags(role).value
  {
    match CandidateTags(role)
    case None => None
    case Some(tags) => Find(s, ChildrenOf(s, s.linkage), name, tags)
  }

  // ------------------------------------------------------------------
  // The linkage object

  class PdomCLinkage {
    const pdom: nat
    const linkage: nat
    var records: seq<Record>
    var children: map<nat, seq<nat>>

    function State(): Store
      reads this
    {
      Store(pdom, linkage, records, children)
    }

    ghost predicate Valid()
      reads this
    {
      ValidStore(State())
    }

    /** A new C linkage in store `pdom`: its own record, named by the linkage
        id, and an empty index. */
    constructor (pdom: nat)
      ensures Valid() && this.pdom == pdom && linkage == 1
      ensures records == [Record(LINKAGE, 0, C_LINKAGE_ID, 0)] && children == map[]
    {
      this.pdom := pdom;
      linkage := 1;
      records := [Record(LINKAGE, 0, C_LINKAGE_ID, 0)];
      children := map[];
    }

    /** Record allocation by a binding constructor. */
    method Allocate(rec: Record) returns (id: nat)
      modifies this
      ensures records == old(records) + [rec] && children == old(children)
      ensures id == |old(records)| + 1
    {
      records := records + [rec];
      id := |records|;
    }

    /** Registration of a new binding with its parent. */
    method AddChild(parent: nat, child: nat)
      modifies this
      ensures records == old(records)
      ensures children == old(children)[parent := ChildrenOf(old(State()), parent) + [child]]
    {
      children := children[parent := ChildrenOf(State(), parent) + [child]];
    }

    /** The creation step: allocate `rec` and register it with its parent. */
    method Register(rec: Record) returns (id: nat)
      modifies this
      ensures State() == Commit(old(State()), rec)
      ensures id == |old(records)| + 1
    {
      id := Allocate(rec);
      AddChild(rec.parent, id);
    }

    /** Find-or-create for a live binding. */
    method AddBinding(b: LiveBinding) returns (r: Result<Option<nat>, Fault>)
      requires Valid() && WellFormed(b)
      modifies this
      ensures Valid()
      ensures r == Reply(old(State()), AddPlan(old(State()), b))
      ensures State() == After(old(State()), AddPlan(old(State()), b))
    {
      ghost var s0 := State();
      ghost var plan := AddPlan(s0, b);
      AddPreservesValid(s0, b);
      var pdomBinding := AdaptBinding(State(), b);
      if pdomBinding.Some? {
        assert plan == Ok(Existing(pdomBinding.value));
        return Ok(pdomBinding);
      }
      var parent := ResolveParent(State(), b);
      if parent.None? {
        assert plan == Ok(Refused);
        return Ok(None);
      }
      var adapted := AnonymousAdapter(b);
      if adapted.None? || Parameter in adapted.value.kinds {
        assert plan == Ok(Refused);
        return Ok(None);    // skip parameters
      }
      var a := adapted.value;
      var p := parent.value;
      var created := NewBinding(p, a);
      match created {
        case Err(f) =>
          return Err(f);
        case Ok(None) =>
          return Ok(None);
        case Ok(Some(rec)) =>
          assert plan == Ok(Create(rec));
          var id := Register(rec);
          return Ok(Some(id));
      }
    }

    /** The kind dispatch: which `PDOMC*` record to construct, if any. */
    method NewBinding(p: nat, a: LiveBinding) returns (c: Result<Option<Record>, Fault>)
      ensures c == Creation(State(), p, a)
    {
      if Field in a.kinds {   // must be before Variable
        if IsMemberOwner(State(), p) {
          return Ok(Some(Record(CFIELD, p, a.name, 0)));
        }
        return Ok(None);
      } else if Variable in a.kinds {
        return Ok(Some(Record(CVARIABLE, p, a.name, 0)));
      } else if Function in a.kinds {
        return Ok(Some(Record(CFUNCTION, p, a.name, 0)));
      } else if Composite in a.kinds {
        return Ok(Some(Record(CSTRUCTURE, p, a.name, 0)));
      } else if Enumeration in a.kinds {
        return Ok(Some(Record(CENUMERATION, p, a.name, 0)));
      } else if Enumerator in a.kinds {
        if a.enumeration.None? {
          return Err(TypeUnavailable);
        }
        var e := a.enumeration.value;
        if Enumeration !in e.kinds {
          return Err(NotAnEnumeration);
        }
        var pdomEnumeration := AdaptBinding(State(), e);
        if pdomEnumeration.Some? && TagOf(State(), pdomEnumeration.value) == CENUMERATION {
          return Ok(Some(Record(CENUMERATOR, p, a.name, pdomEnumeration.value)));
        }
        return Ok(None);
      } else if Typedef in a.kinds {
        return Ok(Some(Record(CTYPEDEF, p, a.name, 0)));
      }
      return Ok(None);
    }

    /** Find-or-create for a name reference. */
    method AddName(n: Option<AstName>) returns (r: Result<Option<nat>, Fault>)
      requires Valid()
      requires n.Some? && n.value.resolved.Some? ==> WellFormed(n.value.resolved.value)
      modifies this
      ensures Valid()
      ensures r == Reply(old(State()), NamePlan(old(State()), n))
      ensures State() == After(old(State()), NamePlan(old(State()), n))
    {
      if n.None? {
        return Ok(None);
      }
      if n.value.chars.None? {
        return Ok(None);
      }
      var binding := n.value.resolved;
      if binding.None? || Problem in binding.value.kinds {
        return Ok(None);   // can't tell what it is
      }
      if Parameter in binding.value.kinds {
        return Ok(None);   // skip parameters
      }
      r := AddBinding(binding.value);
    }

    /** Adding a type: null for a problem binding, a new record for a basic
        type (allocated but not registered with any parent), find-or-create
        for a type that is a binding, and the generic layer for the rest. */
    method AddType(parent: nat, t: CType) returns (r: Result<TypeOutcome, Fault>)
      requires Valid()
      requires t.TypeBinding? ==> WellFormed(t.b)
      modifies this
      ensures Valid()
      ensures t.TypeBinding? && Problem in t.b.kinds ==> r == Ok(NoType) && State() == old(State())
      ensures t.BasicType? ==>
        && r == Ok(TypeNode(|old(records)| + 1))
        && records == old(records) + [Record(CBASICTYPE, parent, [], 0)]
        && children == old(children)
      ensures t.TypeBinding? && Problem !in t.b.kinds ==>
        && State() == After(old(State()), AddPlan(old(State()), t.b))
        && r == match Reply(old(State()), AddPlan(old(State()), t.b))
                case Err(f) => Err(f)
                case Ok(Some(id)) => Ok(TypeNode(id))
                case Ok(None) => Ok(NoType)
      ensures t.OtherType? ==> r == Ok(Delegated) && State() == old(State())
    {
      match t
      case TypeBinding(b) =>
        if Problem in b.kinds {
          return Ok(NoType);
        }
        var added := AddBinding(b);
        match added {
          case Err(f) => r := Err(f);
          case Ok(Some(id)) => r := Ok(TypeNode(id));
          case Ok(None) => r := Ok(NoType);
        }
      case BasicType =>
        AppendNonBindingPreservesValid(State(), Record(CBASICTYPE, parent, [], 0));
        var id := Allocate(Record(CBASICTYPE, parent, [], 0));
        r := Ok(TypeNode(id));
      case OtherType =>
        r := Ok(Delegated);
    }
  }
}

/**
 * Approval scopes as JSON trees: the canonical form that `isScopeEqual` compares, and the
 * equivalence it decides. `text` is the conversion to a string that sorting applies to entries.
 */
module Scope {
  import opened Common
  import opened TextOrder

  /** A field whose value is `None` is present but undefined. */
  datatype Field = Field(key: string, value: Option<Json>)

  datatype Json = Null | Bool(b: bool) | Num(n: real) | Str(s: string) | Arr(items: seq<Json>) | Obj(fields: seq<Field>)

  type Text = Json -> string

  /** Assigning this key sets an object's prototype and creates no field. */
  const PROTO: string := "__proto__"

  /** The value under a key, if it is defined. */
  function Get(fields: seq<Field>, key: string): (r: Option<Json>)
    ensures r.Some? ==> exists i | 0 <= i < |fields| :: fields[i] == Field(key, r)
  {
    if fields == [] then None
    else if fields[0].key == key then fields[0].value
    else Get(fields[1..], key)
  }

  function Keys(fields: seq<Field>): seq<string> { seq(|fields|, i requires 0 <= i < |fields| => fields[i].key) }

  predicate IsCommit(fields: seq<Field>) { Get(fields, "kind") == Some(Str("COMMIT")) }

  function Dedupe<T(==)>(xs: seq<T>, comparable: T -> bool): seq<T> {
    if xs == [] then []
    else
      var front := Dedupe(xs[..|xs| - 1], comparable);
      if comparable(xs[|xs| - 1]) && xs[|xs| - 1] in front then front else front + [xs[|xs| - 1]]
  }

  /** A `Set` compares objects and arrays by identity, so only the other values can repeat. */
  function IsPrimitive(): Json -> bool { (j: Json) => !j.Arr? && !j.Obj? }

  function CanonicalPaths(text: Text, paths: seq<Json>): seq<Json> { SortByText(Dedupe(paths, IsPrimitive()), text) }

  function Self(): string -> string { k => k }

  function Anything(): string -> bool { k => true }

  /** The keys the canonical object has, sorted. */
  function CanonicalKeys(fields: seq<Field>): (keys: seq<string>)
    ensures forall k | k in keys :: Get(fields, k).Some?
  {
    DistinctKeysAre(fields);
    SortSorts(DistinctKeys(fields), Self());
    SortByText(DistinctKeys(fields), Self())
  }

  function DistinctKeys(fields: seq<Field>): seq<string> { Dedupe(Defined(fields, Keys(fields)), Anything()) }

  lemma DistinctKeysAre(fields: seq<Field>)
    ensures forall k :: k in DistinctKeys(fields) <==> k != PROTO && Get(fields, k).Some?
  {
    DedupeMembers(Defined(fields, Keys(fields)), Anything());
    forall k | Get(fields, k).Some? ensures k in Keys(fields) {
      var i :| 0 <= i < |fields| && fields[i] == Field(k, Get(fields, k));
      assert Keys(fields)[i] == k;
    }
  }

  function Defined(fields: seq<Field>, keys: seq<string>): (r: seq<string>)
    ensures forall k :: k in r <==> k in keys && k != PROTO && Get(fields, k).Some?
  {
    if keys == [] then []
    else
      var k := keys[|keys| - 1];
      assert forall x :: x in keys <==> x in keys[..|keys| - 1] || x == k;
      Defined(fields, keys[..|keys| - 1]) + if k != PROTO && Get(fields, k).Some? then [k] else []
  }

  lemma {:induction false} DedupeMembers<T>(xs: seq<T>, comparable: T -> bool)
    ensures forall x :: x in Dedupe(xs, comparable) <==> x in xs
  {
    if xs != [] {
      DedupeMembers(xs[..|xs| - 1], comparable);
      assert xs == xs[..|xs| - 1] + [xs[|xs| - 1]];
    }
  }

  function Canonicalize(text: Text, scope: Json): Json
    decreases scope, 1
  {
    match scope
    case Arr(items) => Arr(seq(|items|, i requires 0 <= i < |items| => Canonicalize(text, items[i])))
    case Obj(fields) =>
      var keys := CanonicalKeys(fields);
      Obj(seq(|keys|, i requires 0 <= i < |keys| =>
        assert keys[i] in keys; Field(keys[i], Some(CanonicalValue(text, fields, keys[i])))))
    case _ => scope
  }

  function CanonicalValue(text: Text, fields: seq<Field>, k: string): Json
    requires Get(fields, k).Some?
    decreases Obj(fields), 0
  {
    GetIsPart(fields, k);
    var v := Get(fields, k).value;
    if IsCommit(fields) && k == "paths" && v.Arr? then Arr(CanonicalPaths(text, v.items)) else Canonicalize(text, v)
  }

  lemma GetIsPart(fields: seq<Field>, key: string)
    requires Get(fields, key).Some?
    ensures Get(fields, key).value < Obj(fields)
  {
    var i :| 0 <= i < |fields| && fields[i] == Field(key, Get(fields, key));
    assert fields[i] < Obj(fields);
  }

  predicate IsScopeEqual(text: Text, persisted: Json, requested: Json) {
    Canonicalize(text, persisted) == Canonicalize(text, requested)
  }

  datatype GateScopeError = NotAnObject | WrongKind | MissingPaths | MissingMessage | MissingCommitSha
    | MissingRemote | MissingBranch

  predicate HasString(fields: seq<Field>, key: string) { Get(fields, key).Some? && Get(fields, key).value.Str? }

  /** `validateApprovalGateScope`; an array has no named fields. */
  function ValidateGateScope(gateKind: string, scope: Json): Option<GateScopeError> {
    if !scope.Arr? && !scope.Obj? then Some(NotAnObject)
    else
      var fields := if scope.Obj? then scope.fields else [];
      if gateKind == "COMMIT" then
        if !IsCommit(fields) then Some(WrongKind)
        else if Get(fields, "paths").None? || !Get(fields, "paths").value.Arr? then Some(MissingPaths)
        else if !HasString(fields, "message") then Some(MissingMessage)
        else None
      else if gateKind == "PUSH" then
        if Get(fields, "kind") != Some(Str("PUSH")) then Some(WrongKind)
        else if !HasString(fields, "commitSha") then Some(MissingCommitSha)
        else if !HasString(fields, "remote") then Some(MissingRemote)
        else if !HasString(fields, "branch") then Some(MissingBranch)
        else None
      else None
  }

  // ---------------------------------------------------------------- what equality decides

  /** Entry for entry the same once repeated values are dropped, up to the order of entries with different texts. */
  ghost predicate SamePaths(text: Text, p: seq<Json>, q: seq<Json>) {
    SameBuckets(Dedupe(p, IsPrimitive()), Dedupe(q, IsPrimitive()), text)
  }

  /** Equal up to key order and undefined fields, and up to `SamePaths` on the paths of COMMIT objects, at any depth. */
  ghost predicate Equivalent(text: Text, a: Json, b: Json)
    decreases a, 2
  {
    if a.Arr? && b.Arr? then
      |a.items| == |b.items| && forall i | 0 <= i < |a.items| :: Equivalent(text, a.items[i], b.items[i])
    else if a.Obj? && b.Obj? then EquivalentFields(text, a.fields, b.fields)
    else a == b
  }

  ghost predicate EquivalentFields(text: Text, f: seq<Field>, g: seq<Field>)
    decreases Obj(f), 1
  {
    forall k | k != PROTO ::
      (Get(f, k).Some? <==> Get(g, k).Some?) && (Get(f, k).Some? && Get(g, k).Some? ==> EquivalentAt(text, f, g, k))
  }

  ghost predicate EquivalentAt(text: Text, f: seq<Field>, g: seq<Field>, k: string)
    requires Get(f, k).Some? && Get(g, k).Some?
    decreases Obj(f), 0
  {
    GetIsPart(f, k);
    var v, w := Get(f, k).value, Get(g, k).value;
    if k == "paths" && IsCommit(f) && IsCommit(g) && v.Arr? && w.Arr? then SamePaths(text, v.items, w.items)
    else Equivalent(text, v, w)
  }

  ghost predicate NoRepeat<T(!new)>(xs: seq<T>, comparable: T -> bool) {
    forall x | comparable(x) :: multiset(xs)[x] <= 1
  }

  lemma {:induction false} DedupeLeavesNoRepeat<T(!new)>(xs: seq<T>, comparable: T -> bool)
    ensures NoRepeat(Dedupe(xs, comparable), comparable)
  {
    if xs != [] {
      DedupeLeavesNoRepeat(xs[..|xs| - 1], comparable);
    }
  }

  lemma {:induction false} DedupeOfNoRepeat<T(!new)>(xs: seq<T>, comparable: T -> bool)
    requires NoRepeat(xs, comparable)
    ensures Dedupe(xs, comparable) == xs
  {
    if xs != [] {
      var front, last := xs[..|xs| - 1], xs[|xs| - 1];
      assert xs == front + [last];
      assert forall x :: multiset(xs)[x] == multiset(front)[x] + if x == last then 1 else 0;
      DedupeOfNoRepeat(front, comparable);
    }
  }

  lemma CanonicalKeysAre(fields: seq<Field>, k: string)
    ensures k in CanonicalKeys(fields) <==> k != PROTO && Get(fields, k).Some?
  {
    DistinctKeysAre(fields);
    SortSorts(DistinctKeys(fields), Self());
  }

  lemma NoRepeatIsDistinct<T(!new)>(xs: seq<T>, comparable: T -> bool)
    requires NoRepeat(xs, comparable) && forall x | x in xs :: comparable(x)
    ensures forall i, j | 0 <= i < j < |xs| :: xs[i] != xs[j]
  {
    forall i, j | 0 <= i < j < |xs| ensures xs[i] != xs[j] {
      assert xs == xs[..j] + [xs[j]] + xs[j + 1..];
      assert multiset(xs) == multiset(xs[..j]) + multiset{xs[j]} + multiset(xs[j + 1..]);
      assert xs[i] in xs && comparable(xs[i]);
      assert xs[..j][i] in multiset(xs[..j]);
    }
  }

  lemma DistinctKeysAreDistinct(fields: seq<Field>)
    ensures var keys := DistinctKeys(fields); forall i, j | 0 <= i < j < |keys| :: keys[i] != keys[j]
  {
    DedupeLeavesNoRepeat(Defined(fields, Keys(fields)), Anything());
    NoRepeatIsDistinct(DistinctKeys(fields), Anything());
  }

  lemma CanonicalKeysAreDistinct(fields: seq<Field>)
    ensures var keys := CanonicalKeys(fields); forall i, j | 0 <= i < j < |keys| :: keys[i] != keys[j]
  {
    DedupeLeavesNoRepeat(Defined(fields, Keys(fields)), Anything());
    SortSorts(DistinctKeys(fields), Self());
    NoRepeatIsDistinct(CanonicalKeys(fields), Anything());
  }

  predicate SameKeys(f: seq<Field>, g: seq<Field>) { CanonicalKeys(f) == CanonicalKeys(g) }

  ghost predicate SameDefined(f: seq<Field>, g: seq<Field>) {
    forall k | k != PROTO :: Get(f, k).Some? <==> Get(g, k).Some?
  }

  lemma SameDefinedIff(f: seq<Field>, g: seq<Field>)
    ensures SameDefined(f, g) <==> (forall k :: k in DistinctKeys(f) <==> k in DistinctKeys(g))
  {
    DistinctKeysAre(f);
    DistinctKeysAre(g);
    if SameDefined(f, g) {
      forall k ensures k in DistinctKeys(f) <==> k in DistinctKeys(g) {
        if k != PROTO { assert Get(f, k).Some? <==> Get(g, k).Some?; }
      }
    }
    if forall k :: k in DistinctKeys(f) <==> k in DistinctKeys(g) {
      forall k | k != PROTO ensures Get(f, k).Some? <==> Get(g, k).Some? {
        assert k in DistinctKeys(f) <==> k in DistinctKeys(g);
      }
    }
  }

  /** The canonical key list depends on nothing but which keys are defined. */
  lemma SameKeysIff(f: seq<Field>, g: seq<Field>)
    ensures SameKeys(f, g) <==> SameDefined(f, g)
  {
    DistinctKeysAreDistinct(f);
    DistinctKeysAreDistinct(g);
    SortOfDistinctIff(DistinctKeys(f), DistinctKeys(g), Self());
    SameDefinedIff(f, g);
  }

  lemma CanonicalString(text: Text, v: Json, s: string)
    ensures Canonicalize(text, v) == Str(s) <==> v == Str(s)
  {
  }

  /** One field: the canonical values agree exactly when the values are equivalent. */
  lemma ValueIff(text: Text, f: seq<Field>, g: seq<Field>, k: string)
    requires Get(f, k).Some? && Get(g, k).Some? && IsCommit(f) == IsCommit(g)
    requires IsScopeEqual(text, Get(f, k).value, Get(g, k).value) <==>
      Equivalent(text, Get(f, k).value, Get(g, k).value)
    ensures CanonicalValue(text, f, k) == CanonicalValue(text, g, k) <==> EquivalentAt(text, f, g, k)
  {
    var v, w := Get(f, k).value, Get(g, k).value;
    if IsCommit(f) && k == "paths" && v.Arr? && w.Arr? {
      SortIsSameIff(Dedupe(v.items, IsPrimitive()), Dedupe(w.items, IsPrimitive()), text);
    }
  }

  ghost predicate SameValues(text: Text, f: seq<Field>, g: seq<Field>) {
    forall k | k in CanonicalKeys(f) :: Get(g, k).Some? && CanonicalValue(text, f, k) == CanonicalValue(text, g, k)
  }

  lemma ObjectIff(text: Text, f: seq<Field>, g: seq<Field>)
    ensures IsScopeEqual(text, Obj(f), Obj(g)) <==> SameKeys(f, g) && SameValues(text, f, g)
  {
    var cf, cg := Canonicalize(text, Obj(f)).fields, Canonicalize(text, Obj(g)).fields;
    var kf, kg := CanonicalKeys(f), CanonicalKeys(g);
    if cf == cg {
      assert |kf| == |cf| == |cg| == |kg|;
      forall i | 0 <= i < |kf|
        ensures kf[i] == kg[i] && kg[i] in kg && CanonicalValue(text, f, kf[i]) == CanonicalValue(text, g, kg[i])
      {
        assert cf[i] == cg[i];
      }
      assert kf == kg;
    }
    if SameKeys(f, g) && SameValues(text, f, g) {
      forall i | 0 <= i < |kf| ensures cf[i] == cg[i] { assert kf[i] in kf; }
      assert cf == cg;
    }
  }

  lemma CommitHasKind(fields: seq<Field>)
    ensures IsCommit(fields) ==> "kind" in CanonicalKeys(fields)
  {
    CanonicalKeysAre(fields, "kind");
  }

  /** Equal objects agree on being a COMMIT scope. */
  lemma EqualKinds(text: Text, f: seq<Field>, g: seq<Field>)
    requires IsScopeEqual(text, Obj(f), Obj(g))
    ensures IsCommit(f) == IsCommit(g)
  {
    ObjectIff(text, f, g);
    CommitHasKind(f);
    CommitHasKind(g);
    if "kind" in CanonicalKeys(f) {
      assert CanonicalValue(text, f, "kind") == CanonicalValue(text, g, "kind");
      CanonicalString(text, Get(f, "kind").value, "COMMIT");
      CanonicalString(text, Get(g, "kind").value, "COMMIT");
    }
  }

  lemma EquivalentKinds(text: Text, f: seq<Field>, g: seq<Field>)
    requires EquivalentFields(text, f, g)
    ensures IsCommit(f) == IsCommit(g)
  {
    var kind := "kind";
    assert kind != PROTO && kind != "paths" by { assert |kind| == 4; }
    assert Get(f, kind).Some? <==> Get(g, kind).Some?;
    if Get(f, kind).Some? {
      assert EquivalentAt(text, f, g, kind);
      assert Equivalent(text, Get(f, kind).value, Get(g, kind).value);
    }
  }

  lemma {:induction false} EqualFields(text: Text, f: seq<Field>, g: seq<Field>)
    requires IsCommit(f) == IsCommit(g)
    requires forall k | Get(f, k).Some? && Get(g, k).Some? ::
      IsScopeEqual(text, Get(f, k).value, Get(g, k).value) <==> Equivalent(text, Get(f, k).value, Get(g, k).value)
    ensures IsScopeEqual(text, Obj(f), Obj(g)) <==> EquivalentFields(text, f, g)
  {
    forall k | Get(f, k).Some? && Get(g, k).Some?
      ensures CanonicalValue(text, f, k) == CanonicalValue(text, g, k) <==> EquivalentAt(text, f, g, k)
    {
      ValueIff(text, f, g, k);
    }
    ObjectIff(text, f, g);
    SameKeysIff(f, g);
    if SameKeys(f, g) { ValuesIff(text, f, g); }
  }

  lemma ValuesIff(text: Text, f: seq<Field>, g: seq<Field>)
    requires SameKeys(f, g)
    requires forall k | Get(f, k).Some? && Get(g, k).Some? ::
      CanonicalValue(text, f, k) == CanonicalValue(text, g, k) <==> EquivalentAt(text, f, g, k)
    ensures SameValues(text, f, g) <==> EquivalentFields(text, f, g)
  {
    if SameValues(text, f, g) {
      forall k | k != PROTO
        ensures Get(f, k).Some? <==> Get(g, k).Some?
        ensures Get(f, k).Some? && Get(g, k).Some? ==> EquivalentAt(text, f, g, k)
      {
        CanonicalKeysAre(f, k);
        CanonicalKeysAre(g, k);
      }
    }
    if EquivalentFields(text, f, g) {
      forall k | k in CanonicalKeys(f)
        ensures Get(g, k).Some? && CanonicalValue(text, f, k) == CanonicalValue(text, g, k)
      {
        CanonicalKeysAre(f, k);
      }
    }
  }

  /** `isScopeEqual` accepts exactly the equivalent scopes, at any depth of nesting. */
  lemma {:induction false} EqualIffEquivalent(text: Text, a: Json, b: Json)
    ensures IsScopeEqual(text, a, b) <==> Equivalent(text, a, b)
    decreases a
  {
    if a.Arr? && b.Arr? {
      assert |Canonicalize(text, a).items| == |a.items| && |Canonicalize(text, b).items| == |b.items|;
      if |a.items| == |b.items| {
        forall i | 0 <= i < |a.items|
          ensures IsScopeEqual(text, a.items[i], b.items[i]) <==> Equivalent(text, a.items[i], b.items[i])
        {
          EqualIffEquivalent(text, a.items[i], b.items[i]);
        }
        ArrayIff(text, a.items, b.items);
      }
    } else if a.Obj? && b.Obj? {
      var f, g := a.fields, b.fields;
      if IsScopeEqual(text, Obj(f), Obj(g)) { EqualKinds(text, f, g); }
      if EquivalentFields(text, f, g) { EquivalentKinds(text, f, g); }
      forall k | Get(f, k).Some? && Get(g, k).Some?
        ensures IsScopeEqual(text, Get(f, k).value, Get(g, k).value) <==>
          Equivalent(text, Get(f, k).value, Get(g, k).value)
      {
        GetIsPart(f, k);
        EqualIffEquivalent(text, Get(f, k).value, Get(g, k).value);
      }
      if IsCommit(f) == IsCommit(g) { EqualFields(text, f, g); }
    }
  }

  lemma ArrayIff(text: Text, p: seq<Json>, q: seq<Json>)
    requires |p| == |q| && forall i | 0 <= i < |p| :: IsScopeEqual(text, p[i], q[i]) <==> Equivalent(text, p[i], q[i])
    ensures IsScopeEqual(text, Arr(p), Arr(q)) <==> Equivalent(text, Arr(p), Arr(q))
  {
    var cp, cq := Canonicalize(text, Arr(p)).items, Canonicalize(text, Arr(q)).items;
    assert cp == cq <==> forall i | 0 <= i < |p| :: cp[i] == cq[i];
    forall i | 0 <= i < |p| ensures cp[i] == cq[i] <==> Equivalent(text, p[i], q[i]) {
      assert IsScopeEqual(text, p[i], q[i]) <==> Equivalent(text, p[i], q[i]);
    }
    if cp == cq {
      forall i | 0 <= i < |p| ensures Equivalent(text, p[i], q[i]) { assert cp[i] == cq[i]; }
    }
  }

  // ---------------------------------------------------------------- idempotence

  lemma {:induction false} GetByPosition(fields: seq<Field>, i: nat)
    requires i < |fields| && forall a, b | 0 <= a < b < |fields| :: fields[a].key != fields[b].key
    ensures Get(fields, fields[i].key) == fields[i].value
  {
    if i > 0 { GetByPosition(fields[1..], i - 1); }
  }

  lemma {:induction false} GetAbsent(fields: seq<Field>, k: string)
    requires forall i | 0 <= i < |fields| :: fields[i].key != k
    ensures Get(fields, k).None?
  {
    if fields != [] { GetAbsent(fields[1..], k); }
  }

  /** What the canonical object holds under each key. */
  lemma GetCanonical(text: Text, fields: seq<Field>, k: string)
    ensures Get(Canonicalize(text, Obj(fields)).fields, k) ==
      if k in CanonicalKeys(fields) then Some(CanonicalValue(text, fields, k)) else None
  {
    var keys, c := CanonicalKeys(fields), Canonicalize(text, Obj(fields)).fields;
    CanonicalKeysAreDistinct(fields);
    assert forall i | 0 <= i < |c| :: c[i].key == keys[i];
    if k in keys {
      var i :| 0 <= i < |keys| && keys[i] == k;
      GetByPosition(c, i);
    } else {
      forall i | 0 <= i < |c| ensures c[i].key != k { assert keys[i] in keys; }
      GetAbsent(c, k);
    }
  }

  lemma CanonicalKind(text: Text, fields: seq<Field>)
    ensures IsCommit(Canonicalize(text, Obj(fields)).fields) == IsCommit(fields)
  {
    GetCanonical(text, fields, "kind");
    CanonicalKeysAre(fields, "kind");
    if Get(fields, "kind").Some? { CanonicalString(text, Get(fields, "kind").value, "COMMIT"); }
  }

  lemma CanonicalPathsAreSame(text: Text, p: seq<Json>)
    ensures SamePaths(text, p, CanonicalPaths(text, p))
  {
    var d := Dedupe(p, IsPrimitive());
    DedupeLeavesNoRepeat(p, IsPrimitive());
    SortSorts(d, text);
    DedupeOfNoRepeat(SortByText(d, text), IsPrimitive());
    forall t ensures Bucket(d, text, t) == Bucket(Dedupe(SortByText(d, text), IsPrimitive()), text, t) {
      SortKeepsBucket(d, text, t);
    }
  }

  lemma ValueIsEquivalent(text: Text, fields: seq<Field>, k: string)
    requires k in CanonicalKeys(fields) && Get(Canonicalize(text, Obj(fields)).fields, k).Some?
    requires Equivalent(text, Get(fields, k).value, Canonicalize(text, Get(fields, k).value))
    ensures EquivalentAt(text, fields, Canonicalize(text, Obj(fields)).fields, k)
  {
    GetCanonical(text, fields, k);
    CanonicalKind(text, fields);
    var v := Get(fields, k).value;
    if IsCommit(fields) && k == "paths" && v.Arr? { CanonicalPathsAreSame(text, v.items); }
  }

  /** The canonical form of a tree is equivalent to the tree. */
  lemma {:induction false} CanonicalIsEquivalent(text: Text, scope: Json)
    ensures Equivalent(text, scope, Canonicalize(text, scope))
    decreases scope
  {
    match scope
    case Arr(items) =>
      forall i | 0 <= i < |items| ensures Equivalent(text, items[i], Canonicalize(text, items[i])) {
        CanonicalIsEquivalent(text, items[i]);
      }
    case Obj(fields) =>
      var c := Canonicalize(text, scope).fields;
      forall k | k != PROTO
        ensures Get(fields, k).Some? <==> Get(c, k).Some?
        ensures Get(fields, k).Some? && Get(c, k).Some? ==> EquivalentAt(text, fields, c, k)
      {
        GetCanonical(text, fields, k);
        CanonicalKeysAre(fields, k);
        if Get(fields, k).Some? {
          GetIsPart(fields, k);
          CanonicalIsEquivalent(text, Get(fields, k).value);
          ValueIsEquivalent(text, fields, k);
        }
      }
      assert EquivalentFields(text, fields, c);
    case _ =>
  }

  /** Canonicalising twice is canonicalising once, on trees of any depth. */
  lemma CanonicalizeIsIdempotent(text: Text, scope: Json)
    ensures Canonicalize(text, Canonicalize(text, scope)) == Canonicalize(text, scope)
  {
    CanonicalIsEquivalent(text, scope);
    EqualIffEquivalent(text, scope, Canonicalize(text, scope));
  }

  /** On paths that are strings the equivalence is equality as sets: order and repetition do not matter. */
  lemma StringPathsAreSets(text: Text, p: seq<Json>, q: seq<Json>)
    requires (forall x | x in p :: x.Str?) && (forall x | x in q :: x.Str?) && forall s :: text(Str(s)) == s
    ensures SamePaths(text, p, q) <==> (forall x :: x in p <==> x in q)
  {
    var dp, dq := Dedupe(p, IsPrimitive()), Dedupe(q, IsPrimitive());
    DedupedStrings(text, p, dp);
    DedupedStrings(text, q, dq);
    SortIsSameIff(dp, dq, text);
    SortOfDistinctIff(dp, dq, text);
    assert (forall x :: x in p <==> x in q) <==> (forall x :: x in dp <==> x in dq);
  }

  lemma DedupedStrings(text: Text, p: seq<Json>, d: seq<Json>)
    requires (forall x | x in p :: x.Str?) && (forall s :: text(Str(s)) == s) && d == Dedupe(p, IsPrimitive())
    ensures forall i, j | 0 <= i < j < |d| :: text(d[i]) != text(d[j])
    ensures forall x :: x in d <==> x in p
  {
    DedupeMembers(p, IsPrimitive());
    DedupeLeavesNoRepeat(p, IsPrimitive());
    NoRepeatIsDistinct(d, IsPrimitive());
    forall i, j | 0 <= i < j < |d| ensures text(d[i]) != text(d[j]) {
      assert d[i] in d && d[j] in d;
      assert d[i] == Str(d[i].s) && d[j] == Str(d[j].s);
    }
  }

  predicate HasArray(fields: seq<Field>, key: string) { Get(fields, key).Some? && Get(fields, key).value.Arr? }

  /** Exactly the typed COMMIT and PUSH scopes pass; any other gate takes every object or array. */
  lemma ValidScopesAreTyped(gateKind: string, scope: Json)
    ensures ValidateGateScope(gateKind, scope).None? <==>
      match gateKind
      case "COMMIT" =>
        && scope.Obj? && Get(scope.fields, "kind") == Some(Str("COMMIT"))
        && HasArray(scope.fields, "paths") && HasString(scope.fields, "message")
      case "PUSH" =>
        && scope.Obj? && Get(scope.fields, "kind") == Some(Str("PUSH"))
        && forall k | k in ["commitSha", "remote", "branch"] :: HasString(scope.fields, k)
      case _ => scope.Obj? || scope.Arr?
  {
    var keys := ["commitSha", "remote", "branch"];
    assert keys[0] in keys && keys[1] in keys && keys[2] in keys;
    assert "COMMIT"[0] != "PUSH"[0];
  }
}

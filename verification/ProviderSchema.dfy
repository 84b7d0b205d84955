/**
 * The provider-facing JSON schema: eleven limiting keywords are dropped and oneOf becomes anyOf.
 * Values are judged as JSON Schema Core 2020-12, sections 10.2 and 10.3, and JSON Schema Validation 2020-12,
 * section 6, judge them.
 */
module ProviderSchema {
  import opened Optional

  /** Object keys: the keywords that matter here, and every other name. */
  datatype Key =
    | Pattern | MinLength | MaxLength | Minimum | Maximum | ExclusiveMinimum | ExclusiveMaximum | MultipleOf
    | MinItems | MaxItems | UniqueItems
    | OneOf | AnyOf | AllOf | Not
    | Properties | PatternProperties | AdditionalProperties | PropertyNames | DependentSchemas | PrefixItems | Items
    | Type | Const | Enum | Required | MinProperties | MaxProperties | DependentRequired
    | Named(name: string)

  datatype Json =
    | JNull | JBool(b: bool) | JNumber(n: int) | JString(s: string) | JArray(items: seq<Json>)
    | JObject(entries: seq<Entry>)

  datatype Entry = Entry(key: Key, value: Json)

  function NameOf(k: Key): string {
    match k
    case Pattern => "pattern"
    case MinLength => "minLength"
    case MaxLength => "maxLength"
    case Minimum => "minimum"
    case Maximum => "maximum"
    case ExclusiveMinimum => "exclusiveMinimum"
    case ExclusiveMaximum => "exclusiveMaximum"
    case MultipleOf => "multipleOf"
    case MinItems => "minItems"
    case MaxItems => "maxItems"
    case UniqueItems => "uniqueItems"
    case OneOf => "oneOf"
    case AnyOf => "anyOf"
    case AllOf => "allOf"
    case Not => "not"
    case Properties => "properties"
    case PatternProperties => "patternProperties"
    case AdditionalProperties => "additionalProperties"
    case PropertyNames => "propertyNames"
    case DependentSchemas => "dependentSchemas"
    case PrefixItems => "prefixItems"
    case Items => "items"
    case Type => "type"
    case Const => "const"
    case Enum => "enum"
    case Required => "required"
    case MinProperties => "minProperties"
    case MaxProperties => "maxProperties"
    case DependentRequired => "dependentRequired"
    case Named(name) => name
  }

  predicate Unsupported(k: Key) {
    k in {Pattern, MinLength, MaxLength, Minimum, Maximum, ExclusiveMinimum, ExclusiveMaximum, MultipleOf,
          MinItems, MaxItems, UniqueItems}
  }

  /** The first index from `i` on that holds the key. */
  function Find(entries: seq<Entry>, key: Key, i: nat): (r: Option<nat>)
    requires i <= |entries|
    ensures r.Some? ==> i <= r.value < |entries| && entries[r.value].key == key && forall j | i <= j < r.value ::
            entries[j].key != key
    ensures r.None? ==> forall j | i <= j < |entries| :: entries[j].key != key
    decreases |entries| - i
  {
    if i == |entries| then None else if entries[i].key == key then Some(i) else Find(entries, key, i + 1)
  }

  function Get(entries: seq<Entry>, key: Key): Option<Json> {
    var found := Find(entries, key, 0);
    if found.Some? then Some(entries[found.value].value) else None
  }

  lemma GetIn(entries: seq<Entry>, key: Key)
    requires Get(entries, key).Some?
    ensures Entry(key, Get(entries, key).value) in entries
  {
    var i := Find(entries, key, 0).value;
    assert entries[i] in entries;
  }

  predicate UniqueKeys(entries: seq<Entry>) {
    forall i, j | 0 <= i < j < |entries| :: entries[i].key != entries[j].key
  }

  // ---------------------------------------------------------------- the sanitizer

  function OutputKey(key: Key): Key {
    if key == OneOf then AnyOf else key
  }

  /** What `sanitized[outputKey]` becomes: two arrays under anyOf are joined, anything else is replaced. */
  function Joined(key: Key, existing: Option<Json>, value: Json): Json {
    if key == AnyOf && existing.Some? && existing.value.JArray? && value.JArray?
    then JArray(existing.value.items + value.items) else value
  }

  /** An existing key keeps its place. */
  function Put(entries: seq<Entry>, key: Key, value: Json): seq<Entry> {
    var found := Find(entries, key, 0);
    if found.None? then entries + [Entry(key, value)]
    else entries[found.value := Entry(key, Joined(key, Some(entries[found.value].value), value))]
  }

  /** The loop over the entries, whose nested values are sanitized already. */
  function Merge(entries: seq<Entry>): seq<Entry> {
    if entries == [] then []
    else
      var done, last := Merge(entries[..|entries| - 1]), entries[|entries| - 1];
      if Unsupported(last.key) then done else Put(done, OutputKey(last.key), last.value)
  }

  function Sanitize(j: Json): Json {
    match j
    case JArray(items) => JArray(seq(|items|, i requires 0 <= i < |items| => Sanitize(items[i])))
    case JObject(entries) =>
      JObject(Merge(seq(|entries|, i requires 0 <= i < |entries| => Entry(entries[i].key, Sanitize(entries[i].value)))))
    case _ => j
  }

  method SanitizeSchema(j: Json) returns (r: Json)
    ensures r == Sanitize(j)
  {
    match j
    case JArray(items) =>
      var sanitized: seq<Json> := [];
      var next := 0;
      while next < |items|
        invariant next <= |items| && |sanitized| == next
        invariant forall i | 0 <= i < next :: sanitized[i] == Sanitize(items[i])
      {
        var nested := SanitizeSchema(items[next]);
        sanitized := sanitized + [nested];
        next := next + 1;
      }
      r := JArray(sanitized);
    case JObject(entries) =>
      var sanitized: seq<Entry> := [];
      ghost var nestedEntries := SanitizedEntries(entries);
      var next := 0;
      while next < |entries|
        invariant next <= |entries|
        invariant sanitized == Merge(nestedEntries[..next])
      {
        assert nestedEntries[..next + 1][..next] == nestedEntries[..next];
        if !Unsupported(entries[next].key) {
          var nested := SanitizeSchema(entries[next].value);
          sanitized := Put(sanitized, OutputKey(entries[next].key), nested);
        }
        next := next + 1;
      }
      assert nestedEntries[..next] == nestedEntries;
      r := JObject(sanitized);
    case _ => r := j;
  }

  function SanitizedEntries(entries: seq<Entry>): (r: seq<Entry>)
    ensures |r| == |entries|
    ensures forall i | 0 <= i < |r| :: r[i] == Entry(entries[i].key, Sanitize(entries[i].value))
  {
    seq(|entries|, i requires 0 <= i < |entries| => Entry(entries[i].key, Sanitize(entries[i].value)))
  }

  // ---------------------------------------------------------------- what the loop builds

  /** The search depends on the keys alone. */
  lemma SameKeysFind(a: seq<Entry>, b: seq<Entry>, k: Key)
    requires |a| == |b| && forall j | 0 <= j < |a| :: a[j].key == b[j].key
    ensures Find(a, k, 0) == Find(b, k, 0)
  {
    var x, y := Find(a, k, 0), Find(b, k, 0);
    assert x.Some? ==> b[x.value].key == k;
    assert y.Some? ==> a[y.value].key == k;
  }

  lemma GetLast(entries: seq<Entry>, last: Entry, k: Key)
    ensures Get(entries + [last], k) == if Get(entries, k).Some? then Get(entries, k)
            else if last.key == k then Some(last.value) else None
  {
    var more := entries + [last];
    var before, after := Find(entries, k, 0), Find(more, k, 0);
    if before.Some? {
      assert more[before.value].key == k;
    }
    if after.Some? && after.value < |entries| {
      assert entries[after.value].key == k;
    }
    assert more[|entries|] == last;
  }

  lemma PutNewGet(entries: seq<Entry>, key: Key, value: Json, k: Key)
    requires Find(entries, key, 0).None?
    ensures Get(Put(entries, key, value), k) == if k == key then Some(value) else Get(entries, k)
  {
    GetLast(entries, Entry(key, value), k);
  }

  lemma PutKnownGet(entries: seq<Entry>, key: Key, value: Json, k: Key)
    requires Find(entries, key, 0).Some?
    ensures Get(Put(entries, key, value), k) ==
              if k == key then Some(Joined(key, Some(entries[Find(entries, key, 0).value].value), value))
                else Get(entries, k)
  {
    SameKeysFind(entries, Put(entries, key, value), k);
  }

  lemma PutGet(entries: seq<Entry>, key: Key, value: Json, k: Key)
    ensures Get(Put(entries, key, value), k) == if k == key then Some(Joined(key, Get(entries, key), value))
            else Get(entries, k)
  {
    if Find(entries, key, 0).None? {
      PutNewGet(entries, key, value, k);
    } else {
      PutKnownGet(entries, key, value, k);
    }
  }

  lemma GetMissing(entries: seq<Entry>, k: Key)
    ensures Get(entries, k).None? <==> forall i | 0 <= i < |entries| :: entries[i].key != k
  {}

  /** Where both union keywords occur, their branches end up in one list, in order of appearance. */
  function Union(entries: seq<Entry>): Option<Json> {
    if entries == [] then None
    else
      var done, last := Union(entries[..|entries| - 1]), entries[|entries| - 1];
      if last.key == AnyOf || last.key == OneOf then Some(Joined(AnyOf, done, last.value)) else done
  }

  /** What each key of the sanitized object holds. */
  lemma {:induction false} MergeGet(entries: seq<Entry>, k: Key)
    requires UniqueKeys(entries)
    ensures Get(Merge(entries), k) ==
              if Unsupported(k) || k == OneOf then None else if k == AnyOf then Union(entries) else Get(entries, k)
  {
    if entries != [] {
      var init, last := entries[..|entries| - 1], entries[|entries| - 1];
      MergeGet(init, k);
      assert entries == init + [last];
      GetLast(init, last, k);
      if !Unsupported(last.key) {
        PutGet(Merge(init), OutputKey(last.key), last.value, k);
        MergeGet(init, AnyOf);
      }
      if last.key == k && k != AnyOf {
        GetMissing(init, k);
      }
    }
  }

  // ---------------------------------------------------------------- idempotence

  /** No dropped keyword, no oneOf and no repeated key anywhere. */
  ghost predicate Clean(j: Json) {
    match j
    case JArray(items) => forall i | 0 <= i < |items| :: Clean(items[i])
    case JObject(entries) =>
      UniqueKeys(entries) && forall i | 0 <= i < |entries| :: Plain(entries[i].key) && Clean(entries[i].value)
    case _ => true
  }

  predicate Plain(key: Key) {
    !Unsupported(key) && key != OneOf
  }

  ghost predicate CleanEntries(entries: seq<Entry>) {
    UniqueKeys(entries) && forall i | 0 <= i < |entries| :: Plain(entries[i].key) && Clean(entries[i].value)
  }

  lemma PutClean(entries: seq<Entry>, key: Key, value: Json)
    requires CleanEntries(entries) && Plain(key) && Clean(value)
    ensures CleanEntries(Put(entries, key, value))
  {
    var found := Find(entries, key, 0);
    if found.Some? {
      var existing := entries[found.value].value;
      JoinedClean(key, existing, value);
    }
  }

  lemma JoinedClean(key: Key, existing: Json, value: Json)
    requires Clean(existing) && Clean(value)
    ensures Clean(Joined(key, Some(existing), value))
  {}

  lemma {:induction false} MergeClean(entries: seq<Entry>)
    requires forall i | 0 <= i < |entries| :: Clean(entries[i].value)
    ensures CleanEntries(Merge(entries))
  {
    if entries != [] {
      var init, last := entries[..|entries| - 1], entries[|entries| - 1];
      MergeClean(init);
      if !Unsupported(last.key) {
        PutClean(Merge(init), OutputKey(last.key), last.value);
      }
    }
  }

  lemma {:induction false} SanitizedIsClean(j: Json)
    ensures Clean(Sanitize(j))
  {
    match j
    case JArray(items) =>
      forall i | 0 <= i < |items| ensures Clean(Sanitize(items[i])) { SanitizedIsClean(items[i]); }
    case JObject(entries) =>
      forall i | 0 <= i < |entries| ensures Clean(Sanitize(entries[i].value)) { SanitizedIsClean(entries[i].value); }
      MergeClean(SanitizedEntries(entries));
      assert SanitizedEntries(entries)
             == seq(|entries|, i requires 0 <= i < |entries| => Entry(entries[i].key, Sanitize(entries[i].value)));
    case _ =>
  }

  lemma PutMissing(entries: seq<Entry>, key: Key, value: Json)
    requires forall i | 0 <= i < |entries| :: entries[i].key != key
    ensures Put(entries, key, value) == entries + [Entry(key, value)]
  {}

  /** Where no keyword is dropped or renamed and none repeats, the loop rebuilds the object as it was. */
  lemma {:induction false} MergeIdentity(entries: seq<Entry>)
    requires UniqueKeys(entries) && forall i | 0 <= i < |entries| :: Plain(entries[i].key)
    ensures Merge(entries) == entries
  {
    if entries != [] {
      var init, last := entries[..|entries| - 1], entries[|entries| - 1];
      MergeIdentity(init);
      PutMissing(init, last.key, last.value);
      assert entries == init + [last];
    }
  }

  lemma SanitizeObject(entries: seq<Entry>)
    ensures Sanitize(JObject(entries)) == JObject(Merge(SanitizedEntries(entries)))
  {
    assert SanitizedEntries(entries)
           == seq(|entries|, i requires 0 <= i < |entries| => Entry(entries[i].key, Sanitize(entries[i].value)));
  }

  lemma {:induction false} CleanIsFixed(j: Json)
    requires Clean(j)
    ensures Sanitize(j) == j
  {
    match j
    case JArray(items) =>
      forall i | 0 <= i < |items| ensures Sanitize(items[i]) == items[i] { CleanIsFixed(items[i]); }
    case JObject(entries) =>
      forall i | 0 <= i < |entries| ensures Sanitize(entries[i].value) == entries[i].value {
        CleanIsFixed(entries[i].value);
      }
      assert SanitizedEntries(entries) == entries;
      SanitizeObject(entries);
      MergeIdentity(entries);
    case _ =>
  }

  /** Sanitizing twice is sanitizing once, for every JSON value. */
  lemma SanitizingIsIdempotent(j: Json)
    ensures Sanitize(Sanitize(j)) == Sanitize(j)
  {
    SanitizedIsClean(j);
    CleanIsFixed(Sanitize(j));
  }

  // ---------------------------------------------------------------- validity

  /** Regular expressions are given; they are not part of this model. */
  datatype Env = Env(matches: (string, string) -> bool, typeOf: (string, Json) -> bool)

  ghost predicate Limit(env: Env, key: Key, arg: Json, v: Json) {
    match key
    case Pattern => arg.JString? && v.JString? ==> env.matches(arg.s, v.s)
    case MinLength => arg.JNumber? && v.JString? ==> arg.n <= |v.s|
    case MaxLength => arg.JNumber? && v.JString? ==> |v.s| <= arg.n
    case Minimum => arg.JNumber? && v.JNumber? ==> arg.n <= v.n
    case Maximum => arg.JNumber? && v.JNumber? ==> v.n <= arg.n
    case ExclusiveMinimum => arg.JNumber? && v.JNumber? ==> arg.n < v.n
    case ExclusiveMaximum => arg.JNumber? && v.JNumber? ==> v.n < arg.n
    case MultipleOf => arg.JNumber? && v.JNumber? && arg.n > 0 ==> v.n % arg.n == 0
    case MinItems => arg.JNumber? && v.JArray? ==> arg.n <= |v.items|
    case MaxItems => arg.JNumber? && v.JArray? ==> |v.items| <= arg.n
    case UniqueItems => arg == JBool(true) && v.JArray? ==>
      forall i, j | 0 <= i < j < |v.items| :: v.items[i] != v.items[j]
    case _ => true
  }

  predicate HasName(entries: seq<Entry>, name: string) {
    exists e <- entries :: NameOf(e.key) == name
  }

  ghost predicate AllPresent(entries: seq<Entry>, names: seq<Json>) {
    forall r <- names | r.JString? :: HasName(entries, r.s)
  }

  /** The assertions about a value as a whole that are kept. */
  ghost predicate Assertion(env: Env, key: Key, arg: Json, v: Json) {
    match key
    case Type =>
      if arg.JArray? then exists t <- arg.items :: t.JString? && env.typeOf(t.s, v)
      else arg.JString? ==> env.typeOf(arg.s, v)
    case Const => v == arg
    case Enum => arg.JArray? ==> v in arg.items
    case Required => arg.JArray? && v.JObject? ==> AllPresent(v.entries, arg.items)
    case MinProperties => arg.JNumber? && v.JObject? ==> arg.n <= |v.entries|
    case MaxProperties => arg.JNumber? && v.JObject? ==> |v.entries| <= arg.n
    case DependentRequired =>
      arg.JObject? && v.JObject? ==>
        forall q <- arg.entries | HasName(v.entries, NameOf(q.key)) && q.value.JArray? ::
          AllPresent(v.entries, q.value.items)
    case _ => true
  }

  /** What additionalProperties and items read of the keywords beside them. */
  datatype Siblings = Siblings(declared: set<Key>, patterns: set<Key>, prefix: nat)

  function KeySet(entries: seq<Entry>): set<Key> {
    set e <- entries :: e.key
  }

  function KeysOf(arg: Option<Json>): set<Key> {
    if arg.Some? && arg.value.JObject? then KeySet(arg.value.entries) else {}
  }

  function LengthOf(arg: Option<Json>): nat {
    if arg.Some? && arg.value.JArray? then |arg.value.items| else 0
  }

  function SiblingsOf(entries: seq<Entry>): Siblings {
    Siblings(KeysOf(Get(entries, Properties)), KeysOf(Get(entries, PatternProperties)),
             LengthOf(Get(entries, PrefixItems)))
  }

  /** Neither declared by name nor matched by a pattern. */
  ghost predicate Additional(env: Env, near: Siblings, key: Key) {
    key !in near.declared && forall p <- near.patterns :: !env.matches(NameOf(p), NameOf(key))
  }

  // ---------------------------------------------------------------- subschemas

  predicate MapsNames(key: Key) {
    key in {Properties, PatternProperties, DependentSchemas}
  }

  predicate Lists(key: Key) {
    key in {OneOf, AnyOf, AllOf, PrefixItems}
  }

  predicate Wraps(key: Key) {
    key in {AdditionalProperties, PropertyNames, Items, Not}
  }

  function Values(entries: seq<Entry>): (r: seq<Json>)
    ensures |r| == |entries| && forall i | 0 <= i < |r| :: r[i] == entries[i].value
  {
    seq(|entries|, i requires 0 <= i < |entries| => entries[i].value)
  }

  /** The schemas a keyword applies. */
  function Subschemas(key: Key, arg: Json): (r: seq<Json>)
    ensures forall i | 0 <= i < |r| :: r[i] == arg || r[i] < arg
  {
    if MapsNames(key) then if arg.JObject? then Values(arg.entries) else []
    else if Lists(key) then if arg.JArray? then arg.items else []
    else if Wraps(key) then [arg]
    else []
  }

  /** The keywords that apply subschemas. */
  ghost predicate Applies(env: Env, near: Siblings, key: Key, arg: Json, v: Json)
    decreases arg, 1
  {
    match key
    case Properties =>
      arg.JObject? && v.JObject? ==>
        forall i, x | 0 <= i < |arg.entries| && x in v.entries && x.key == arg.entries[i].key ::
          Valid(env, arg.entries[i].value, x.value)
    case PatternProperties =>
      arg.JObject? && v.JObject? ==>
        forall i, x | 0 <= i < |arg.entries| && x in v.entries
          && env.matches(NameOf(arg.entries[i].key), NameOf(x.key)) ::
          Valid(env, arg.entries[i].value, x.value)
    case AdditionalProperties => v.JObject? ==>
      forall x <- v.entries | Additional(env, near, x.key) :: Valid(env, arg, x.value)
    case PropertyNames => v.JObject? ==> forall x <- v.entries :: Valid(env, arg, JString(NameOf(x.key)))
    case DependentSchemas =>
      arg.JObject? && v.JObject? ==>
        forall i | 0 <= i < |arg.entries| && HasName(v.entries, NameOf(arg.entries[i].key)) ::
          Valid(env, arg.entries[i].value, v)
    case PrefixItems =>
      arg.JArray? && v.JArray? ==> forall i | 0 <= i < |arg.items| && i < |v.items| ::
        Valid(env, arg.items[i], v.items[i])
    case Items => v.JArray? ==> forall i | near.prefix <= i < |v.items| :: Valid(env, arg, v.items[i])
    case AllOf => arg.JArray? ==> forall i | 0 <= i < |arg.items| :: Valid(env, arg.items[i], v)
    case AnyOf => arg.JArray? ==> AnyHolds(Verdicts(env, arg, v))
    case OneOf => arg.JArray? ==> OneHolds(Verdicts(env, arg, v))
    case Not => !Valid(env, arg, v)
    case _ => true
  }

  ghost predicate AnyHolds(verdicts: seq<bool>) {
    exists i :: 0 <= i < |verdicts| && verdicts[i]
  }

  ghost predicate OneHolds(verdicts: seq<bool>) {
    exists i :: 0 <= i < |verdicts| && verdicts[i] && forall j | 0 <= j < |verdicts| && j != i :: !verdicts[j]
  }

  /** What each branch of a union says about a value. */
  ghost function Verdicts(env: Env, arg: Json, v: Json): (r: seq<bool>)
    requires arg.JArray?
    ensures |r| == |arg.items| && forall i | 0 <= i < |r| :: r[i] == Valid(env, arg.items[i], v)
    decreases arg, 0
  {
    seq(|arg.items|, i requires 0 <= i < |arg.items| => Valid(env, arg.items[i], v))
  }

  ghost predicate Valid(env: Env, s: Json, v: Json)
    decreases s, 0
  {
    match s
    case JBool(b) => b
    case JObject(entries) =>
      forall e <- entries ::
        && Limit(env, e.key, e.value, v) && Assertion(env, e.key, e.value, v)
        && Applies(env, SiblingsOf(entries), e.key, e.value, v)
    case _ => true
  }

  // ---------------------------------------------------------------- schemas

  /** The outer form of a keyword's value. No property is named like a keyword that is dropped or renamed. */
  ghost predicate Shape(key: Key, arg: Json) {
    if MapsNames(key) then
      arg.JObject? && UniqueKeys(arg.entries) && forall i | 0 <= i < |arg.entries| :: Plain(arg.entries[i].key)
    else if Lists(key) then arg.JArray?
    else if Wraps(key) || Unsupported(key) || key.Named? then true
    else Clean(arg)
  }

  ghost predicate Holds(key: Key, arg: Json)
    decreases arg, 1
  {
    Shape(key, arg) && forall i | 0 <= i < |Subschemas(key, arg)| :: Schema(Subschemas(key, arg)[i])
  }

  ghost predicate Schema(s: Json)
    decreases s, 0
  {
    match s
    case JBool(_) => true
    case JObject(entries) =>
      UniqueKeys(entries) && forall i | 0 <= i < |entries| :: Holds(entries[i].key, entries[i].value)
    case _ => false
  }

  // ---------------------------------------------------------------- the sanitized object

  lemma GetUnique(entries: seq<Entry>, i: nat)
    requires UniqueKeys(entries) && i < |entries|
    ensures Get(entries, entries[i].key) == Some(entries[i].value)
  {}

  lemma SanitizedGet(entries: seq<Entry>, k: Key)
    ensures Get(SanitizedEntries(entries), k)
            == if Get(entries, k).Some? then Some(Sanitize(Get(entries, k).value)) else None
  {
    var t := SanitizedEntries(entries);
    var before, after := Find(entries, k, 0), Find(t, k, 0);
    if before.Some? {
      assert t[before.value].key == k;
    }
    if after.Some? {
      assert entries[after.value].key == k;
    }
  }

  /** The branches of both unions, joined in order of appearance. */
  lemma {:induction false} UnionOf(entries: seq<Entry>)
    requires UniqueKeys(entries)
    requires forall i | 0 <= i < |entries| && entries[i].key in {AnyOf, OneOf} :: entries[i].value.JArray?
    ensures var a, o := Get(entries, AnyOf), Get(entries, OneOf);
            Union(entries) ==
              if a.None? then o else if o.None? then a
              else Union(entries)
    ensures var a, o := Get(entries, AnyOf), Get(entries, OneOf);
            a.Some? && o.Some? ==>
              Union(entries) in {Some(JArray(a.value.items + o.value.items)),
                                 Some(JArray(o.value.items + a.value.items))}
    ensures Get(entries, AnyOf).Some? ==> Get(entries, AnyOf).value.JArray?
    ensures Get(entries, OneOf).Some? ==> Get(entries, OneOf).value.JArray?
  {
    if entries != [] {
      var init, last := entries[..|entries| - 1], entries[|entries| - 1];
      UnionOf(init);
      assert entries == init + [last];
      GetLast(init, last, AnyOf);
      GetLast(init, last, OneOf);
      GetMissing(init, AnyOf);
      GetMissing(init, OneOf);
    }
  }

  lemma SameKeySets(a: seq<Entry>, b: seq<Entry>)
    requires |a| == |b| && forall i | 0 <= i < |a| :: a[i].key == b[i].key
    ensures KeySet(a) == KeySet(b)
  {
    forall k: Key ensures k in KeySet(a) <==> k in KeySet(b) {
      if k in KeySet(a) {
        var i :| 0 <= i < |a| && a[i].key == k;
        assert b[i] in b;
      }
      if k in KeySet(b) {
        var i :| 0 <= i < |b| && b[i].key == k;
        assert a[i] in a;
      }
    }
  }

  /** Sanitizing a map from names to schemas sanitizes each schema in place. */
  lemma MapKept(key: Key, arg: Json)
    requires MapsNames(key) && Shape(key, arg)
    ensures Sanitize(arg) == JObject(SanitizedEntries(arg.entries))
    ensures KeysOf(Some(Sanitize(arg))) == KeysOf(Some(arg))
  {
    SanitizeObject(arg.entries);
    MergeIdentity(SanitizedEntries(arg.entries));
    SameKeySets(arg.entries, SanitizedEntries(arg.entries));
  }

  /** Two values of a keyword that differ in their subschemas only. */
  ghost predicate SameForm(key: Key, a: Json, b: Json) {
    && |Subschemas(key, a)| == |Subschemas(key, b)|
    && (MapsNames(key) ==> a.JObject? && b.JObject? && forall i | 0 <= i < |a.entries| ::
        a.entries[i].key == b.entries[i].key)
    && (Lists(key) ==> a.JArray? && b.JArray?)
  }

  lemma SubschemasSanitized(key: Key, arg: Json)
    requires Shape(key, arg)
    ensures SameForm(key, arg, Sanitize(arg))
    ensures forall i | 0 <= i < |Subschemas(key, arg)| ::
            Subschemas(key, Sanitize(arg))[i] == Sanitize(Subschemas(key, arg)[i])
  {
    if MapsNames(key) {
      MapKept(key, arg);
    }
  }

  /** What one keyword of a sanitized object holds, in terms of the original object. */
  lemma SanitizedKeyword(entries: seq<Entry>, k: Key)
    requires UniqueKeys(entries)
    requires forall i | 0 <= i < |entries| && entries[i].key in {AnyOf, OneOf} :: entries[i].value.JArray?
    ensures var u := Merge(SanitizedEntries(entries));
            Get(u, k) ==
              if Unsupported(k) || k == OneOf then None
              else if k == AnyOf then Union(SanitizedEntries(entries))
              else if Get(entries, k).Some? then Some(Sanitize(Get(entries, k).value)) else None
  {
    MergeGet(SanitizedEntries(entries), k);
    SanitizedGet(entries, k);
  }

  lemma PutUnique(entries: seq<Entry>, key: Key, value: Json)
    requires UniqueKeys(entries)
    ensures UniqueKeys(Put(entries, key, value))
  {}

  lemma {:induction false} MergeUnique(entries: seq<Entry>)
    ensures UniqueKeys(Merge(entries))
  {
    if entries != [] {
      var init, last := entries[..|entries| - 1], entries[|entries| - 1];
      MergeUnique(init);
      if !Unsupported(last.key) {
        PutUnique(Merge(init), OutputKey(last.key), last.value);
      }
    }
  }

  lemma EntryHolds(entries: seq<Entry>, k: Key)
    requires Schema(JObject(entries)) && Get(entries, k).Some?
    ensures Holds(k, Get(entries, k).value)
  {
    var e := Entry(k, Get(entries, k).value);
    GetIn(entries, k);
    var i :| 0 <= i < |entries| && entries[i] == e;
  }

  lemma UnionsAreArrays(entries: seq<Entry>)
    requires Schema(JObject(entries))
    ensures forall i | 0 <= i < |entries| && entries[i].key in {AnyOf, OneOf} :: entries[i].value.JArray?
    ensures forall i | 0 <= i < |entries| && entries[i].key in {AnyOf, OneOf} ::
            SanitizedEntries(entries)[i].value.JArray?
  {
    forall i | 0 <= i < |entries| && entries[i].key in {AnyOf, OneOf} ensures entries[i].value.JArray? {
      assert Holds(entries[i].key, entries[i].value);
    }
  }

  lemma SameNames(entries: seq<Entry>, k: Key)
    requires Schema(JObject(entries)) && MapsNames(k)
    ensures KeysOf(Get(Merge(SanitizedEntries(entries)), k)) == KeysOf(Get(entries, k))
  {
    UnionsAreArrays(entries);
    SanitizedKeyword(entries, k);
    if Get(entries, k).Some? {
      EntryHolds(entries, k);
      MapKept(k, Get(entries, k).value);
    }
  }

  lemma SamePrefix(entries: seq<Entry>)
    requires Schema(JObject(entries))
    ensures LengthOf(Get(Merge(SanitizedEntries(entries)), PrefixItems)) == LengthOf(Get(entries, PrefixItems))
  {
    UnionsAreArrays(entries);
    SanitizedKeyword(entries, PrefixItems);
    if Get(entries, PrefixItems).Some? {
      EntryHolds(entries, PrefixItems);
    }
  }

  lemma SameSiblings(entries: seq<Entry>)
    requires Schema(JObject(entries))
    ensures SiblingsOf(Merge(SanitizedEntries(entries))) == SiblingsOf(entries)
  {
    SameNames(entries, Properties);
    SameNames(entries, PatternProperties);
    SamePrefix(entries);
  }

  lemma AssertionKept(env: Env, key: Key, arg: Json, v: Json)
    requires Holds(key, arg)
    ensures Assertion(env, key, Sanitize(arg), v) <==> Assertion(env, key, arg, v)
  {
    if !MapsNames(key) && !Lists(key) && !Wraps(key) && !Unsupported(key) && !key.Named? {
      CleanIsFixed(arg);
    }
  }

  // ---------------------------------------------------------------- one keyword at a time

  /** `b` accepts whatever `a` accepts, subschema by subschema. */
  ghost predicate Wider(env: Env, key: Key, a: Json, b: Json) {
    && SameForm(key, a, b)
    && forall i, x: Json | 0 <= i < |Subschemas(key, a)| && Valid(env, Subschemas(key, a)[i], x) ::
         Valid(env, Subschemas(key, b)[i], x)
  }

  lemma WiderMap(env: Env, near: Siblings, key: Key, a: Json, b: Json, v: Json)
    requires MapsNames(key) && Wider(env, key, a, b) && Applies(env, near, key, a, v)
    ensures Applies(env, near, key, b, v)
  {
    forall i, x: Json | 0 <= i < |a.entries| && Valid(env, a.entries[i].value, x)
      ensures Valid(env, b.entries[i].value, x)
    {
      assert Subschemas(key, a)[i] == a.entries[i].value && Subschemas(key, b)[i] == b.entries[i].value;
    }
  }

  lemma WiderList(env: Env, near: Siblings, key: Key, a: Json, b: Json, v: Json)
    requires Lists(key) && key != OneOf && Wider(env, key, a, b) && Applies(env, near, key, a, v)
    ensures Applies(env, near, key, b, v)
  {
    forall i, x: Json | 0 <= i < |a.items| && Valid(env, a.items[i], x) ensures Valid(env, b.items[i], x) {
      assert Subschemas(key, a)[i] == a.items[i] && Subschemas(key, b)[i] == b.items[i];
    }
    if key == AnyOf {
      var i :| 0 <= i < |a.items| && Verdicts(env, a, v)[i];
      assert Verdicts(env, b, v)[i];
    }
  }

  lemma WiderApplies(env: Env, near: Siblings, key: Key, a: Json, b: Json, v: Json)
    requires key != OneOf && key != Not && Wider(env, key, a, b) && Applies(env, near, key, a, v)
    ensures Applies(env, near, key, b, v)
  {
    if MapsNames(key) {
      WiderMap(env, near, key, a, b, v);
    } else if Lists(key) {
      WiderList(env, near, key, a, b, v);
    } else if Wraps(key) {
      assert Subschemas(key, a)[0] == a && Subschemas(key, b)[0] == b;
    }
  }

  lemma OneIsAny(env: Env, near: Siblings, arg: Json, v: Json)
    requires arg.JArray? && Applies(env, near, OneOf, arg, v)
    ensures Applies(env, near, AnyOf, arg, v)
  {}

  lemma AtMostOneHolds(verdicts: seq<bool>)
    requires forall i, j | 0 <= i < |verdicts| && 0 <= j < |verdicts| && i != j :: !(verdicts[i] && verdicts[j])
    ensures AnyHolds(verdicts) <==> OneHolds(verdicts)
  {
    if AnyHolds(verdicts) {
      var i :| 0 <= i < |verdicts| && verdicts[i];
      assert forall j | 0 <= j < |verdicts| && j != i :: !verdicts[j];
    }
  }

  lemma AnyIsOne(env: Env, near: Siblings, arg: Json, v: Json)
    requires arg.JArray? && Disjoint(env, arg.items) && Applies(env, near, AnyOf, arg, v)
    ensures Applies(env, near, OneOf, arg, v)
  {
    AtMostOneHolds(Verdicts(env, arg, v));
  }

  // ---------------------------------------------------------------- which schemas stay on one side

  ghost predicate Disjoint(env: Env, branches: seq<Json>) {
    forall i, j, v: Json | 0 <= i < |branches| && 0 <= j < |branches| && i != j ::
      !(Valid(env, branches[i], v) && Valid(env, branches[j], v))
  }

  /**
   * What keeps sanitizing one-sided. Where the schema may grow, nothing is asked; below a `not` it must
   * not grow: no dropped keyword, no anyOf beside a oneOf, disjoint oneOf branches. Each further `not`
   * turns the side around.
   */
  ghost predicate OneSided(env: Env, s: Json, grows: bool)
    decreases s, 0
  {
    match s
    case JObject(entries) =>
      && (grows || Get(entries, AnyOf).None? || Get(entries, OneOf).None?)
      && forall i | 0 <= i < |entries| ::
           (grows || !Unsupported(entries[i].key)) && OneSidedAt(env, entries[i].key, entries[i].value, grows)
    case _ => true
  }

  ghost predicate OneSidedAt(env: Env, key: Key, arg: Json, grows: bool)
    decreases arg, 1
  {
    && (key == OneOf && arg.JArray? && !grows ==> Disjoint(env, arg.items))
    && forall i | 0 <= i < |Subschemas(key, arg)| ::
       OneSided(env, Subschemas(key, arg)[i], if key == Not then !grows else grows)
  }

  ghost predicate NotFree(s: Json)
    decreases s, 0
  {
    match s
    case JObject(entries) => forall i | 0 <= i < |entries| :: NotFreeAt(entries[i].key, entries[i].value)
    case _ => true
  }

  ghost predicate NotFreeAt(key: Key, arg: Json)
    decreases arg, 1
  {
    key != Not && forall i | 0 <= i < |Subschemas(key, arg)| :: NotFree(Subschemas(key, arg)[i])
  }

  /** Without `not` nothing is asked of a schema. */
  lemma {:induction false} NotFreeIsOneSided(env: Env, s: Json)
    requires NotFree(s)
    ensures OneSided(env, s, true)
    decreases s, 0
  {
    if s.JObject? {
      forall i | 0 <= i < |s.entries| ensures OneSidedAt(env, s.entries[i].key, s.entries[i].value, true) {
        NotFreeKeywordIsOneSided(env, s.entries[i].key, s.entries[i].value);
      }
    }
  }

  lemma {:induction false} NotFreeKeywordIsOneSided(env: Env, key: Key, arg: Json)
    requires NotFreeAt(key, arg)
    ensures OneSidedAt(env, key, arg, true)
    decreases arg, 1
  {
    forall i | 0 <= i < |Subschemas(key, arg)| ensures OneSided(env, Subschemas(key, arg)[i], true) {
      NotFreeIsOneSided(env, Subschemas(key, arg)[i]);
    }
  }

  // ---------------------------------------------------------------- sanitizing never rejects more

  /** Every value valid under a schema is valid under its sanitized form. */
  lemma {:induction false} SanitizedWeaker(env: Env, s: Json, v: Json)
    requires Schema(s) && OneSided(env, s, true) && Valid(env, s, v)
    ensures Valid(env, Sanitize(s), v)
    decreases s, 2
  {
    if s.JObject? {
      KeywordsWeaker(env, s.entries, v);
      SanitizeObject(s.entries);
      ObjectWeaker(env, s.entries, v);
    }
  }

  lemma ValidKeyword(env: Env, entries: seq<Entry>, i: nat, v: Json)
    requires Valid(env, JObject(entries), v) && i < |entries|
    ensures Assertion(env, entries[i].key, entries[i].value, v)
    ensures Applies(env, SiblingsOf(entries), entries[i].key, entries[i].value, v)
  {
    assert entries[i] in entries;
  }

  lemma {:induction false} KeywordsWeaker(env: Env, entries: seq<Entry>, v: Json)
    requires Schema(JObject(entries)) && OneSided(env, JObject(entries), true) && Valid(env, JObject(entries), v)
    ensures SanitizedApplies(env, entries, v)
    decreases JObject(entries), 1
  {
    forall i | 0 <= i < |entries|
      ensures Assertion(env, entries[i].key, entries[i].value, v)
      ensures Applies(env, SiblingsOf(entries), OutputKey(entries[i].key), Sanitize(entries[i].value), v)
    {
      ValidKeyword(env, entries, i, v);
      KeywordWeaker(env, SiblingsOf(entries), entries[i].key, entries[i].value, v);
    }
  }

  /** One keyword applied before, so its sanitized form applies. */
  lemma {:induction false} KeywordWeaker(env: Env, near: Siblings, key: Key, arg: Json, v: Json)
    requires Holds(key, arg) && OneSidedAt(env, key, arg, true) && Applies(env, near, key, arg, v)
    ensures Applies(env, near, OutputKey(key), Sanitize(arg), v)
    decreases arg, 3
  {
    SubschemasSanitized(key, arg);
    if key == Not {
      assert Subschemas(key, arg)[0] == arg;
      if Valid(env, Sanitize(arg), v) {
        SanitizedStronger(env, arg, v);
      }
    } else {
      forall i, x: Json | 0 <= i < |Subschemas(key, arg)| && Valid(env, Subschemas(key, arg)[i], x)
        ensures Valid(env, Subschemas(key, Sanitize(arg))[i], x)
      {
        SanitizedWeaker(env, Subschemas(key, arg)[i], x);
      }
      RenamedWeaker(env, near, key, arg, v);
    }
  }

  lemma RenamedWeaker(env: Env, near: Siblings, key: Key, arg: Json, v: Json)
    requires key != Not && Wider(env, key, arg, Sanitize(arg)) && Applies(env, near, key, arg, v)
    ensures Applies(env, near, OutputKey(key), Sanitize(arg), v)
  {
    if key == OneOf {
      OneIsAny(env, near, arg, v);
      assert Wider(env, AnyOf, arg, Sanitize(arg));
    }
    WiderApplies(env, near, OutputKey(key), arg, Sanitize(arg), v);
  }

  ghost predicate SanitizedApplies(env: Env, entries: seq<Entry>, v: Json) {
    forall i | 0 <= i < |entries| ::
      && Assertion(env, entries[i].key, entries[i].value, v)
      && Applies(env, SiblingsOf(entries), OutputKey(entries[i].key), Sanitize(entries[i].value), v)
  }

  lemma KeywordApplies(env: Env, entries: seq<Entry>, key: Key, v: Json)
    requires Schema(JObject(entries)) && SanitizedApplies(env, entries, v) && Get(entries, key).Some?
    ensures Assertion(env, key, Sanitize(Get(entries, key).value), v)
    ensures Applies(env, SiblingsOf(entries), OutputKey(key), Sanitize(Get(entries, key).value), v)
  {
    GetIn(entries, key);
    var i :| 0 <= i < |entries| && entries[i] == Entry(key, Get(entries, key).value);
    AssertionKept(env, entries[i].key, entries[i].value, v);
  }

  /** The sanitized object holds if each sanitized keyword applies. */
  lemma ObjectWeaker(env: Env, entries: seq<Entry>, v: Json)
    requires Schema(JObject(entries)) && SanitizedApplies(env, entries, v)
    ensures Valid(env, JObject(Merge(SanitizedEntries(entries))), v)
  {
    var u := Merge(SanitizedEntries(entries));
    SameSiblings(entries);
    forall e <- u
      ensures Limit(env, e.key, e.value, v) && Assertion(env, e.key, e.value, v)
              && Applies(env, SiblingsOf(u), e.key, e.value, v)
    {
      EntryWeaker(env, entries, e, v);
    }
  }

  lemma EntryWeaker(env: Env, entries: seq<Entry>, e: Entry, v: Json)
    requires Schema(JObject(entries)) && SanitizedApplies(env, entries, v) && e in Merge(SanitizedEntries(entries))
    ensures Limit(env, e.key, e.value, v) && Assertion(env, e.key, e.value, v)
    ensures Applies(env, SiblingsOf(entries), e.key, e.value, v)
  {
    SanitizedEntry(entries, e);
    if e.key == AnyOf {
      UnionWeaker(env, entries, e.value, v);
    } else {
      KeywordApplies(env, entries, e.key, v);
    }
  }

  /** An entry of the sanitized object is the joined union or the sanitized value of its own keyword. */
  lemma SanitizedEntry(entries: seq<Entry>, e: Entry)
    requires Schema(JObject(entries)) && e in Merge(SanitizedEntries(entries))
    ensures !Unsupported(e.key) && e.key != OneOf
    ensures if e.key == AnyOf then Union(SanitizedEntries(entries)) == Some(e.value)
            else Get(entries, e.key).Some? && e.value == Sanitize(Get(entries, e.key).value)
  {
    var u := Merge(SanitizedEntries(entries));
    MergeUnique(SanitizedEntries(entries));
    UnionsAreArrays(entries);
    var i :| 0 <= i < |u| && u[i] == e;
    GetUnique(u, i);
    SanitizedKeyword(entries, e.key);
  }

  lemma JoinedBranches(env: Env, near: Siblings, x: seq<Json>, y: seq<Json>, v: Json)
    requires Applies(env, near, AnyOf, JArray(x), v)
    ensures Applies(env, near, AnyOf, JArray(x + y), v) && Applies(env, near, AnyOf, JArray(y + x), v)
  {
    var own := Verdicts(env, JArray(x), v);
    var i :| 0 <= i < |own| && own[i];
    assert (x + y)[i] == x[i] && (y + x)[|y| + i] == x[i];
    assert Verdicts(env, JArray(x + y), v)[i] && Verdicts(env, JArray(y + x), v)[|y| + i];
  }

  /** The sanitized union in terms of the original keywords. */
  lemma UnionShape(entries: seq<Entry>)
    requires Schema(JObject(entries)) && Union(SanitizedEntries(entries)).Some?
    ensures var a, o := Get(entries, AnyOf), Get(entries, OneOf);
            && (a.Some? || o.Some?)
            && (a.Some? ==> Sanitize(a.value).JArray?) && (o.Some? ==> Sanitize(o.value).JArray?)
            && (a.None? ==> Union(SanitizedEntries(entries)) == Some(Sanitize(o.value)))
            && (o.None? ==> Union(SanitizedEntries(entries)) == Some(Sanitize(a.value)))
            && (a.Some? && o.Some? ==>
                  var x, y := Sanitize(a.value).items, Sanitize(o.value).items;
                  || Union(SanitizedEntries(entries)) == Some(JArray(x + y))
                  || Union(SanitizedEntries(entries)) == Some(JArray(y + x)))
  {
    UnionsAreArrays(entries);
    UnionOf(SanitizedEntries(entries));
    SanitizedGet(entries, AnyOf);
    SanitizedGet(entries, OneOf);
  }

  lemma UnionWeaker(env: Env, entries: seq<Entry>, union: Json, v: Json)
    requires Schema(JObject(entries)) && SanitizedApplies(env, entries, v)
    requires Union(SanitizedEntries(entries)) == Some(union)
    ensures Applies(env, SiblingsOf(entries), AnyOf, union, v)
  {
    UnionShape(entries);
    if Get(entries, AnyOf).None? {
      LoneUnionWeaker(env, entries, OneOf, union, v);
    } else if Get(entries, OneOf).None? {
      LoneUnionWeaker(env, entries, AnyOf, union, v);
    } else {
      BothUnionsWeaker(env, entries, v);
    }
  }

  lemma LoneUnionWeaker(env: Env, entries: seq<Entry>, key: Key, union: Json, v: Json)
    requires Schema(JObject(entries)) && SanitizedApplies(env, entries, v)
    requires key in {AnyOf, OneOf} && Get(entries, key).Some? && union == Sanitize(Get(entries, key).value)
    ensures Applies(env, SiblingsOf(entries), AnyOf, union, v)
  {
    KeywordApplies(env, entries, key, v);
  }

  lemma BothUnionsWeaker(env: Env, entries: seq<Entry>, v: Json)
    requires Schema(JObject(entries)) && SanitizedApplies(env, entries, v)
    requires Get(entries, AnyOf).Some? && Get(entries, OneOf).Some?
    requires Sanitize(Get(entries, AnyOf).value).JArray? && Sanitize(Get(entries, OneOf).value).JArray?
    ensures var x, y := Sanitize(Get(entries, AnyOf).value).items, Sanitize(Get(entries, OneOf).value).items;
            && Applies(env, SiblingsOf(entries), AnyOf, JArray(x + y), v)
            && Applies(env, SiblingsOf(entries), AnyOf, JArray(y + x), v)
  {
    var x, y := Sanitize(Get(entries, AnyOf).value).items, Sanitize(Get(entries, OneOf).value).items;
    KeywordApplies(env, entries, AnyOf, v);
    JoinedBranches(env, SiblingsOf(entries), x, y, v);
  }

  // ---------------------------------------------------------------- sanitizing never accepts more

  /** Without a sibling, a union keyword is only renamed. */
  lemma LoneUnion(entries: seq<Entry>)
    requires Schema(JObject(entries)) && (Get(entries, AnyOf).None? || Get(entries, OneOf).None?)
    ensures Union(SanitizedEntries(entries)) ==
              if Get(entries, AnyOf).Some? then Some(Sanitize(Get(entries, AnyOf).value))
              else if Get(entries, OneOf).Some? then Some(Sanitize(Get(entries, OneOf).value)) else None
  {
    UnionsAreArrays(entries);
    SanitizedGet(entries, AnyOf);
    SanitizedGet(entries, OneOf);
    UnionOf(SanitizedEntries(entries));
  }

  /** So each entry becomes exactly one entry. */
  lemma EntryBecomes(entries: seq<Entry>, i: nat)
    requires Schema(JObject(entries)) && i < |entries| && !Unsupported(entries[i].key)
    requires Get(entries, AnyOf).None? || Get(entries, OneOf).None?
    ensures Get(Merge(SanitizedEntries(entries)), OutputKey(entries[i].key)) == Some(Sanitize(entries[i].value))
  {
    GetUnique(entries, i);
    UnionsAreArrays(entries);
    SanitizedKeyword(entries, OutputKey(entries[i].key));
    LoneUnion(entries);
  }

  /** What the sanitized object says about each keyword of the original one. */
  lemma SanitizedKeywordsHold(env: Env, entries: seq<Entry>, i: nat, v: Json)
    requires Schema(JObject(entries)) && (Get(entries, AnyOf).None? || Get(entries, OneOf).None?)
    requires i < |entries| && !Unsupported(entries[i].key)
    requires Valid(env, JObject(Merge(SanitizedEntries(entries))), v)
    ensures Assertion(env, entries[i].key, entries[i].value, v)
    ensures Applies(env, SiblingsOf(entries), OutputKey(entries[i].key), Sanitize(entries[i].value), v)
  {
    SameSiblings(entries);
    EntryBecomes(entries, i);
    GetIn(Merge(SanitizedEntries(entries)), OutputKey(entries[i].key));
    AssertionKept(env, entries[i].key, entries[i].value, v);
  }

  lemma KeywordsMakeObject(env: Env, entries: seq<Entry>, v: Json)
    requires forall i | 0 <= i < |entries| ::
               && !Unsupported(entries[i].key) && Assertion(env, entries[i].key, entries[i].value, v)
               && Applies(env, SiblingsOf(entries), entries[i].key, entries[i].value, v)
    ensures Valid(env, JObject(entries), v)
  {
    forall e <- entries
      ensures Limit(env, e.key, e.value, v) && Assertion(env, e.key, e.value, v)
              && Applies(env, SiblingsOf(entries), e.key, e.value, v)
    {
      var i :| 0 <= i < |entries| && entries[i] == e;
    }
  }

  /** Every value valid under the sanitized form of a schema that must not grow is valid under the schema. */
  lemma {:induction false} SanitizedStronger(env: Env, s: Json, v: Json)
    requires Schema(s) && OneSided(env, s, false) && Valid(env, Sanitize(s), v)
    ensures Valid(env, s, v)
    decreases s, 2
  {
    if s.JObject? {
      SanitizeObject(s.entries);
      KeywordsStronger(env, s.entries, v);
      KeywordsMakeObject(env, s.entries, v);
    }
  }

  lemma {:induction false} KeywordsStronger(env: Env, entries: seq<Entry>, v: Json)
    requires Schema(JObject(entries)) && OneSided(env, JObject(entries), false)
    requires Valid(env, JObject(Merge(SanitizedEntries(entries))), v)
    ensures forall i | 0 <= i < |entries| ::
              && !Unsupported(entries[i].key) && Assertion(env, entries[i].key, entries[i].value, v)
              && Applies(env, SiblingsOf(entries), entries[i].key, entries[i].value, v)
    decreases JObject(entries), 1
  {
    forall i | 0 <= i < |entries|
      ensures Assertion(env, entries[i].key, entries[i].value, v)
      ensures Applies(env, SiblingsOf(entries), entries[i].key, entries[i].value, v)
    {
      SanitizedKeywordsHold(env, entries, i, v);
      KeywordStronger(env, SiblingsOf(entries), entries[i].key, entries[i].value, v);
    }
  }

  lemma {:induction false} KeywordStronger(env: Env, near: Siblings, key: Key, arg: Json, v: Json)
    requires Holds(key, arg) && OneSidedAt(env, key, arg, false)
    requires Applies(env, near, OutputKey(key), Sanitize(arg), v)
    ensures Applies(env, near, key, arg, v)
    decreases arg, 3
  {
    SubschemasSanitized(key, arg);
    if key == Not {
      assert Subschemas(key, arg)[0] == arg;
      if Valid(env, arg, v) {
        SanitizedWeaker(env, arg, v);
      }
    } else {
      forall i, x: Json | 0 <= i < |Subschemas(key, arg)| && Valid(env, Subschemas(key, Sanitize(arg))[i], x)
        ensures Valid(env, Subschemas(key, arg)[i], x)
      {
        SanitizedStronger(env, Subschemas(key, arg)[i], x);
      }
      RenamedStronger(env, near, key, arg, v);
    }
  }

  lemma RenamedStronger(env: Env, near: Siblings, key: Key, arg: Json, v: Json)
    requires key != Not && SameForm(key, arg, Sanitize(arg)) && Wider(env, key, Sanitize(arg), arg)
    requires key == OneOf ==> Disjoint(env, arg.items)
    requires Applies(env, near, OutputKey(key), Sanitize(arg), v)
    ensures Applies(env, near, key, arg, v)
  {
    if key == OneOf {
      assert Wider(env, AnyOf, Sanitize(arg), arg);
      WiderApplies(env, near, AnyOf, Sanitize(arg), arg, v);
      AnyIsOne(env, near, arg, v);
    } else {
      WiderApplies(env, near, key, Sanitize(arg), arg, v);
    }
  }

  // ---------------------------------------------------------------- below a `not`

  function NotOf(t: Json): Json {
    JObject([Entry(Not, t)])
  }

  lemma SanitizedNegation(t: Json)
    ensures Sanitize(NotOf(t)) == NotOf(Sanitize(t))
  {
    var entries := [Entry(Not, t)];
    SanitizeObject(entries);
    assert SanitizedEntries(entries) == [Entry(Not, Sanitize(t))];
    MergeIdentity([Entry(Not, Sanitize(t))]);
  }

  lemma OneEntry(env: Env, e: Entry, v: Json)
    ensures Valid(env, JObject([e]), v) <==>
              Limit(env, e.key, e.value, v) && Assertion(env, e.key, e.value, v)
                && Applies(env, SiblingsOf([e]), e.key, e.value, v)
  {
    assert forall x :: x in [e] <==> x == e;
  }

  lemma NegationMeans(env: Env, t: Json, v: Json)
    ensures Valid(env, NotOf(t), v) <==> !Valid(env, t, v)
  {
    OneEntry(env, Entry(Not, t), v);
  }

  lemma NegationAt(env: Env, t: Json, v: Json)
    ensures Valid(env, NotOf(t), v) <==> !Valid(env, t, v)
    ensures Valid(env, Sanitize(NotOf(t)), v) <==> !Valid(env, Sanitize(t), v)
  {
    SanitizedNegation(t);
    NegationMeans(env, t, v);
    NegationMeans(env, Sanitize(t), v);
  }

  ghost predicate NeverRejectsMore(env: Env, s: Json) {
    forall v: Json | Valid(env, s, v) :: Valid(env, Sanitize(s), v)
  }

  ghost predicate NeverAcceptsMore(env: Env, s: Json) {
    forall v: Json | Valid(env, Sanitize(s), v) :: Valid(env, s, v)
  }

  lemma NegationRejectsNoMore(env: Env, t: Json, v: Json)
    requires NeverAcceptsMore(env, t) && Valid(env, NotOf(t), v)
    ensures Valid(env, Sanitize(NotOf(t)), v)
  {
    NegationAt(env, t, v);
  }

  lemma NegatedAcceptsNoMore(env: Env, t: Json, v: Json)
    requires NeverRejectsMore(env, NotOf(t)) && Valid(env, Sanitize(t), v)
    ensures Valid(env, t, v)
  {
    NegationAt(env, t, v);
  }

  /**
   * At the keyword itself, for any subschema: a negated subschema never rejects more after sanitizing
   * if and only if the sanitized subschema accepts nothing that the subschema rejects.
   */
  lemma NegationExactly(env: Env, t: Json)
    ensures NeverRejectsMore(env, NotOf(t)) <==> NeverAcceptsMore(env, t)
  {
    if NeverAcceptsMore(env, t) {
      forall v: Json | Valid(env, NotOf(t), v)
        ensures Valid(env, Sanitize(NotOf(t)), v)
      {
        NegationRejectsNoMore(env, t, v);
      }
    }
    if NeverRejectsMore(env, NotOf(t)) {
      forall v: Json | Valid(env, Sanitize(t), v) ensures Valid(env, t, v) { NegatedAcceptsNoMore(env, t, v); }
    }
  }

  const LIMITED := JObject([Entry(MinLength, JNumber(3))])
  const SHORT := JString("ab")

  lemma LimitedRejectsShort(env: Env)
    ensures Schema(NotOf(LIMITED)) && !Valid(env, LIMITED, SHORT)
  {
    OneEntry(env, Entry(MinLength, JNumber(3)), SHORT);
    assert Limit(env, MinLength, JNumber(3), SHORT) == false;
  }

  lemma LimitIsDropped(env: Env)
    ensures Sanitize(LIMITED) == JObject([]) && Valid(env, JObject([]), SHORT)
  {
    var limit := Entry(MinLength, JNumber(3));
    SanitizeObject([limit]);
    assert SanitizedEntries([limit]) == [limit];
    assert Merge([limit]) == [];
  }

  /** With `not` the claim fails: a dropped limit below it turns a weaker schema into a stronger one. */
  lemma NegationBreaksIt(env: Env)
    ensures Schema(NotOf(LIMITED)) && Valid(env, NotOf(LIMITED), SHORT) && !Valid(env, Sanitize(NotOf(LIMITED)), SHORT)
  {
    LimitedRejectsShort(env);
    LimitIsDropped(env);
    NegationAt(env, LIMITED, SHORT);
  }

  // ---------------------------------------------------------------- when the meaning is unchanged

  /** No dropped keyword, no anyOf beside a oneOf, and disjoint oneOf branches, all the way down. */
  ghost predicate Exact(env: Env, s: Json)
    decreases s, 0
  {
    match s
    case JObject(entries) =>
      && (Get(entries, AnyOf).None? || Get(entries, OneOf).None?)
      && forall i | 0 <= i < |entries| :: !Unsupported(entries[i].key) && ExactAt(env, entries[i].key, entries[i].value)
    case _ => true
  }

  ghost predicate ExactAt(env: Env, key: Key, arg: Json)
    decreases arg, 1
  {
    && (key == OneOf && arg.JArray? ==> Disjoint(env, arg.items))
    && forall i | 0 <= i < |Subschemas(key, arg)| :: Exact(env, Subschemas(key, arg)[i])
  }

  lemma {:induction false} ExactIsOneSided(env: Env, s: Json, grows: bool)
    requires Exact(env, s)
    ensures OneSided(env, s, grows)
    decreases s, 0
  {
    if s.JObject? {
      forall i | 0 <= i < |s.entries| ensures OneSidedAt(env, s.entries[i].key, s.entries[i].value, grows) {
        ExactKeywordIsOneSided(env, s.entries[i].key, s.entries[i].value, grows);
      }
    }
  }

  lemma {:induction false} ExactKeywordIsOneSided(env: Env, key: Key, arg: Json, grows: bool)
    requires ExactAt(env, key, arg)
    ensures OneSidedAt(env, key, arg, grows)
    decreases arg, 1
  {
    var side := if key == Not then !grows else grows;
    forall i | 0 <= i < |Subschemas(key, arg)| ensures OneSided(env, Subschemas(key, arg)[i], side) {
      ExactIsOneSided(env, Subschemas(key, arg)[i], side);
    }
  }

  /** On both sides at once the meaning is unchanged. */
  lemma SanitizedMeansTheSame(env: Env, s: Json, v: Json)
    requires Schema(s) && Exact(env, s)
    ensures Valid(env, Sanitize(s), v) <==> Valid(env, s, v)
  {
    ExactIsOneSided(env, s, true);
    ExactIsOneSided(env, s, false);
    if Valid(env, s, v) {
      SanitizedWeaker(env, s, v);
    } else if Valid(env, Sanitize(s), v) {
      SanitizedStronger(env, s, v);
    }
  }

  lemma {:induction false} BranchesSame(env: Env, arg: Json, v: Json)
    requires arg.JArray? && forall i | 0 <= i < |arg.items| :: Schema(arg.items[i]) && Exact(env, arg.items[i])
    ensures Sanitize(arg).JArray? && Verdicts(env, Sanitize(arg), v) == Verdicts(env, arg, v)
  {
    forall i | 0 <= i < |arg.items| ensures Valid(env, Sanitize(arg.items[i]), v) <==> Valid(env, arg.items[i], v) {
      SanitizedMeansTheSame(env, arg.items[i], v);
    }
  }

  lemma OneOfBecomesAnyOf(branches: seq<Json>)
    ensures Sanitize(JObject([Entry(OneOf, JArray(branches))])) == JObject([Entry(AnyOf, Sanitize(JArray(branches)))])
  {
    var entry := Entry(OneOf, JArray(branches));
    SanitizeObject([entry]);
    assert SanitizedEntries([entry]) == [Entry(OneOf, Sanitize(JArray(branches)))];
  }

  lemma RewrittenUnionAt(env: Env, branches: seq<Json>, v: Json)
    requires forall i | 0 <= i < |branches| :: Schema(branches[i]) && Exact(env, branches[i])
    ensures var s := JObject([Entry(OneOf, JArray(branches))]);
            && (Valid(env, s, v) <==> OneHolds(Verdicts(env, JArray(branches), v)))
            && (Valid(env, Sanitize(s), v) <==> AnyHolds(Verdicts(env, JArray(branches), v)))
  {
    OneOfBecomesAnyOf(branches);
    OneEntry(env, Entry(OneOf, JArray(branches)), v);
    SanitizedUnionAt(env, branches, v);
  }

  lemma SanitizedUnionAt(env: Env, branches: seq<Json>, v: Json)
    requires forall i | 0 <= i < |branches| :: Schema(branches[i]) && Exact(env, branches[i])
    ensures Valid(env, JObject([Entry(AnyOf, Sanitize(JArray(branches)))]), v)
            <==> AnyHolds(Verdicts(env, JArray(branches), v))
  {
    BranchesSame(env, JArray(branches), v);
    OneEntry(env, Entry(AnyOf, Sanitize(JArray(branches))), v);
  }

  lemma TwoHold(verdicts: seq<bool>, i: nat, j: nat)
    requires i < |verdicts| && j < |verdicts| && i != j && verdicts[i] && verdicts[j]
    ensures AnyHolds(verdicts) && !OneHolds(verdicts)
  {}

  lemma DisjointVerdicts(env: Env, branches: seq<Json>, v: Json)
    requires Disjoint(env, branches)
    ensures AnyHolds(Verdicts(env, JArray(branches), v)) <==> OneHolds(Verdicts(env, JArray(branches), v))
  {
    AtMostOneHolds(Verdicts(env, JArray(branches), v));
  }

  /** For a union of exact branches, rewriting oneOf keeps the meaning if and only if the branches are disjoint. */
  lemma OneOfNeedsDisjointBranches(env: Env, branches: seq<Json>)
    requires forall i | 0 <= i < |branches| :: Schema(branches[i]) && Exact(env, branches[i])
    ensures var s := JObject([Entry(OneOf, JArray(branches))]);
            (forall v: Json :: Valid(env, Sanitize(s), v) <==> Valid(env, s, v)) <==> Disjoint(env, branches)
  {
    var s := JObject([Entry(OneOf, JArray(branches))]);
    if Disjoint(env, branches) {
      forall v: Json ensures Valid(env, Sanitize(s), v) <==> Valid(env, s, v) {
        RewrittenUnionAt(env, branches, v);
        DisjointVerdicts(env, branches, v);
      }
    } else {
      var i, j, v: Json :| 0 <= i < |branches| && 0 <= j < |branches| && i != j && Valid(env, branches[i], v)
        && Valid(env, branches[j], v);
      RewrittenUnionAt(env, branches, v);
      TwoHold(Verdicts(env, JArray(branches), v), i, j);
    }
  }
}

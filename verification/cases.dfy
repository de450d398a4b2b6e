/**
  The case repository of src/stores/cases.ts: an ordered list of saved cases,
  mirrored after every mutation to one `localStorage` key as a JSON document.
  Each action is a pure function from the current store to the next one; the
  clock (`Date.now()`), the random id fragment (`Math.random()`) and the JSON
  serialiser are explicit parameters.
 */
module Cases {
  import opened Wrappers
  import opened Seqs
  import opened Persistence
  import opened Schema

  /** The `localStorage` key holding the serialised case list. */
  const StorageKey: string := "drag-3d-cases"

  /** The name a case gets when `createCase` is called without one. */
  const DefaultName: string := "未命名模型"

  const IdPrefix: string := "case-"

  datatype Case = Case(
    id: string,
    name: string,
    description: Option<string>,
    elements: seq<Element>,
    thumbnail: Option<string>,
    ownerName: Option<string>,
    ownerId: Option<int>,
    createdAt: int,
    updatedAt: int)

  /** The optional owner descriptor handed to `createCase`. */
  datatype Owner = Owner(ownerName: Option<string>, ownerId: Option<int>)

  /** The store's state: the in-memory case list and the browser storage it is mirrored to. */
  datatype Store = Store(cases: seq<Case>, storage: Storage)

  /** The store after an action, together with what the action returns. */
  datatype Step<R> = Step(store: Store, result: R)

  type CasesCodec = Codec<seq<Case>>

  // ---------------------------------------------------------------------------
  // Vocabulary for the contracts
  // ---------------------------------------------------------------------------

  /** The storage key holds exactly the serialisation of the in-memory list. */
  ghost predicate Synced(s: Store, codec: CasesCodec) {
    StorageKey in s.storage && s.storage[StorageKey] == codec.encode(s.cases)
  }

  ghost predicate HasId(cs: seq<Case>, id: string) {
    exists i :: 0 <= i < |cs| && cs[i].id == id
  }

  /** `i` is the position of the first case carrying `id`. */
  ghost predicate FirstWithId(cs: seq<Case>, i: int, id: string) {
    0 <= i < |cs| && cs[i].id == id && forall j :: 0 <= j < i ==> cs[j].id != id
  }

  ghost predicate DistinctIds(cs: seq<Case>) {
    forall i, j :: 0 <= i < j < |cs| ==> cs[i].id != cs[j].id
  }

  ghost function Ids(cs: seq<Case>): set<string> {
    set i | 0 <= i < |cs| :: cs[i].id
  }

  /** The stored document is present, non-empty (truthy) and parses. */
  ghost predicate Loadable(storage: Storage, codec: CasesCodec) {
    StorageKey in storage && storage[StorageKey] != "" && codec.decode(storage[StorageKey]).Some?
  }

  // ---------------------------------------------------------------------------
  // Case ids: `case-${Date.now()}-${random base-36 fragment}`
  // ---------------------------------------------------------------------------

  predicate IsDigit(ch: char) {
    '0' <= ch <= '9'
  }

  predicate AllDigits(s: string) {
    forall i :: 0 <= i < |s| ==> IsDigit(s[i])
  }

  /** Decimal rendering of a timestamp, as template-literal interpolation of a number produces it. */
  function Decimal(n: nat): (r: string)
    ensures |r| >= 1 && AllDigits(r)
    ensures n < 10 <==> |r| == 1
    decreases n
  {
    if n < 10 then [('0' as int + n) as char]
    else Decimal(n / 10) + [('0' as int + n % 10) as char]
  }

  /** The number a string of decimal digits denotes. */
  function DecimalValue(s: string): nat
    requires AllDigits(s)
    decreases |s|
  {
    if |s| == 0 then 0
    else DecimalValue(s[..|s| - 1]) * 10 + (s[|s| - 1] as int - '0' as int)
  }

  lemma {:induction false} DecimalRoundTrip(n: nat)
    ensures DecimalValue(Decimal(n)) == n
    decreases n
  {
    if n >= 10 {
      DecimalRoundTrip(n / 10);
      var d := Decimal(n);
      assert d[..|d| - 1] == Decimal(n / 10);
    }
  }

  /** The id `createCase` generates: the prefix, the decimal timestamp, a dash, and the random fragment. */
  function NewId(stamp: nat, suffix: string): (id: string)
    ensures |id| == |IdPrefix| + |Decimal(stamp)| + 1 + |suffix|
    ensures id[..|IdPrefix|] == IdPrefix
    ensures DigitRun(id[|IdPrefix|..]) == |Decimal(stamp)| && id[|IdPrefix| + |Decimal(stamp)|] == '-'
    ensures id[|id| - |suffix|..] == suffix
  {
    DigitRunStopsAtDash(Decimal(stamp), suffix);
    assert (IdPrefix + Decimal(stamp) + "-" + suffix)[|IdPrefix|..] == Decimal(stamp) + "-" + suffix;
    IdPrefix + Decimal(stamp) + "-" + suffix
  }

  /** Length of the run of decimal digits a string starts with. */
  function DigitRun(s: string): nat
    decreases |s|
  {
    if |s| == 0 || !IsDigit(s[0]) then 0 else 1 + DigitRun(s[1..])
  }

  /** In `digits + "-" + rest`, the digit run ends exactly at the dash. */
  lemma {:induction false} DigitRunStopsAtDash(digits: string, rest: string)
    requires AllDigits(digits)
    ensures DigitRun(digits + "-" + rest) == |digits|
    decreases |digits|
  {
    if |digits| > 0 {
      DigitRunStopsAtDash(digits[1..], rest);
      assert (digits + "-" + rest)[1..] == digits[1..] + "-" + rest;
    }
  }

  /** Two generated ids coincide only when both the timestamp and the random fragment do. */
  lemma NewIdInjective(t1: nat, s1: string, t2: nat, s2: string)
    requires NewId(t1, s1) == NewId(t2, s2)
    ensures t1 == t2 && s1 == s2
  {
    var a, b := Decimal(t1), Decimal(t2);
    var x, y := a + "-" + s1, b + "-" + s2;
    assert NewId(t1, s1) == IdPrefix + x && NewId(t2, s2) == IdPrefix + y;
    assert x == NewId(t1, s1)[|IdPrefix|..] == y;
    DigitRunStopsAtDash(a, s1);
    DigitRunStopsAtDash(b, s2);
    assert a == x[..|a|] == y[..|b|] == b;
    assert s1 == x[|a| + 1..] == y[|b| + 1..] == s2;
    DecimalRoundTrip(t1);
    DecimalRoundTrip(t2);
  }

  // ---------------------------------------------------------------------------
  // Persistence
  // ---------------------------------------------------------------------------

  /** `saveToLocalStorage`: rewrites the whole document under the store's key and nothing else. */
  function Save(s: Store, codec: CasesCodec): (r: Store)
    ensures r.cases == s.cases
    ensures Synced(r, codec)
    ensures SameExcept(s.storage, r.storage, StorageKey)
  {
    s.(storage := s.storage[StorageKey := codec.encode(s.cases)])
  }

  /**
    `initialize`: replaces the list by the stored one when the key holds a
    non-empty document that parses; a missing, empty or unparsable document
    leaves the list as it was. Storage is only read.
   */
  function Initialize(s: Store, codec: CasesCodec): (r: Store)
    ensures r.storage == s.storage
    ensures Loadable(s.storage, codec) ==> codec.decode(s.storage[StorageKey]) == Some(r.cases)
    ensures !Loadable(s.storage, codec) ==> r.cases == s.cases
  {
    if StorageKey in s.storage && s.storage[StorageKey] != "" then
      match codec.decode(s.storage[StorageKey])
      case Some(cs) => s.(cases := cs)
      case None => s
    else s
  }

  /** A store whose storage is in sync reloads to the same list, whatever list the loader started from. */
  lemma ReloadRestores(s: Store, codec: CasesCodec, start: seq<Case>)
    requires RoundTrips(codec, s.cases)
    requires Synced(s, codec)
    ensures Initialize(Store(start, s.storage), codec).cases == s.cases
  {
  }

  /** Save followed by initialize restores the same list. */
  lemma SaveThenInitialize(s: Store, codec: CasesCodec)
    requires RoundTrips(codec, s.cases)
    ensures Initialize(Save(s, codec), codec) == Save(s, codec)
  {
    ReloadRestores(Save(s, codec), codec, s.cases);
  }

  // ---------------------------------------------------------------------------
  // Queries
  // ---------------------------------------------------------------------------

  /** `getAllCases`: the list itself, in insertion order. */
  function GetAllCases(s: Store): (r: seq<Case>)
    ensures r == GetCasesByOwner(s, None, None)
    ensures forall id :: HasId(r, id) <==> GetCaseById(s, id).Some?
  {
    s.cases
  }

  /** Position of the first case with the given id, or -1 (`findIndex`). */
  function IndexOf(cs: seq<Case>, id: string): (r: int)
    ensures r == -1 <==> !HasId(cs, id)
    ensures r != -1 ==> FirstWithId(cs, r, id)
  {
    FirstIndex(cs, (c: Case) => c.id == id)
  }

  /** `getCaseById`: the first case with the given id, or null. */
  function GetCaseById(s: Store, id: string): (r: Option<Case>)
    ensures r.None? <==> !HasId(s.cases, id)
    ensures r.Some? ==> exists i :: FirstWithId(s.cases, i, id) && s.cases[i] == r.value
  {
    var i := IndexOf(s.cases, id);
    if i == -1 then None else Some(s.cases[i])
  }

  /** JavaScript truthiness of an optional string: `undefined` and `''` are falsy. */
  predicate NameTruthy(n: Option<string>) {
    n.Some? && n.value != ""
  }

  /** JavaScript truthiness of an optional number: `undefined` and `0` are falsy. */
  predicate IdTruthy(n: Option<int>) {
    n.Some? && n.value != 0
  }

  /**
    The filter `getCasesByOwner` applies: the name must match when the name
    argument is truthy, and the id must match whenever an id argument is a
    number at all, including 0.
   */
  predicate OwnerMatches(c: Case, ownerName: Option<string>, ownerId: Option<int>) {
    (NameTruthy(ownerName) ==> c.ownerName == ownerName) &&
    (ownerId.Some? ==> c.ownerId == ownerId)
  }

  /** `getCasesByOwner`. */
  function GetCasesByOwner(s: Store, ownerName: Option<string>, ownerId: Option<int>): (r: seq<Case>)
    ensures !NameTruthy(ownerName) && !IdTruthy(ownerId) ==> r == s.cases
    ensures NameTruthy(ownerName) || IdTruthy(ownerId) ==>
      IsSubsequence(r, s.cases) &&
      forall c :: multiset(r)[c] == if OwnerMatches(c, ownerName, ownerId) then multiset(s.cases)[c] else 0
  {
    if !NameTruthy(ownerName) && !IdTruthy(ownerId) then s.cases
    else
      var p := (c: Case) => OwnerMatches(c, ownerName, ownerId);
      FilterIsSubsequence(s.cases, p);
      assert forall c :: multiset(Filter(s.cases, p))[c] == if p(c) then multiset(s.cases)[c] else 0 by {
        forall c {
          FilterCount(s.cases, p, c);
        }
      }
      Filter(s.cases, p)
  }

  // ---------------------------------------------------------------------------
  // Mutations
  // ---------------------------------------------------------------------------

  /**
    `createCase`: builds a fresh record from the arguments (defaults: the
    placeholder name and no elements), appends it, persists, and returns it.
    `stamp`, `createdNow` and `updatedNow` are the three `Date.now()` readings
    of the source; `suffix` is the random base-36 fragment of the id.
   */
  function CreateCase(s: Store, codec: CasesCodec, name: Option<string>, elements: Option<seq<Element>>,
                      owner: Option<Owner>, stamp: nat, suffix: string, createdNow: nat, updatedNow: nat)
    : (r: Step<Case>)
    ensures r.store.cases == s.cases + [r.result]
    ensures r.result.id == NewId(stamp, suffix)
    ensures r.result.name == (if name.Some? then name.value else DefaultName)
    ensures r.result.elements == (if elements.Some? then elements.value else [])
    ensures owner.None? ==> r.result.ownerName.None? && r.result.ownerId.None?
    ensures owner.Some? ==> r.result.ownerName == owner.value.ownerName && r.result.ownerId == owner.value.ownerId
    ensures r.result.description.None? && r.result.thumbnail.None?
    ensures r.result.createdAt == createdNow && r.result.updatedAt == updatedNow
    ensures Synced(r.store, codec) && SameExcept(s.storage, r.store.storage, StorageKey)
  {
    var created := Case(
      NewId(stamp, suffix),
      name.GetOr(DefaultName),
      None,
      elements.GetOr([]),
      None,
      if owner.Some? then owner.value.ownerName else None,
      if owner.Some? then owner.value.ownerId else None,
      createdNow,
      updatedNow);
    Step(Save(s.(cases := s.cases + [created]), codec), created)
  }

  /**
    `updateCase`: replaces the first case with the same id by the supplied
    record, stamped with `now` as `updatedAt`, and persists; an unknown id
    changes nothing (storage is not written) and yields false.
   */
  function UpdateCase(s: Store, codec: CasesCodec, updated: Case, now: nat): (r: Step<bool>)
    ensures r.result <==> HasId(s.cases, updated.id)
    ensures !r.result ==> r.store == s
    ensures r.result ==>
      exists i :: FirstWithId(s.cases, i, updated.id) &&
        r.store.cases == s.cases[i := updated.(updatedAt := now)]
    ensures r.result ==> Synced(r.store, codec) && SameExcept(s.storage, r.store.storage, StorageKey)
  {
    var i := IndexOf(s.cases, updated.id);
    if i == -1 then Step(s, false)
    else Step(Save(s.(cases := s.cases[i := updated.(updatedAt := now)]), codec), true)
  }

  /** `deleteCase`: drops every case with the id, keeps the rest in order, and always persists. */
  function DeleteCase(s: Store, codec: CasesCodec, id: string): (r: Store)
    ensures !HasId(r.cases, id)
    ensures IsSubsequence(r.cases, s.cases)
    ensures forall c :: multiset(r.cases)[c] == if c.id == id then 0 else multiset(s.cases)[c]
    ensures Synced(r, codec) && SameExcept(s.storage, r.storage, StorageKey)
  {
    var p := (c: Case) => c.id != id;
    FilterIsSubsequence(s.cases, p);
    assert forall c :: multiset(Filter(s.cases, p))[c] == if p(c) then multiset(s.cases)[c] else 0 by {
      forall c {
        FilterCount(s.cases, p, c);
      }
    }
    Save(s.(cases := Filter(s.cases, p)), codec)
  }

  /**
    `generateThumbnail`: sets the thumbnail of the first case with the id and
    persists; every other field and every other case is untouched. An unknown
    id changes nothing and yields false.
   */
  function GenerateThumbnail(s: Store, codec: CasesCodec, id: string, data: string): (r: Step<bool>)
    ensures r.result <==> HasId(s.cases, id)
    ensures !r.result ==> r.store == s
    ensures r.result ==>
      exists i :: FirstWithId(s.cases, i, id) &&
        r.store.cases == s.cases[i := s.cases[i].(thumbnail := Some(data))]
    ensures r.result ==> Synced(r.store, codec) && SameExcept(s.storage, r.store.storage, StorageKey)
  {
    var i := IndexOf(s.cases, id);
    if i == -1 then Step(s, false)
    else Step(Save(s.(cases := s.cases[i := s.cases[i].(thumbnail := Some(data))]), codec), true)
  }

  // ---------------------------------------------------------------------------
  // Properties relating several actions
  // ---------------------------------------------------------------------------

  /** The first position carrying an id is unique. */
  lemma FirstWithIdUnique(cs: seq<Case>, i: int, j: int, id: string)
    requires FirstWithId(cs, i, id) && FirstWithId(cs, j, id)
    ensures i == j
  {
  }

  /**
    A case created with an id no existing case carries is found again by that
    id, the list grows by exactly one, and ids stay pairwise distinct.
   */
  lemma CreateThenGet(s: Store, codec: CasesCodec, name: Option<string>, elements: Option<seq<Element>>,
                      owner: Option<Owner>, stamp: nat, suffix: string, createdNow: nat, updatedNow: nat)
    requires !HasId(s.cases, NewId(stamp, suffix))
    ensures var r := CreateCase(s, codec, name, elements, owner, stamp, suffix, createdNow, updatedNow);
      && |GetAllCases(r.store)| == |GetAllCases(s)| + 1
      && GetCaseById(r.store, r.result.id) == Some(r.result)
      && (DistinctIds(s.cases) ==> DistinctIds(r.store.cases))
  {
    var r := CreateCase(s, codec, name, elements, owner, stamp, suffix, createdNow, updatedNow);
    var cs := r.store.cases;
    assert FirstWithId(cs, |s.cases|, r.result.id);
    var i :| FirstWithId(cs, i, r.result.id) && cs[i] == GetCaseById(r.store, r.result.id).value;
    FirstWithIdUnique(cs, i, |s.cases|, r.result.id);
  }

  /** After a successful update, looking the id up yields the supplied record stamped with the update time. */
  lemma UpdateThenGet(s: Store, codec: CasesCodec, updated: Case, now: nat)
    requires HasId(s.cases, updated.id)
    ensures GetCaseById(UpdateCase(s, codec, updated, now).store, updated.id) == Some(updated.(updatedAt := now))
  {
    var r := UpdateCase(s, codec, updated, now);
    var i :| FirstWithId(s.cases, i, updated.id) && r.store.cases == s.cases[i := updated.(updatedAt := now)];
    assert FirstWithId(r.store.cases, i, updated.id);
    var j :| FirstWithId(r.store.cases, j, updated.id) &&
      r.store.cases[j] == GetCaseById(r.store, updated.id).value;
    FirstWithIdUnique(r.store.cases, i, j, updated.id);
  }

  /** Updating never changes which ids are present, so it keeps ids pairwise distinct. */
  lemma UpdateKeepsIds(s: Store, codec: CasesCodec, updated: Case, now: nat)
    ensures Ids(UpdateCase(s, codec, updated, now).store.cases) == Ids(s.cases)
    ensures DistinctIds(s.cases) ==> DistinctIds(UpdateCase(s, codec, updated, now).store.cases)
  {
    var r := UpdateCase(s, codec, updated, now);
    if r.result {
      var i :| FirstWithId(s.cases, i, updated.id) && r.store.cases == s.cases[i := updated.(updatedAt := now)];
      var cs, ds := s.cases, r.store.cases;
      assert forall k :: 0 <= k < |cs| ==> ds[k].id == cs[k].id;
      assert Ids(ds) == Ids(cs) by {
        forall x | x in Ids(ds) ensures x in Ids(cs) {
          var k :| 0 <= k < |ds| && ds[k].id == x;
          assert cs[k].id == x;
        }
        forall x | x in Ids(cs) ensures x in Ids(ds) {
          var k :| 0 <= k < |cs| && cs[k].id == x;
          assert ds[k].id == x;
        }
      }
    }
  }

  /** Deleting the same id twice leaves the same store as deleting it once. */
  lemma {:induction false} DeleteIdempotent(s: Store, codec: CasesCodec, id: string)
    ensures DeleteCase(DeleteCase(s, codec, id), codec, id) == DeleteCase(s, codec, id)
  {
    FilterIdempotent(s.cases, (c: Case) => c.id != id);
  }

  /** After a successful thumbnail patch, the first case with the id carries the new thumbnail and nothing else changed. */
  lemma ThumbnailThenGet(s: Store, codec: CasesCodec, id: string, data: string)
    requires HasId(s.cases, id)
    ensures var before := GetCaseById(s, id);
      var after := GetCaseById(GenerateThumbnail(s, codec, id, data).store, id);
      && before.Some? && after.Some?
      && after.value == before.value.(thumbnail := Some(data))
  {
    var r := GenerateThumbnail(s, codec, id, data);
    var i :| FirstWithId(s.cases, i, id) && r.store.cases == s.cases[i := s.cases[i].(thumbnail := Some(data))];
    assert FirstWithId(r.store.cases, i, id);
    var j :| FirstWithId(r.store.cases, j, id) && r.store.cases[j] == GetCaseById(r.store, id).value;
    FirstWithIdUnique(r.store.cases, i, j, id);
    var k :| FirstWithId(s.cases, k, id) && s.cases[k] == GetCaseById(s, id).value;
    FirstWithIdUnique(s.cases, i, k, id);
  }

  /** After an update of an in-sync store, a fresh store over the same storage reloads the updated list. */
  lemma UpdateReloads(s: Store, codec: CasesCodec, c: Case, now: nat)
    requires Synced(s, codec)
    requires RoundTrips(codec, UpdateCase(s, codec, c, now).store.cases)
    ensures var u := UpdateCase(s, codec, c, now).store;
      Initialize(Store([], u.storage), codec).cases == u.cases
  {
    ReloadRestores(UpdateCase(s, codec, c, now).store, codec, []);
  }

  /** After a delete, a fresh store over the same storage reloads the remaining list. */
  lemma DeleteReloads(s: Store, codec: CasesCodec, id: string)
    requires RoundTrips(codec, DeleteCase(s, codec, id).cases)
    ensures var d := DeleteCase(s, codec, id);
      Initialize(Store([], d.storage), codec).cases == d.cases
  {
    ReloadRestores(DeleteCase(s, codec, id), codec, []);
  }

  /** After a thumbnail patch of an in-sync store, a fresh store over the same storage reloads the patched list. */
  lemma ThumbnailReloads(s: Store, codec: CasesCodec, id: string, data: string)
    requires Synced(s, codec)
    requires RoundTrips(codec, GenerateThumbnail(s, codec, id, data).store.cases)
    ensures var g := GenerateThumbnail(s, codec, id, data).store;
      Initialize(Store([], g.storage), codec).cases == g.cases
  {
    ReloadRestores(GenerateThumbnail(s, codec, id, data).store, codec, []);
  }

  /**
    The truthiness quirks of `getCasesByOwner`: an empty name with no id, or an
    id of 0 with no name, counts as "no filter"; but 0 next to a truthy name is
    a real filter on the id.
   */
  lemma OwnerQueryQuirks(s: Store, name: string)
    requires name != ""
    ensures GetCasesByOwner(s, Some(""), None) == s.cases
    ensures GetCasesByOwner(s, None, Some(0)) == s.cases
    ensures GetCasesByOwner(s, Some(""), Some(0)) == s.cases
    ensures forall c :: c in GetCasesByOwner(s, Some(name), Some(0)) <==>
      c in s.cases && c.ownerName == Some(name) && c.ownerId == Some(0)
  {
    forall c ensures c in GetCasesByOwner(s, Some(name), Some(0)) <==>
      c in s.cases && c.ownerName == Some(name) && c.ownerId == Some(0)
    {
      FilterMembership(s.cases, (c: Case) => OwnerMatches(c, Some(name), Some(0)), c);
    }
  }

  /** Querying by a non-empty name alone keeps exactly the cases owned under that name. */
  lemma OwnerQueryByName(s: Store, name: string, c: Case)
    requires name != ""
    ensures c in GetCasesByOwner(s, Some(name), None) <==> c in s.cases && c.ownerName == Some(name)
  {
    FilterMembership(s.cases, (c: Case) => OwnerMatches(c, Some(name), None), c);
  }
}

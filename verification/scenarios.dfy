/** End-to-end flows across the template catalog and the case repository. */
module Scenarios {
  import opened Wrappers
  import opened Schema
  import opened Cases
  import opened Templates

  /**
    Creating an unnamed case from the `basic-3d` template grows the list by one,
    and the case found under the new id has the placeholder name and the
    template's three elements.
   */
  lemma CreateFromBasicTemplate(s: Store, codec: CasesCodec, owner: Option<Owner>, stamp: nat, suffix: string,
                                createdNow: nat, updatedNow: nat)
    requires !HasId(s.cases, NewId(stamp, suffix))
    ensures var t := GetTemplateById("3d", "basic-3d");
      && t.Some? && t.value.data.Scene?
      && var r := CreateCase(s, codec, None, Some(t.value.data.elements), owner, stamp, suffix, createdNow, updatedNow);
         && |GetAllCases(r.store)| == |GetAllCases(s)| + 1
         && var found := GetCaseById(r.store, r.result.id);
            found.Some? && found.value.name == DefaultName && |found.value.elements| == 3
  {
    LookupFindsEachEntry(0);
    SceneContents();
    var t := GetTemplateById("3d", "basic-3d");
    CreateThenGet(s, codec, None, Some(t.value.data.elements), owner, stamp, suffix, createdNow, updatedNow);
  }

  /** Renaming a stored case through `updateCase` at a later time is visible to lookups, with `updatedAt` past `createdAt`. */
  lemma RenameThenGet(s: Store, codec: CasesCodec, c: Case, newName: string, now: nat)
    requires HasId(s.cases, c.id)
    requires c.createdAt < now
    ensures var found := GetCaseById(UpdateCase(s, codec, c.(name := newName), now).store, c.id);
      found.Some? && found.value.name == newName && found.value.updatedAt > found.value.createdAt
  {
    UpdateThenGet(s, codec, c.(name := newName), now);
  }
}

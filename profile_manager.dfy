/** `ProfileManager`: create, edit, toggle, delete and list profiles over the persistence
    layer. Each operation is first given as a function on the dictionary value; the class
    methods are proved to perform exactly that function on the stored dictionary. */
module ProfileRegistry {
  import opened ProfileStore

  /** Every record is stored under its own fingerprint. */
  ghost predicate KeysMatch(t: Table) {
    forall k :: k in t.entries ==> t.entries[k].fingerprint == k
  }

  /** `create_profile` with `fingerprint` standing for the fresh `uuid4` string. */
  function Create(t: Table, fingerprint: string, name: string, proxy: Proxy): Table
  {
    Put(t, fingerprint, Profile(fingerprint, name, proxy, false))
  }

  /** The `active` flag `edit_profile` keeps: the stored one, or false for an unknown id. */
  function ActiveOf(t: Table, fingerprint: string): bool
  {
    if fingerprint in t.entries then t.entries[fingerprint].active else false
  }

  /** `edit_profile`: writes a record under `fingerprint` whether or not one was there. */
  function Edit(t: Table, fingerprint: string, name: string, proxy: Proxy): Table
  {
    Put(t, fingerprint, Profile(fingerprint, name, proxy, ActiveOf(t, fingerprint)))
  }

  /** `toggle_profile_status`: the new dictionary and the returned record (None for an unknown id). */
  function Toggle(t: Table, fingerprint: string): (Table, Option<Profile>)
  {
    if fingerprint in t.entries then
      var p := t.entries[fingerprint].(active := !t.entries[fingerprint].active);
      (Put(t, fingerprint, p), Some(p))
    else
      (t, None)
  }

  /** Creating with a fresh fingerprint adds one inactive record with the given fields,
      listed last, and leaves every other record alone. */
  lemma CreateSpec(t: Table, fingerprint: string, name: string, proxy: Proxy)
    requires WellFormed(t) && fingerprint !in t.entries
    ensures var r := Create(t, fingerprint, name, proxy);
      && WellFormed(r)
      && fingerprint in r.entries
      && r.entries[fingerprint].fingerprint == fingerprint
      && r.entries[fingerprint].name == name
      && r.entries[fingerprint].proxy == proxy
      && !r.entries[fingerprint].active
      && |r.entries| == |t.entries| + 1
      && Values(r) == Values(t) + [r.entries[fingerprint]]
      && (forall k :: k in t.entries ==> k in r.entries && r.entries[k] == t.entries[k])
  {
    var r := Create(t, fingerprint, name, proxy);
    ValuesPutNew(t, fingerprint, Profile(fingerprint, name, proxy, false));
    assert r.entries.Keys == t.entries.Keys + {fingerprint};
  }

  /** Editing replaces name and proxy, keeps fingerprint and `active`, and touches no
      other record; an unknown id is inserted, inactive, at the end of the listing. */
  lemma EditSpec(t: Table, fingerprint: string, name: string, proxy: Proxy)
    requires WellFormed(t)
    ensures var r := Edit(t, fingerprint, name, proxy);
      && WellFormed(r)
      && fingerprint in r.entries
      && r.entries[fingerprint].fingerprint == fingerprint
      && r.entries[fingerprint].name == name
      && r.entries[fingerprint].proxy == proxy
      && (fingerprint in t.entries ==> r.entries[fingerprint].active == t.entries[fingerprint].active)
      && (fingerprint in t.entries ==> r.order == t.order && |r.entries| == |t.entries|)
      && (fingerprint !in t.entries ==> !r.entries[fingerprint].active && |r.entries| == |t.entries| + 1)
      && (fingerprint !in t.entries ==> Values(r) == Values(t) + [r.entries[fingerprint]])
      && (forall k :: k != fingerprint ==> (k in r.entries <==> k in t.entries))
      && (forall k :: k != fingerprint && k in t.entries ==> r.entries[k] == t.entries[k])
  {
    var r := Edit(t, fingerprint, name, proxy);
    if fingerprint in t.entries {
      assert r.entries.Keys == t.entries.Keys;
    } else {
      ValuesPutNew(t, fingerprint, r.entries[fingerprint]);
      assert r.entries.Keys == t.entries.Keys + {fingerprint};
    }
  }

  /** Toggling a known id negates its `active` flag, changes no other field and no other
      record, keeps the order, and returns the updated record; an unknown id returns
      None and leaves the dictionary as it was. */
  lemma ToggleSpec(t: Table, fingerprint: string)
    requires WellFormed(t)
    ensures var (r, p) := Toggle(t, fingerprint);
      && WellFormed(r)
      && r.order == t.order
      && (r.entries.Keys == t.entries.Keys)
      && (fingerprint !in t.entries <==> p == None)
      && (fingerprint !in t.entries ==> r == t)
      && (fingerprint in t.entries ==>
            && p == Some(r.entries[fingerprint])
            && r.entries[fingerprint].active == !t.entries[fingerprint].active
            && r.entries[fingerprint].(active := t.entries[fingerprint].active) == t.entries[fingerprint])
      && (forall k :: k != fingerprint && k in t.entries ==> r.entries[k] == t.entries[k])
  {
  }

  /** Toggling the same id twice gives back the original dictionary. */
  lemma ToggleTwice(t: Table, fingerprint: string)
    requires WellFormed(t)
    ensures Toggle(Toggle(t, fingerprint).0, fingerprint).0 == t
  {
    if fingerprint in t.entries {
      var r := Toggle(Toggle(t, fingerprint).0, fingerprint).0;
      assert r.entries == t.entries;
    }
  }

  /** After a delete no listed record carries the deleted fingerprint, and every other
      record is still listed. */
  lemma DeleteSpec(t: Table, fingerprint: string)
    requires WellFormed(t) && KeysMatch(t)
    ensures var r := Remove(t, fingerprint);
      && WellFormed(r) && KeysMatch(r)
      && |r.entries| == (if fingerprint in t.entries then |t.entries| - 1 else |t.entries|)
      && (forall p :: p in Values(r) ==> p.fingerprint != fingerprint)
      && (forall p :: p in Values(t) && p.fingerprint != fingerprint ==> p in Values(r))
  {
    var r := Remove(t, fingerprint);
    if fingerprint in t.entries {
      assert r.entries.Keys == t.entries.Keys - {fingerprint};
    }
    forall p | p in Values(r) ensures p.fingerprint != fingerprint {
      ValuesHoldEntries(r, p);
    }
    forall p | p in Values(t) && p.fingerprint != fingerprint ensures p in Values(r) {
      ValuesHoldEntries(t, p);
      ValuesHoldEntries(r, p);
    }
  }

  /** Every registry operation keeps each record under its own fingerprint. */
  lemma OperationsKeepKeysMatch(t: Table, fingerprint: string, name: string, proxy: Proxy)
    requires KeysMatch(t)
    ensures KeysMatch(Create(t, fingerprint, name, proxy))
    ensures KeysMatch(Edit(t, fingerprint, name, proxy))
    ensures KeysMatch(Toggle(t, fingerprint).0)
    ensures KeysMatch(Remove(t, fingerprint))
  {
  }

  /** `ProfileManager`: the registry over one persistence layer. */
  class ProfileManager {
    const persistence: PersistenceLayer

    ghost predicate Valid()
      reads this, persistence
    {
      persistence.Valid()
    }

    constructor (persistence: PersistenceLayer)
      requires persistence.Valid()
      ensures Valid() && this.persistence == persistence
    {
      this.persistence := persistence;
    }

    /** `create_profile`; `fingerprint` is the fresh `uuid4` string, unused so far. */
    method CreateProfile(fingerprint: string, name: string, ip: string, port: string,
                         user: string, pass: string, outcome: SaveOutcome)
      returns (profile: Profile)
      requires Valid() && fingerprint !in persistence.data
      modifies persistence
      ensures Valid()
      ensures profile == Profile(fingerprint, name, Proxy(ip, port, user, pass), false)
      ensures persistence.GetProfiles() == Create(old(persistence.GetProfiles()), fingerprint, name, profile.proxy)
      ensures persistence.file == SavedFile(old(persistence.file), persistence.GetProfiles(), outcome)
    {
      profile := Profile(fingerprint, name, Proxy(ip, port, user, pass), false);
      persistence.AddProfile(profile, outcome);
    }

    /** `edit_profile`: keeps the stored `active` flag, or false when the id is unknown. */
    method EditProfile(fingerprint: string, name: string, ip: string, port: string,
                       user: string, pass: string, outcome: SaveOutcome)
      returns (profile: Profile)
      requires Valid()
      modifies persistence
      ensures Valid()
      ensures profile == Profile(fingerprint, name, Proxy(ip, port, user, pass), ActiveOf(old(persistence.GetProfiles()), fingerprint))
      ensures persistence.GetProfiles() == Edit(old(persistence.GetProfiles()), fingerprint, name, profile.proxy)
      ensures persistence.file == SavedFile(old(persistence.file), persistence.GetProfiles(), outcome)
    {
      var activeStatus := if fingerprint in persistence.data then persistence.data[fingerprint].active else false;
      profile := Profile(fingerprint, name, Proxy(ip, port, user, pass), activeStatus);
      persistence.UpdateProfile(fingerprint, profile, outcome);
    }

    /** `toggle_profile_status`: flips `active` of a known id and saves; None otherwise. */
    method ToggleProfileStatus(fingerprint: string, outcome: SaveOutcome)
      returns (result: Option<Profile>)
      requires Valid()
      modifies persistence
      ensures Valid()
      ensures (persistence.GetProfiles(), result) == Toggle(old(persistence.GetProfiles()), fingerprint)
      ensures persistence.file ==
        if fingerprint in old(persistence.data) then SavedFile(old(persistence.file), persistence.GetProfiles(), outcome)
        else old(persistence.file)
    {
      if fingerprint in persistence.data {
        var profile := persistence.data[fingerprint];
        profile := profile.(active := !profile.active);
        persistence.UpdateProfile(fingerprint, profile, outcome);
        result := Some(profile);
      } else {
        result := None;
      }
    }

    /** `delete_profile`. */
    method DeleteProfile(fingerprint: string, outcome: SaveOutcome)
      requires Valid()
      modifies persistence
      ensures Valid()
      ensures persistence.GetProfiles() == Remove(old(persistence.GetProfiles()), fingerprint)
      ensures persistence.file ==
        if fingerprint in old(persistence.data) then SavedFile(old(persistence.file), persistence.GetProfiles(), outcome)
        else old(persistence.file)
    {
      persistence.DeleteProfile(fingerprint, outcome);
    }

    /** `list_profiles`: one record per stored profile, in insertion order. */
    method ListProfiles() returns (profiles: seq<Profile>)
      requires Valid()
      ensures |profiles| == |persistence.order| == |persistence.data|
      ensures forall i :: 0 <= i < |profiles| ==>
        persistence.order[i] in persistence.data && profiles[i] == persistence.data[persistence.order[i]]
    {
      profiles := Values(persistence.GetProfiles());
      ValuesLength(persistence.GetProfiles());
    }
  }
}

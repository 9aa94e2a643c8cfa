/** The profile records and the persistence layer that keeps them: an insertion-ordered
    dictionary from fingerprint to profile, written to a file after every change. */
module ProfileStore {

  datatype Option<T> = None | Some(value: T)

  /** The `proxy` sub-record of a profile. */
  datatype Proxy = Proxy(ip: string, port: string, username: string, password: string)

  /** One stored profile record. */
  datatype Profile = Profile(fingerprint: string, name: string, proxy: Proxy, active: bool)

  /** An insertion-ordered dictionary, as Python's `dict` is: the entries, and the order
      in which their keys were first inserted. */
  datatype Table = Table(entries: map<string, Profile>, order: seq<string>)

  const Empty: Table := Table(map[], [])

  predicate Distinct(s: seq<string>) {
    forall i, j :: 0 <= i < j < |s| ==> s[i] != s[j]
  }

  /** The order lists every key of the entries exactly once. */
  ghost predicate WellFormed(t: Table) {
    && Distinct(t.order)
    && (forall k :: k in t.entries <==> k in t.order)
  }

  /** `d[k] = v`: a new key goes to the end of the order, an existing key keeps its place. */
  function Put(t: Table, k: string, v: Profile): (r: Table)
    ensures k in r.entries && r.entries[k] == v
    ensures forall j :: j != k ==> (j in r.entries <==> j in t.entries)
    ensures forall j :: j != k && j in t.entries ==> r.entries[j] == t.entries[j]
    ensures k in t.entries ==> r.order == t.order
    ensures k !in t.entries ==> r.order == t.order + [k]
    ensures WellFormed(t) ==> WellFormed(r)
  {
    Table(t.entries[k := v], if k in t.entries then t.order else t.order + [k])
  }

  /** The order with every occurrence of `k` dropped, the rest kept in sequence; an
      absent key changes nothing. */
  function RemoveKey(order: seq<string>, k: string): (r: seq<string>)
    ensures forall x :: x in r <==> x in order && x != k
    ensures Distinct(order) ==> Distinct(r)
    ensures k !in order ==> r == order
  {
    if order == [] then []
    else if order[0] == k then RemoveKey(order[1..], k)
    else
      var rest := RemoveKey(order[1..], k);
      assert Distinct(order) ==> order[0] !in order[1..];
      assert k !in order ==> order == [order[0]] + order[1..];
      [order[0]] + rest
  }

  /** In an order without repetitions, removing the key at position `i` cuts out exactly
      that position: every other key keeps its place relative to the rest. */
  lemma {:induction false} RemoveKeyAt(order: seq<string>, i: int)
    requires Distinct(order) && 0 <= i < |order|
    ensures RemoveKey(order, order[i]) == order[..i] + order[i + 1..]
  {
    var k := order[i];
    if i == 0 {
      assert k !in order[1..];
    } else {
      assert order[0] != k;
      assert Distinct(order[1..]);
      assert order[1..][i - 1] == k;
      RemoveKeyAt(order[1..], i - 1);
      assert order[..i] == [order[0]] + order[1..][..i - 1];
      assert order[i + 1..] == order[1..][i..];
    }
  }

  /** `if k in d: del d[k]`: the key disappears, the rest keep their values and order;
      removing an absent key changes nothing. */
  function Remove(t: Table, k: string): (r: Table)
    ensures k !in r.entries
    ensures forall j :: j != k ==> (j in r.entries <==> j in t.entries)
    ensures forall j :: j != k && j in t.entries ==> r.entries[j] == t.entries[j]
    ensures k !in t.entries ==> r == t
    ensures WellFormed(t) ==> WellFormed(r)
  {
    if k in t.entries then Table(t.entries - {k}, RemoveKey(t.order, k)) else t
  }

  /** `list(d.values())`: the records in key insertion order. */
  function Values(t: Table): seq<Profile>
    requires WellFormed(t)
  {
    seq(|t.order|, i requires 0 <= i < |t.order| => t.entries[t.order[i]])
  }

  /** A sequence without repetitions has as many distinct elements as positions. */
  lemma {:induction false} DistinctCard(s: seq<string>)
    requires Distinct(s)
    ensures |set x | x in s| == |s|
  {
    if s != [] {
      DistinctCard(s[1..]);
      assert (set x | x in s) == {s[0]} + (set x | x in s[1..]);
      assert s[0] !in s[1..];
    }
  }

  /** The listing holds one record per stored key. */
  lemma ValuesLength(t: Table)
    requires WellFormed(t)
    ensures |Values(t)| == |t.entries|
  {
    DistinctCard(t.order);
    assert t.entries.Keys == set x | x in t.order;
  }

  /** A record is listed exactly when it is stored under some key. */
  lemma ValuesHoldEntries(t: Table, p: Profile)
    requires WellFormed(t)
    ensures p in Values(t) <==> exists k :: k in t.entries && t.entries[k] == p
  {
    if exists k :: k in t.entries && t.entries[k] == p {
      var k :| k in t.entries && t.entries[k] == p;
      var i :| 0 <= i < |t.order| && t.order[i] == k;
      assert Values(t)[i] == p;
    }
  }

  /** Deleting a stored key cuts its record out of the listing; the others keep their order. */
  lemma ValuesRemove(t: Table, i: int)
    requires WellFormed(t) && 0 <= i < |t.order|
    ensures Values(Remove(t, t.order[i])) == Values(t)[..i] + Values(t)[i + 1..]
  {
    var k := t.order[i];
    var r := Remove(t, k);
    RemoveKeyAt(t.order, i);
    assert r.order == t.order[..i] + t.order[i + 1..];
    var v := Values(t);
    var w := Values(r);
    forall j | 0 <= j < |w| ensures w[j] == (v[..i] + v[i + 1..])[j] {
      var m := if j < i then j else j + 1;
      assert r.order[j] == t.order[m];
      assert t.order[m] != k;
    }
  }

  /** Removing a key that was appended last gives back the order before it. */
  lemma {:induction false} RemoveKeyAppended(order: seq<string>, k: string)
    requires k !in order
    ensures RemoveKey(order + [k], k) == order
  {
    if order == [] {
      assert order + [k] == [k];
    } else {
      assert (order + [k])[1..] == order[1..] + [k];
      RemoveKeyAppended(order[1..], k);
    }
  }

  /** Deleting a key just inserted gives back the dictionary before the insertion. */
  lemma RemovePutNew(t: Table, k: string, v: Profile)
    requires WellFormed(t) && k !in t.entries
    ensures Remove(Put(t, k, v), k) == t
  {
    RemoveKeyAppended(t.order, k);
    assert Put(t, k, v).entries - {k} == t.entries;
  }

  /** Inserting a new key lists its record last, after the unchanged earlier listing. */
  lemma ValuesPutNew(t: Table, k: string, v: Profile)
    requires WellFormed(t) && k !in t.entries
    ensures Values(Put(t, k, v)) == Values(t) + [v]
  {
    var r := Put(t, k, v);
    forall i | 0 <= i < |t.order| ensures Values(r)[i] == Values(t)[i] {
      assert t.order[i] in t.order;
    }
  }

  /** Overwriting an existing key changes its record in place and nothing else in the listing. */
  lemma ValuesPutExisting(t: Table, k: string, v: Profile)
    requires WellFormed(t) && k in t.entries
    ensures |Values(Put(t, k, v))| == |Values(t)|
    ensures forall i :: 0 <= i < |t.order| ==>
      Values(Put(t, k, v))[i] == if t.order[i] == k then v else Values(t)[i]
  {
  }

  /** The durable file `profiles.json`: absent, present but unreadable, or holding a table. */
  datatype FileState = Missing | Unreadable | Stored(table: Table)

  /** `load_data`: the stored table, or an empty one when the file is absent or cannot be read. */
  function LoadData(file: FileState): (t: Table)
    ensures file.Stored? ==> t == file.table
    ensures !file.Stored? ==> t.entries == map[] && t.order == []
  {
    match file
    case Stored(table) => table
    case _ => Empty
  }

  /** How one `save_data` call ends. `open(filename, "w")` truncates the file before
      `json.dump` writes to it, so there are three outcomes: the dump completes; `open`
      itself fails and the file is untouched; or the dump fails part way and leaves a
      truncated file. Every failure is swallowed. */
  datatype SaveOutcome = Written | OpenFailed | WriteFailed

  /** The file after saving table `t` over the file `before`. */
  function SavedFile(before: FileState, t: Table, outcome: SaveOutcome): (f: FileState)
    ensures outcome == Written ==> LoadData(f) == t
    ensures outcome == OpenFailed ==> f == before
    ensures outcome == WriteFailed ==> LoadData(f) == Empty
  {
    match outcome
    case Written => Stored(t)
    case OpenFailed => before
    case WriteFailed => Unreadable
  }

  /** A save that fails after the file was truncated loses every stored profile at the
      next start, whatever the file held before and however many profiles were saved. */
  lemma InterruptedSaveLosesProfiles(before: FileState, t: Table)
    ensures LoadData(before).entries != map[] ==>
      LoadData(SavedFile(before, t, WriteFailed)) != LoadData(before)
    ensures t.entries != map[] ==> LoadData(SavedFile(before, t, WriteFailed)) != t
  {
  }

  /** `PersistenceLayer`: the in-memory dictionary and the file it is saved to. How each
      write to the file ends is the `outcome` parameter of each saving method. */
  class PersistenceLayer {
    var data: map<string, Profile>
    var order: seq<string>
    var file: FileState

    /** `get_profiles`: the dictionary as a value. */
    function GetProfiles(): Table
      reads this
    {
      Table(data, order)
    }

    ghost predicate Valid()
      reads this
    {
      WellFormed(GetProfiles())
    }

    constructor (stored: FileState)
      requires stored.Stored? ==> WellFormed(stored.table)
      ensures Valid()
      ensures GetProfiles() == LoadData(stored) && file == stored
    {
      var t := LoadData(stored);
      data, order, file := t.entries, t.order, stored;
    }

    /** `save_data`: a completed dump makes the file load as the dictionary; a failed
      `open` leaves the file as it was; a failed dump leaves a file that loads as empty. */
    method SaveData(outcome: SaveOutcome)
      modifies this`file
      ensures file == SavedFile(old(file), GetProfiles(), outcome)
      ensures outcome == Written ==> LoadData(file) == GetProfiles()
      ensures outcome == WriteFailed ==> LoadData(file) == Empty
    {
      match outcome
      case Written => file := Stored(GetProfiles());
      case OpenFailed =>
      case WriteFailed => file := Unreadable;
    }

    /** `add_profile`: stores the record under its own fingerprint and saves. */
    method AddProfile(profile: Profile, outcome: SaveOutcome)
      requires Valid()
      modifies this
      ensures Valid()
      ensures GetProfiles() == Put(old(GetProfiles()), profile.fingerprint, profile)
      ensures file == SavedFile(old(file), GetProfiles(), outcome)
    {
      if profile.fingerprint !in data {
        order := order + [profile.fingerprint];
      }
      data := data[profile.fingerprint := profile];
      SaveData(outcome);
    }

    /** `update_profile`: stores the record under the given fingerprint and saves. */
    method UpdateProfile(fingerprint: string, profile: Profile, outcome: SaveOutcome)
      requires Valid()
      modifies this
      ensures Valid()
      ensures GetProfiles() == Put(old(GetProfiles()), fingerprint, profile)
      ensures file == SavedFile(old(file), GetProfiles(), outcome)
    {
      if fingerprint !in data {
        order := order + [fingerprint];
      }
      data := data[fingerprint := profile];
      SaveData(outcome);
    }

    /** `delete_profile`: removes the key and saves; an absent key is neither removed nor saved. */
    method DeleteProfile(fingerprint: string, outcome: SaveOutcome)
      requires Valid()
      modifies this
      ensures Valid()
      ensures GetProfiles() == Remove(old(GetProfiles()), fingerprint)
      ensures file == if fingerprint in old(data) then SavedFile(old(file), GetProfiles(), outcome) else old(file)
    {
      if fingerprint in data {
        data := data - {fingerprint};
        order := RemoveKey(order, fingerprint);
        SaveData(outcome);
      }
    }
  }
}

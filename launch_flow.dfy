/** The `active` flag across launches. `on_launch_profile` flips an inactive profile to
    active and starts a worker; the worker (`launch_browser_for_profile`) flips the flag
    once more when its polling loop ends, and flips nothing when it leaves through its
    `except` branch. The registry operations of the dashboard may happen in between. The
    state tracks workers, not browser windows. */
module LaunchFlow {
  import opened ProfileStore
  import opened ProfileRegistry

  /** The registry and the sessions whose worker is still running, one element per worker. */
  datatype State = State(store: Table, running: multiset<string>)

  datatype Event =
    | Launch(fingerprint: string)      // on_launch_profile: flag set if inactive, worker started
    | CloseOk(fingerprint: string)     // the worker's polling loop ended and it flipped the flag
    | SpawnFail(fingerprint: string)   // the worker raised into its `except` branch and ended
    | ToggleStatus(fingerprint: string)
    | EditProfile(fingerprint: string, name: string, proxy: Proxy)
    | CreateProfile(fingerprint: string, name: string, proxy: Proxy)
    | DeleteProfile(fingerprint: string)

  /** The state when the dashboard starts: whatever the file holds, and no sessions. */
  function Init(file: FileState): State
  {
    State(LoadData(file), multiset{})
  }

  /** One event, as the source handles it. */
  function Step(s: State, e: Event): State
  {
    match e
    case Launch(id) =>
      if id in s.store.entries then
        var store := if s.store.entries[id].active then s.store else Toggle(s.store, id).0;
        State(store, s.running + multiset{id})
      else s
    case CloseOk(id) =>
      if id in s.running then State(Toggle(s.store, id).0, s.running - multiset{id}) else s
    case SpawnFail(id) =>
      if id in s.running then State(s.store, s.running - multiset{id}) else s
    case ToggleStatus(id) => s.(store := Toggle(s.store, id).0)
    case EditProfile(id, name, proxy) => s.(store := Edit(s.store, id, name, proxy))
    case CreateProfile(id, name, proxy) => s.(store := Create(s.store, id, name, proxy))
    case DeleteProfile(id) => s.(store := Remove(s.store, id))
  }

  /** The same machine with the evident fix: a worker that ends in its `except` branch
      clears the flag its launch set. */
  function StepWithRollback(s: State, e: Event): (r: State)
    ensures e.SpawnFail? && e.fingerprint in s.running && e.fingerprint in s.store.entries ==>
      e.fingerprint in r.store.entries && !r.store.entries[e.fingerprint].active
  {
    match e
    case SpawnFail(id) =>
      if id in s.running then
        var store := if id in s.store.entries && s.store.entries[id].active then Toggle(s.store, id).0 else s.store;
        State(store, s.running - multiset{id})
      else s
    case _ => Step(s, e)
  }

  /** A stored profile is active exactly while one launch worker runs for it. */
  ghost predicate Consistent(s: State)
  {
    && (forall id :: s.running[id] <= 1)
    && (forall id :: id in s.store.entries ==> (s.store.entries[id].active <==> id in s.running))
  }

  /** The events that do not by themselves break the flag: no manual toggle, no second
      launch of a running profile, no edit that re-creates a deleted profile whose
      worker still runs, and fresh fingerprints for new profiles. */
  ghost predicate Safe(s: State, e: Event)
  {
    match e
    case ToggleStatus(_) => false
    case Launch(id) => id !in s.running
    case EditProfile(id, _, _) => id in s.store.entries || id !in s.running
    case CreateProfile(id, _, _) => id !in s.store.entries && id !in s.running
    case _ => true
  }

  /** The runs of the source's machine whose events are all safe and in which no worker ends in `except`. */
  ghost predicate SafeRun(s: State, events: seq<Event>)
    decreases |events|
  {
    events == [] ||
    (Safe(s, events[0]) && !events[0].SpawnFail? && SafeRun(Step(s, events[0]), events[1..]))
  }

  function Run(s: State, events: seq<Event>): State
    decreases |events|
  {
    if events == [] then s else Run(Step(s, events[0]), events[1..])
  }

  /** The runs of the corrected machine whose events are all safe; spawn failures allowed. */
  ghost predicate SafeRollbackRun(s: State, events: seq<Event>)
    decreases |events|
  {
    events == [] ||
    (Safe(s, events[0]) && SafeRollbackRun(StepWithRollback(s, events[0]), events[1..]))
  }

  function RunWithRollback(s: State, events: seq<Event>): State
    decreases |events|
  {
    if events == [] then s else RunWithRollback(StepWithRollback(s, events[0]), events[1..])
  }

  /** The dashboard starts consistent exactly when the file holds no active profile. */
  lemma InitConsistent(file: FileState)
    ensures Consistent(Init(file)) <==>
      forall id :: id in LoadData(file).entries ==> !LoadData(file).entries[id].active
  {
  }

  /** Every event keeps the dictionary well formed. */
  lemma StepWellFormed(s: State, e: Event)
    requires WellFormed(s.store)
    ensures WellFormed(Step(s, e).store) && WellFormed(StepWithRollback(s, e).store)
  {
  }

  /** Launching a profile that has no running worker keeps the flag consistent. */
  lemma LaunchKeepsConsistent(s: State, id: string)
    requires WellFormed(s.store) && Consistent(s) && id !in s.running
    ensures Consistent(Step(s, Launch(id)))
  {
    if id in s.store.entries {
      var t := Step(s, Launch(id));
      ToggleSpec(s.store, id);
      assert t.running == s.running + multiset{id};
      assert forall k :: k != id ==> t.running[k] == s.running[k];
    }
  }

  /** A worker that ends normally keeps the flag consistent. */
  lemma CloseKeepsConsistent(s: State, id: string)
    requires WellFormed(s.store) && Consistent(s)
    ensures Consistent(Step(s, CloseOk(id)))
  {
    if id in s.running {
      var t := Step(s, CloseOk(id));
      ToggleSpec(s.store, id);
      assert forall k :: k != id ==> t.running[k] == s.running[k];
      assert t.running[id] == 0;
    }
  }

  /** Storing a record whose flag agrees with its key's workers keeps the flag consistent. */
  lemma PutKeepsConsistent(s: State, k: string, v: Profile)
    requires Consistent(s)
    requires v.active <==> k in s.running
    ensures Consistent(s.(store := Put(s.store, k, v)))
  {
  }

  /** Every safe event other than a spawn failure keeps the flag consistent. */
  lemma StepKeepsConsistent(s: State, e: Event)
    requires WellFormed(s.store) && Consistent(s)
    requires Safe(s, e) && !e.SpawnFail?
    ensures Consistent(Step(s, e))
  {
    match e
    case Launch(id) =>
      LaunchKeepsConsistent(s, id);
    case CloseOk(id) =>
      CloseKeepsConsistent(s, id);
    case SpawnFail(_) =>
    case ToggleStatus(_) =>
    case EditProfile(id, name, proxy) =>
      PutKeepsConsistent(s, id, Profile(id, name, proxy, ActiveOf(s.store, id)));
    case CreateProfile(id, name, proxy) =>
      PutKeepsConsistent(s, id, Profile(id, name, proxy, false));
    case DeleteProfile(_) =>
  }

  /** With the rollback, every safe event, spawn failures included, keeps the flag consistent. */
  lemma RollbackKeepsConsistent(s: State, e: Event)
    requires WellFormed(s.store) && Consistent(s)
    requires Safe(s, e)
    ensures Consistent(StepWithRollback(s, e))
  {
    match e
    case SpawnFail(id) =>
      if id in s.running {
        var t := StepWithRollback(s, e);
        ToggleSpec(s.store, id);
        assert forall k :: k != id ==> t.running[k] == s.running[k];
        assert t.running[id] == 0;
      }
    case _ =>
      StepKeepsConsistent(s, e);
  }

  /** Over any safe run without spawn failures the flag stays consistent. */
  lemma {:induction false} RunKeepsConsistent(s: State, events: seq<Event>)
    requires WellFormed(s.store) && Consistent(s)
    requires SafeRun(s, events)
    ensures WellFormed(Run(s, events).store) && Consistent(Run(s, events))
    decreases |events|
  {
    if events != [] {
      StepWellFormed(s, events[0]);
      StepKeepsConsistent(s, events[0]);
      RunKeepsConsistent(Step(s, events[0]), events[1..]);
    }
  }

  /** With the rollback, the flag stays consistent over every safe run, failed launches included. */
  lemma {:induction false} RollbackRunKeepsConsistent(s: State, events: seq<Event>)
    requires WellFormed(s.store) && Consistent(s)
    requires SafeRollbackRun(s, events)
    ensures WellFormed(RunWithRollback(s, events).store) && Consistent(RunWithRollback(s, events))
    decreases |events|
  {
    if events != [] {
      StepWellFormed(s, events[0]);
      RollbackKeepsConsistent(s, events[0]);
      RollbackRunKeepsConsistent(StepWithRollback(s, events[0]), events[1..]);
    }
  }

  /** Launching an inactive profile marks it active and starts its worker; when the
      worker then ends normally, the state is exactly what it was before the launch. */
  lemma LaunchThenClose(s: State, id: string)
    requires WellFormed(s.store) && id in s.store.entries
    requires !s.store.entries[id].active && id !in s.running
    ensures var mid := Step(s, Launch(id));
      && id in mid.store.entries && mid.store.entries[id].active && id in mid.running
    ensures Step(Step(s, Launch(id)), CloseOk(id)) == s
  {
    var mid := Step(s, Launch(id));
    ToggleSpec(s.store, id);
    ToggleTwice(s.store, id);
    assert mid.running - multiset{id} == s.running;
  }

  /** When the worker of a launch ends in its `except` branch, the source leaves the
      profile active with no worker running. */
  lemma SpawnFailLeavesActive(s: State, id: string)
    requires WellFormed(s.store) && id in s.store.entries
    requires !s.store.entries[id].active && id !in s.running
    ensures var t := Step(Step(s, Launch(id)), SpawnFail(id));
      && id in t.store.entries && t.store.entries[id].active && id !in t.running
      && !Consistent(t)
  {
    var mid := Step(s, Launch(id));
    ToggleSpec(s.store, id);
    assert mid.running - multiset{id} == s.running;
  }

  /** With the rollback, a failed launch leaves the state exactly as it was. */
  lemma RollbackRestores(s: State, id: string)
    requires WellFormed(s.store) && id in s.store.entries
    requires !s.store.entries[id].active && id !in s.running
    ensures StepWithRollback(Step(s, Launch(id)), SpawnFail(id)) == s
  {
    var mid := Step(s, Launch(id));
    ToggleSpec(s.store, id);
    ToggleTwice(s.store, id);
    assert mid.running - multiset{id} == s.running;
  }

  /** Launching a running profile a second time does not flip the flag. If the second
      worker's browser starts, the first worker to end clears the flag while the second
      still runs, and the second sets it again with nothing running. */
  lemma DoubleLaunchDesync(s: State, id: string)
    requires WellFormed(s.store) && id in s.store.entries
    requires !s.store.entries[id].active && id !in s.running
    ensures var t := Step(Step(Step(s, Launch(id)), Launch(id)), CloseOk(id));
      && id in t.store.entries && !t.store.entries[id].active && id in t.running
    ensures var u := Step(Step(Step(Step(s, Launch(id)), Launch(id)), CloseOk(id)), CloseOk(id));
      && id in u.store.entries && u.store.entries[id].active && id !in u.running
  {
    var a := Step(s, Launch(id));
    ToggleSpec(s.store, id);
    var b := Step(a, Launch(id));
    assert b.store == a.store;
    var t := Step(b, CloseOk(id));
    ToggleSpec(b.store, id);
    assert t.running == s.running + multiset{id};
    ToggleSpec(t.store, id);
    assert Step(t, CloseOk(id)).running == s.running;
  }

  /** If the second launch of a running profile fails to start its browser (the session
      directory is already in use), its worker ends without a flip and the state is the
      one after the first launch, which is consistent whenever the start was. */
  lemma SecondLaunchSpawnFails(s: State, id: string)
    requires WellFormed(s.store) && id in s.store.entries
    requires !s.store.entries[id].active && id !in s.running
    ensures Step(Step(Step(s, Launch(id)), Launch(id)), SpawnFail(id)) == Step(s, Launch(id))
    ensures Consistent(s) ==> Consistent(Step(Step(Step(s, Launch(id)), Launch(id)), SpawnFail(id)))
  {
    var a := Step(s, Launch(id));
    ToggleSpec(s.store, id);
    var b := Step(a, Launch(id));
    assert b.store == a.store;
    assert b.running - multiset{id} == a.running;
    if Consistent(s) {
      StepKeepsConsistent(s, Launch(id));
    }
  }

  /** Creating a profile, launching it, letting its worker end normally and deleting it
      leaves the registry and the workers exactly as they were. */
  lemma CreateLaunchCloseDelete(s: State, id: string, name: string, proxy: Proxy)
    requires WellFormed(s.store) && id !in s.store.entries && id !in s.running
    ensures var created := Step(s, CreateProfile(id, name, proxy));
      Step(Step(Step(created, Launch(id)), CloseOk(id)), DeleteProfile(id)) == s
  {
    var p := Profile(id, name, proxy, false);
    var a := State(Put(s.store, id, p), s.running);
    var created := Step(s, CreateProfile(id, name, proxy));
    assert created == a;
    var closed := Step(Step(a, Launch(id)), CloseOk(id));
    LaunchThenClose(a, id);
    assert closed == a;
    var deleted := Step(a, DeleteProfile(id));
    assert deleted == State(Remove(a.store, id), s.running);
    RemovePutNew(s.store, id, p);
    assert deleted == s;
  }
}

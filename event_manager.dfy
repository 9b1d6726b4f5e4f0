/** The keyboard-shortcut registry (src/backend/event_manager.py): a table
    of callbacks per action and the bindings made on the window for them.
    The window is modelled by the table of bindings it holds; `root.bind`
    hands out a fresh binding id. */
module EventManagerModel {
  /** A registered callback; only its identity matters here. */
  datatype Callback = Callback(id: nat)

  /** What one `bind_shortcuts` pass produces from the settings entries
      (action, key) in order: the keys it has claimed, and the key bound to
      each action. A key already claimed is skipped; a key is claimed even
      when its action has no callback, and then nothing is bound. */
  function BindPlan(entries: seq<(string, string)>, actions: set<string>): (r: (set<string>, map<string, string>))
    ensures r.1.Keys <= actions
    ensures r.1.Values <= r.0
  {
    if entries == [] then ({}, map[])
    else
      var (used, bound) := BindPlan(entries[..|entries| - 1], actions);
      var (action, key) := entries[|entries| - 1];
      if key in used then (used, bound)
      else (used + {key}, if action in actions then bound[action := key] else bound)
  }

  function EntryKeys(entries: seq<(string, string)>): set<string> {
    set i | 0 <= i < |entries| :: entries[i].1
  }

  function EntryActions(entries: seq<(string, string)>): set<string> {
    set i | 0 <= i < |entries| :: entries[i].0
  }

  /** A settings dictionary: no action appears twice. */
  predicate DistinctActions(entries: seq<(string, string)>) {
    forall i, j :: 0 <= i < j < |entries| ==> entries[i].0 != entries[j].0
  }

  /** How a window table stands against the one it started from: the
      `released` ids are gone, every other starting binding is kept, and,
      when `recorded` is set, every binding gained is recorded in `rec`. */
  ghost predicate WindowSince(start: map<int, string>, released: set<int>, window: map<int, string>,
                              rec: map<string, int>, recorded: bool)
  {
    && (forall id :: id in released ==> id !in window)
    && (forall id :: id in start && id !in released ==> id in window && window[id] == start[id])
    && (recorded ==> forall id :: id in window && id !in start ==> id in rec.Values)
  }

  /** Binding an action that is not recorded yet under an id that was never
      in the window keeps that standing. */
  lemma BindKeepsWindow(start: map<int, string>, released: set<int>, window: map<int, string>,
                        rec: map<string, int>, recorded: bool, action: string, id: int, key: string)
    requires WindowSince(start, released, window, rec, recorded)
    requires id !in start && id !in released
    requires recorded ==> action !in rec
    ensures WindowSince(start, released, window[id := key], rec[action := id], recorded)
  {
    if recorded {
      var rec' := rec[action := id];
      forall x | x in window[id := key] && x !in start
        ensures x in rec'.Values
      {
        if x == id {
          assert action in rec' && rec'[action] == x;
        } else {
          assert x in window && x in rec.Values;
          var a :| a in rec && rec[a] == x;
          assert a != action && a in rec' && rec'[a] == x;
        }
      }
    }
  }

  /** Every key of the settings is claimed, and no two bound actions share
      a key. */
  lemma {:induction false} PlanClaimsAndSeparates(entries: seq<(string, string)>, actions: set<string>)
    requires DistinctActions(entries)
    ensures BindPlan(entries, actions).0 == EntryKeys(entries)
    ensures BindPlan(entries, actions).1.Keys <= EntryActions(entries)
    ensures forall a, b :: a in BindPlan(entries, actions).1 && b in BindPlan(entries, actions).1 && a != b ==>
              BindPlan(entries, actions).1[a] != BindPlan(entries, actions).1[b]
  {
    if entries != [] {
      var init := entries[..|entries| - 1];
      PlanClaimsAndSeparates(init, actions);
      EntriesGrow(entries);
    }
  }

  /** The keys and actions of the settings: those of all but the last entry,
      and the last entry's. */
  lemma EntriesGrow(entries: seq<(string, string)>)
    requires entries != []
    ensures EntryKeys(entries) == EntryKeys(entries[..|entries| - 1]) + {entries[|entries| - 1].1}
    ensures EntryActions(entries) == EntryActions(entries[..|entries| - 1]) + {entries[|entries| - 1].0}
  {
    var init := entries[..|entries| - 1];
    assert forall i :: 0 <= i < |init| ==> init[i] == entries[i];
  }

  lemma InitDistinct(entries: seq<(string, string)>)
    requires entries != [] && DistinctActions(entries)
    ensures DistinctActions(entries[..|entries| - 1])
  {
    var init := entries[..|entries| - 1];
    assert forall k :: 0 <= k < |init| ==> init[k] == entries[k];
  }

  /** The first entry to use a key gets it, provided its action has a
      callback. */
  lemma {:induction false} FirstEntryWins(entries: seq<(string, string)>, actions: set<string>, i: int)
    requires DistinctActions(entries)
    requires 0 <= i < |entries| && entries[i].0 in actions
    requires forall j :: 0 <= j < i ==> entries[j].1 != entries[i].1
    ensures entries[i].0 in BindPlan(entries, actions).1
    ensures BindPlan(entries, actions).1[entries[i].0] == entries[i].1
  {
    var init := entries[..|entries| - 1];
    if i == |entries| - 1 {
      PlanClaimsAndSeparates(init, actions);
      assert entries[i].1 !in EntryKeys(init) by {
        forall j | 0 <= j < |init|
          ensures init[j].1 != entries[i].1
        {
          assert init[j] == entries[j];
        }
      }
    } else {
      InitDistinct(entries);
      assert init[i] == entries[i];
      assert forall j :: 0 <= j < i ==> init[j] == entries[j];
      FirstEntryWins(init, actions, i);
      assert entries[|entries| - 1].0 != entries[i].0;
    }
  }

  /** An entry whose key an earlier entry used is skipped, even when that
      earlier entry had no callback. */
  lemma {:induction false} LaterDuplicateSkipped(entries: seq<(string, string)>, actions: set<string>, i: int, j: int)
    requires DistinctActions(entries)
    requires 0 <= j < i < |entries| && entries[j].1 == entries[i].1
    ensures entries[i].0 !in BindPlan(entries, actions).1
  {
    var init := entries[..|entries| - 1];
    PlanClaimsAndSeparates(init, actions);
    if i == |entries| - 1 {
      assert init[j] == entries[j];
      assert entries[i].1 in EntryKeys(init);
      assert entries[i].0 !in EntryActions(init) by {
        forall k | 0 <= k < |init|
          ensures init[k].0 != entries[i].0
        {
          assert init[k] == entries[k];
        }
      }
    } else {
      InitDistinct(entries);
      assert init[i] == entries[i] && init[j] == entries[j];
      LaterDuplicateSkipped(init, actions, i, j);
    }
  }

  class EventManager {
    var callbacks: map<string, Callback>
    var bindings: map<string, int>
    /** The bindings the window holds: binding id to key. */
    var windowBindings: map<int, string>
    /** The next id `root.bind` hands out. */
    var nextId: int

    /** Every binding the manager records is held by the window, and every
        id handed out so far is below `nextId`. */
    ghost predicate Valid()
      reads this
    {
      && bindings.Values <= windowBindings.Keys
      && (forall id :: id in windowBindings ==> id < nextId)
    }

    constructor ()
      ensures Valid()
      ensures callbacks == map[] && bindings == map[] && windowBindings == map[]
    {
      callbacks := map[];
      bindings := map[];
      windowBindings := map[];
      nextId := 0;
    }

    /** `register_callback`: replaces the entry of that action only. */
    method RegisterCallback(action: string, callback: Callback)
      requires Valid()
      modifies this
      ensures Valid()
      ensures callbacks == old(callbacks)[action := callback]
      ensures bindings == old(bindings) && windowBindings == old(windowBindings)
      ensures nextId == old(nextId)
    {
      callbacks := callbacks[action := callback];
    }

    /** `bind_shortcut`: an action without a callback is not bound; otherwise
        the window binds the key under a fresh id, recorded for the action. */
    method BindShortcut(action: string, key: string)
      requires Valid()
      modifies this
      ensures Valid()
      ensures callbacks == old(callbacks)
      ensures action !in callbacks ==>
                bindings == old(bindings) && windowBindings == old(windowBindings)
      ensures action in callbacks ==>
                old(nextId) !in old(windowBindings) &&
                bindings == old(bindings)[action := old(nextId)] &&
                windowBindings == old(windowBindings)[old(nextId) := key]
      ensures old(nextId) <= nextId
    {
      if action !in callbacks {
        return;
      }
      var bindingId := nextId;
      nextId := nextId + 1;
      windowBindings := windowBindings[bindingId := key];
      bindings := bindings[action := bindingId];
    }

    /** `unbind_all`: the window drops every recorded binding and the
        record is cleared. */
    method UnbindAll()
      requires Valid()
      modifies this
      ensures Valid()
      ensures bindings == map[]
      ensures windowBindings == old(windowBindings) - old(bindings).Values
      ensures callbacks == old(callbacks) && nextId == old(nextId)
    {
      var ids := bindings.Values;
      while ids != {}
        invariant ids <= old(bindings).Values
        invariant windowBindings == old(windowBindings) - (old(bindings).Values - ids)
        invariant bindings == old(bindings) && callbacks == old(callbacks) && nextId == old(nextId)
        invariant forall id :: id in windowBindings ==> id < nextId
        decreases |ids|
      {
        var bindingId :| bindingId in ids;
        windowBindings := windowBindings - {bindingId};
        ids := ids - {bindingId};
      }
      bindings := map[];
    }

    /** `bind_shortcuts`: clears the bindings, then binds the entries in
        order, skipping every key an earlier entry already used. The result
        is `BindPlan` of the entries: each bound action is held by the window
        under its planned key. The bindings recorded before the call are
        released and every other binding of the window is kept. */
    method BindShortcuts(entries: seq<(string, string)>)
      requires Valid()
      modifies this
      ensures Valid()
      ensures callbacks == old(callbacks)
      ensures bindings.Keys == BindPlan(entries, callbacks.Keys).1.Keys
      ensures forall a :: a in bindings ==> windowBindings[bindings[a]] == BindPlan(entries, callbacks.Keys).1[a]
      ensures bindings.Keys <= callbacks.Keys
      ensures DistinctActions(entries) ==>
                forall a, b :: a in bindings && b in bindings && a != b ==>
                  windowBindings[bindings[a]] != windowBindings[bindings[b]]
      ensures forall id :: id in old(bindings).Values ==> id !in windowBindings
      ensures forall id :: id in old(windowBindings) && id !in old(bindings).Values ==>
                id in windowBindings && windowBindings[id] == old(windowBindings)[id]
      ensures DistinctActions(entries) ==>
                forall id :: id in windowBindings && id !in old(windowBindings) ==> id in bindings.Values
    {
      UnbindAll();
      BindInOrder(entries, old(windowBindings), old(bindings).Values);
      if DistinctActions(entries) {
        PlanClaimsAndSeparates(entries, callbacks.Keys);
      }
    }

    /** The loop of `bind_shortcuts`, run on a cleared record: binds the
        entries in order, skipping every key an earlier entry already used,
        and keeps the window's standing against where it started. */
    method BindInOrder(entries: seq<(string, string)>, ghost start: map<int, string>, ghost released: set<int>)
      requires Valid() && bindings == map[]
      requires released <= start.Keys && forall id :: id in start ==> id < nextId
      requires WindowSince(start, released, windowBindings, bindings, DistinctActions(entries))
      modifies this
      ensures Valid() && callbacks == old(callbacks)
      ensures bindings.Keys == BindPlan(entries, callbacks.Keys).1.Keys
      ensures forall a :: a in bindings ==> windowBindings[bindings[a]] == BindPlan(entries, callbacks.Keys).1[a]
      ensures WindowSince(start, released, windowBindings, bindings, DistinctActions(entries))
    {
      var usedKeys: set<string> := {};
      var i := 0;
      while i < |entries|
        invariant 0 <= i <= |entries|
        invariant Valid()
        invariant callbacks == old(callbacks)
        invariant usedKeys == BindPlan(entries[..i], callbacks.Keys).0
        invariant bindings.Keys == BindPlan(entries[..i], callbacks.Keys).1.Keys
        invariant forall a :: a in bindings ==> windowBindings[bindings[a]] == BindPlan(entries[..i], callbacks.Keys).1[a]
        invariant forall id :: id in start ==> id < nextId
        invariant DistinctActions(entries) ==> forall k :: i <= k < |entries| ==> entries[k].0 !in bindings
        invariant WindowSince(start, released, windowBindings, bindings, DistinctActions(entries))
      {
        var (action, key) := entries[i];
        assert entries[..i + 1][..i] == entries[..i];
        assert entries[..i + 1][i] == (action, key);
        if key !in usedKeys {
          usedKeys := usedKeys + {key};
          if action in callbacks {
            BindKeepsWindow(start, released, windowBindings, bindings, DistinctActions(entries), action, nextId, key);
          }
          BindShortcut(action, key);
        }
        i := i + 1;
      }
      assert entries[..i] == entries;
    }
  }
}

/**
 The bounded deduplication of "app used" and "plugin used" events
 (motyga-rs/analytics/src/client.rs). A set of (turn, id) keys is emptied whenever it is
 found full, so a key can pass again; the lemmas say exactly how often.
 */
module UsageDedupe {
  import opened Options

  const MAX_KEYS: nat := 4096

  datatype Key = Key(turnId: string, id: string)

  /** The two callers differ in one point: a plugin call without any id still empties a full set. */
  datatype Caller = App | Plugin

  function Trimmed(emitted: set<Key>): set<Key> {
    if |emitted| >= MAX_KEYS then {} else emitted
  }

  /** The set after one call. */
  function EmittedAfter(caller: Caller, emitted: set<Key>, key: Option<Key>): set<Key> {
    match key
    case None => if caller == Plugin then Trimmed(emitted) else emitted
    case Some(k) => Trimmed(emitted) + {k}
  }

  /** Whether one call is let through. */
  predicate Passes(emitted: set<Key>, key: Option<Key>) {
    key.Some? ==> key.value !in Trimmed(emitted)
  }

  class AnalyticsEventsQueue {
    var appUsedEmittedKeys: set<Key>
    var pluginUsedEmittedKeys: set<Key>

    constructor ()
      ensures appUsedEmittedKeys == {} && pluginUsedEmittedKeys == {}
    {
      appUsedEmittedKeys, pluginUsedEmittedKeys := {}, {};
    }

    method ShouldEnqueueAppUsed(turnId: string, connectorId: Option<string>) returns (passes: bool)
      modifies `appUsedEmittedKeys
      ensures
        var key := if connectorId.None? then None else Some(Key(turnId, connectorId.value));
        && passes == Passes(old(appUsedEmittedKeys), key)
        && appUsedEmittedKeys == EmittedAfter(App, old(appUsedEmittedKeys), key)
    {
      if connectorId.None? {
        return true;
      }
      if |appUsedEmittedKeys| >= MAX_KEYS {
        appUsedEmittedKeys := {};
      }
      var key := Key(turnId, connectorId.value);
      passes := key !in appUsedEmittedKeys;
      appUsedEmittedKeys := appUsedEmittedKeys + {key};
    }

    method ShouldEnqueuePluginUsed(turnId: string, pluginId: Option<string>, remotePluginId: Option<string>)
      returns (passes: bool)
      modifies `pluginUsedEmittedKeys
      ensures
        var id := if pluginId.Some? then pluginId else remotePluginId;
        var key := if id.None? then None else Some(Key(turnId, id.value));
        && passes == Passes(old(pluginUsedEmittedKeys), key)
        && pluginUsedEmittedKeys == EmittedAfter(Plugin, old(pluginUsedEmittedKeys), key)
    {
      if |pluginUsedEmittedKeys| >= MAX_KEYS {
        pluginUsedEmittedKeys := {};
      }
      var id := if pluginId.Some? then pluginId else remotePluginId;
      if id.None? {
        return true;
      }
      var key := Key(turnId, id.value);
      passes := key !in pluginUsedEmittedKeys;
      pluginUsedEmittedKeys := pluginUsedEmittedKeys + {key};
    }
  }

  // ---------------------------------------------------------------- whole runs

  /** The set after a run of calls, starting from the empty set. */
  function EmittedBy(caller: Caller, calls: seq<Option<Key>>): set<Key> {
    if calls == [] then {}
    else EmittedAfter(caller, EmittedBy(caller, calls[..|calls| - 1]), calls[|calls| - 1])
  }

  /** The keys of the keyed calls let through, in order. */
  function Passed(caller: Caller, calls: seq<Option<Key>>): seq<Key> {
    if calls == [] then []
    else
      var before := calls[..|calls| - 1];
      var call := calls[|calls| - 1];
      Passed(caller, before)
      + (if call.Some? && Passes(EmittedBy(caller, before), call) then [call.value] else [])
  }

  function Occurrences(keys: seq<Key>, key: Key): nat {
    multiset(keys)[key]
  }

  function KeysOf(keys: seq<Key>): set<Key> {
    set k | k in keys
  }

  /** How many times the set has been emptied. */
  function Clears(caller: Caller, calls: seq<Option<Key>>): nat {
    if calls == [] then 0
    else
      var before := calls[..|calls| - 1];
      var call := calls[|calls| - 1];
      Clears(caller, before)
      + (if |EmittedBy(caller, before)| >= MAX_KEYS && (call.Some? || caller == Plugin) then 1 else 0)
  }

  /** One call, seen from the position in `passed` at which the current epoch started. */
  lemma EpochStep(caller: Caller, emitted: set<Key>, call: Option<Key>, passed: seq<Key>, start: nat)
    requires |emitted| <= MAX_KEYS && start <= |passed|
    requires |passed| == start + |emitted| && emitted == KeysOf(passed[start..])
    ensures
      var emitted' := EmittedAfter(caller, emitted, call);
      var passed' := passed + (if call.Some? && Passes(emitted, call) then [call.value] else []);
      var start' := if |emitted| >= MAX_KEYS && (call.Some? || caller == Plugin) then start + MAX_KEYS else start;
      && |emitted'| <= MAX_KEYS && start' <= |passed'|
      && |passed'| == start' + |emitted'| && emitted' == KeysOf(passed'[start'..])
  {
    if call.Some? && Passes(emitted, call) {
      assert (passed + [call.value])[start..] == passed[start..] + [call.value];
      assert (passed + [call.value])[|passed|..] == [call.value];
    } else {
      assert passed + [] == passed;
      assert passed[|passed|..] == [];
    }
    if call.Some? && call.value in Trimmed(emitted) {
      assert Trimmed(emitted) + {call.value} == Trimmed(emitted);
    }
  }

  /** Every emptying happens after exactly 4096 further keys passed, and what the set holds is
      exactly what passed since the last emptying, without repetition. */
  lemma {:induction false} EpochInvariant(caller: Caller, calls: seq<Option<Key>>)
    ensures
      var emitted, passed, start := EmittedBy(caller, calls), Passed(caller, calls), MAX_KEYS * Clears(caller, calls);
      && |emitted| <= MAX_KEYS && start <= |passed|
      && |passed| == start + |emitted|
      && emitted == KeysOf(passed[start..])
  {
    if calls != [] {
      var before := calls[..|calls| - 1];
      EpochInvariant(caller, before);
      EpochStep(caller, EmittedBy(caller, before), calls[|calls| - 1], Passed(caller, before),
                MAX_KEYS * Clears(caller, before));
    }
  }

  /** Among the keys let through, no block of 4096 consecutive ones (aligned at multiples of 4096)
      repeats a key: a second pass of a key always lies in a later block. */
  lemma {:induction false} BlocksAreDistinct(caller: Caller, calls: seq<Option<Key>>, i: nat, j: nat)
    requires i < j < |Passed(caller, calls)|
    requires Passed(caller, calls)[i] == Passed(caller, calls)[j]
    ensures i / 4096 < j / 4096
  {
    var before := calls[..|calls| - 1];
    if j < |Passed(caller, before)| {
      BlocksAreDistinct(caller, before, i, j);
    } else {
      EpochInvariant(caller, before);
      PassedKeyIsFresh(Passed(caller, before), MAX_KEYS * Clears(caller, before), EmittedBy(caller, before),
                       calls[|calls| - 1].value, i);
      LaterBlock(i, j, if |EmittedBy(caller, before)| >= MAX_KEYS then Clears(caller, before) + 1
                       else Clears(caller, before));
    }
  }

  lemma PassedKeyIsFresh(passed: seq<Key>, start: nat, emitted: set<Key>, key: Key, i: nat)
    requires start <= |passed| && emitted == KeysOf(passed[start..]) && i < |passed| && passed[i] == key
    requires Passes(emitted, Some(key))
    ensures |emitted| >= MAX_KEYS || i < start
  {
    if i >= start {
      assert passed[start..][i - start] == key;
    }
  }

  lemma LaterBlock(i: nat, j: nat, block: nat)
    requires i < MAX_KEYS * block <= j
    ensures i / 4096 < j / 4096
  {
  }

  lemma {:induction false} PassesPerEpoch(caller: Caller, calls: seq<Option<Key>>, key: Key)
    ensures Occurrences(Passed(caller, calls), key)
         <= Clears(caller, calls) + (if key in EmittedBy(caller, calls) then 1 else 0)
  {
    if calls != [] {
      PassesPerEpoch(caller, calls[..|calls| - 1], key);
    }
  }

  /** The dedupe bound: the set never exceeds 4096 keys, and among K keyed calls let through one key
      occurs at most 1 + K / 4096 times. */
  lemma DedupeBound(caller: Caller, calls: seq<Option<Key>>, key: Key)
    ensures |EmittedBy(caller, calls)| <= 4096
    ensures Occurrences(Passed(caller, calls), key) <= 1 + |Passed(caller, calls)| / 4096
  {
    EpochInvariant(caller, calls);
    PassesPerEpoch(caller, calls, key);
  }

  /** Nothing new is ever suppressed: a keyed call is stopped only if the same key passed before. */
  lemma SuppressedOnlyIfPassedBefore(caller: Caller, calls: seq<Option<Key>>, key: Key)
    requires !Passes(EmittedBy(caller, calls), Some(key))
    ensures key in Passed(caller, calls)
  {
    EpochInvariant(caller, calls);
  }
}

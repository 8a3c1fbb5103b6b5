/** The patches the status store builds from a fresh read, and what they do to the five maps. */
module StatusStore {
  import opened Basics
  import opened Json
  import opened Ordering
  import opened Records

  const STATUS_MAP_MAX_ENTRIES := 10_000

  const SOFT_STOPS := "softStops"
  const REQUEUES := "requeues"
  const STARTED_SINCE := "startedSince"
  const ARCHIVED_ANALYSES := "archivedAnalyses"
  const STOPPED_ANALYSES := "stoppedAnalyses"
  const DEFERRED_EVENTS := "deferredEvents"

  const STATUS_MAP_FIELDS: set<string> := {SOFT_STOPS, REQUEUES, STARTED_SINCE, ARCHIVED_ANALYSES, STOPPED_ANALYSES}

  /** The live ids last registered for each map, which cap eviction spares. */
  type Registry = map<string, set<string>>

  function Protected(registry: Registry, f: string): set<string> { if f in registry then registry[f] else {} }

  /** `protect_anchor_keys`: the set of one map is replaced, wholesale; an unknown name changes nothing. */
  function Protect(registry: Registry, f: string, keys: set<string>): Registry {
    if f in STATUS_MAP_FIELDS then registry[f := keys] else registry
  }

  /** The entries of the map under a name; one that is absent or no object counts as empty. */
  function Entries(status: Value, f: string): map<string, Value> { Members(Member(status, f)) }

  /** No write, a merge patch to send, or an error. */
  datatype Built = Skip | Send(patch: Value) | Raise

  /** The status after the patch, if any, lands on the status it was built from. */
  function Landed(status: Value, b: Built): Value { if b.Send? then Merge(status, b.patch) else status }

  // ---------------------------------------------------------------- building patches

  function EvictionOrder(keys: set<string>, protected: set<string>): seq<string> {
    SortedKeys(keys - protected) + SortedKeys(keys * protected)
  }

  function Victims(keys: set<string>, protected: set<string>): seq<string>
    requires |keys| >= STATUS_MAP_MAX_ENTRIES
  {
    EvictionOrderSize(keys, protected);
    EvictionOrder(keys, protected)[..|keys| - STATUS_MAP_MAX_ENTRIES + 1]
  }

  lemma EvictionOrderSize(keys: set<string>, protected: set<string>)
    ensures |EvictionOrder(keys, protected)| == |keys|
  {
    assert keys == (keys - protected) + (keys * protected);
  }

  /** Explicit nulls for the victims, every survivor again, and the new entry. */
  function CapPatch(entries: map<string, Value>, key: string, encoded: Value, victims: set<string>): Value {
    Obj((map k | k in entries :: if k in victims then Null else entries[k])[key := encoded])
  }

  /** `_set_map_entry`: `encoded` is Null to remove the entry. */
  function SetEntry(status: Value, f: string, key: string, encoded: Value, protected: set<string>): Built {
    var entries := Entries(status, f);
    var current := Current(status, f, key);
    if encoded != Null && |entries| >= STATUS_MAP_MAX_ENTRIES && current != encoded then
      Send(Obj(map[f := CapPatch(entries, key, encoded, Elements(Victims(entries.Keys, protected)))]))
    else if current == encoded then Skip
    else Send(EntryPatch(f, key, encoded))
  }

  /** `mark_soft_stop_escalated`: merges the marker into the anchor as read; a vanished anchor raises. */
  function MarkEscalated(status: Value, key: string, at: Time, outcome: string): Built {
    var entries := Entries(status, SOFT_STOPS);
    if key !in entries || !entries[key].Obj? then Raise
    else
      var encoded := Obj(entries[key].members["escalatedAt" := Num(at)]["escalationOutcome" := Str(outcome)]);
      if encoded == entries[key] then Skip else Send(EntryPatch(SOFT_STOPS, key, encoded))
  }

  function Dead(status: Value, f: string, live: set<string>): set<string> {
    set k | k in Entries(status, f) && k !in live
  }

  /** `prune`: for each map in scope, an explicit null for every key outside its live set. */
  function Prune(status: Value, scopes: map<string, set<string>>): Built {
    var touched := set f | f in scopes && Dead(status, f, scopes[f]) != {};
    if touched == {} then Skip
    else Send(Obj(map f | f in touched :: Obj(map k | k in Dead(status, f, scopes[f]) :: Null)))
  }

  function SetScalar(status: Value, name: string, encoded: Value): Built {
    if Member(status, name) == encoded then Skip else Send(Obj(map[name := encoded]))
  }

  function Deferred(status: Value): seq<Value> {
    var v := Member(status, DEFERRED_EVENTS);
    if v.Arr? then v.items else []
  }

  /** `append_deferred_event`: the patch carries the whole replacement list. */
  function AppendDeferred(status: Value, entry: Value, maxEntries: Option<nat>): Built {
    var current := Deferred(status);
    if maxEntries.Some? && |current| >= maxEntries.value then Skip
    else Send(Obj(map[DEFERRED_EVENTS := Arr(current + [entry])]))
  }

  function ClearDeferred(status: Value): Built {
    if Deferred(status) == [] then Skip else Send(Obj(map[DEFERRED_EVENTS := Null]))
  }

  /** Every mutation the store offers. */
  datatype Op =
    | Set(field: string, key: string, encoded: Value, protected: set<string>)
    | Mark(analysis: string, at: Time, outcome: string)
    | PruneTo(scopes: map<string, set<string>>)
    | Scalar(name: string, value: Value)
    | Append(entry: Value, maxEntries: Option<nat>)
    | Clear

  function Build(op: Op, status: Value): Built {
    match op
    case Set(f, key, encoded, protected) => SetEntry(status, f, key, encoded, protected)
    case Mark(key, at, outcome) => MarkEscalated(status, key, at, outcome)
    case PruneTo(scopes) => Prune(status, scopes)
    case Scalar(name, value) => SetScalar(status, name, value)
    case Append(entry, max) => AppendDeferred(status, entry, max)
    case Clear => ClearDeferred(status)
  }

  function Apply(op: Op, status: Value): Value { Landed(status, Build(op, status)) }

  // ---------------------------------------------------------------- what landed patches do to the maps

  lemma MergeField(status: Value, patch: Value, f: string)
    requires patch.Obj?
    ensures f !in patch.members ==> Entries(Merge(status, patch), f) == Entries(status, f)
    ensures f in patch.members && patch.members[f].Obj? ==>
      Entries(Merge(status, patch), f) == Merge(Member(status, f), patch.members[f]).members
  {
    MergeMember(status, patch, f);
  }

  function Current(status: Value, f: string, key: string): Value { Member(Member(status, f), key) }

  lemma SinglePatch(v: Value, key: string, value: Value)
    ensures var after := Merge(v, Obj(map[key := value])).members;
            after == if value == Null then Members(v) - {key} else Members(v)[key := Merge(Member(v, key), value)]
  {
    var p := Obj(map[key := value]);
    var after := Merge(v, p).members;
    var expected := if value == Null then Members(v) - {key} else Members(v)[key := Merge(Member(v, key), value)];
    forall k
      ensures k in after <==> k in expected
      ensures k in after ==> after[k] == expected[k]
    {
      MergeMember(v, p, k);
    }
    assert after == expected;
  }

  lemma EntryPatchLands(status: Value, f: string, key: string, value: Value, g: string)
    ensures var after := Merge(status, EntryPatch(f, key, value));
            Entries(after, g) ==
              if g != f then Entries(status, g)
              else if value == Null then Entries(status, f) - {key}
              else Entries(status, f)[key := Merge(Current(status, f, key), value)]
  {
    MergeField(status, EntryPatch(f, key, value), g);
    SinglePatch(Member(status, f), key, value);
  }

  /** A write below the cap, and every removal, does to the maps what a put or a delete does. */
  lemma SetBelowCap(status: Value, f: string, key: string, encoded: Value, protected: set<string>, g: string)
    requires NullFree(status)
    requires encoded == Null || |Entries(status, f)| < STATUS_MAP_MAX_ENTRIES
    ensures Entries(Apply(Set(f, key, encoded, protected), status), g) ==
              if g != f then Entries(status, g)
              else if encoded == Null then Entries(status, f) - {key}
              else Entries(status, f)[key := Merge(Current(status, f, key), encoded)]
  {
    if SetEntry(status, f, key, encoded, protected).Skip? {
      if encoded != Null {
        EntryNullFree(status, f, key);
        MergeSelf(encoded);
      } else {
        assert key in Entries(status, f) ==> Entries(status, f)[key] != Null by {
          if key in Entries(status, f) { EntryNullFree(status, f, key); }
        }
      }
    } else {
      EntryPatchLands(status, f, key, encoded, g);
    }
  }

  lemma EntryNullFree(status: Value, f: string, key: string)
    requires NullFree(status) && key in Entries(status, f)
    ensures NullFree(Entries(status, f)[key]) && Entries(status, f)[key] != Null
  {
    assert NullFree(status.members[f]);
  }

  // ---------------------------------------------------------------- the cap

  lemma OrderDistinct(keys: set<string>, protected: set<string>)
    ensures Distinct(EvictionOrder(keys, protected)) && Elements(EvictionOrder(keys, protected)) == keys
  {
    DistinctConcat(SortedKeys(keys - protected), SortedKeys(keys * protected));
  }

  lemma DistinctConcat(a: seq<string>, b: seq<string>)
    requires Distinct(a) && Distinct(b) && Elements(a) !! Elements(b)
    ensures Distinct(a + b) && Elements(a + b) == Elements(a) + Elements(b)
  {
    assert forall i :: 0 <= i < |a| ==> a[i] in Elements(a);
    assert forall i :: 0 <= i < |b| ==> b[i] in Elements(b);
    assert forall x :: x in a + b <==> x in Elements(a) || x in Elements(b);
  }

  /** The victims are that many keys of the map. */
  lemma VictimCount(keys: set<string>, protected: set<string>)
    requires |keys| >= STATUS_MAP_MAX_ENTRIES
    ensures var v := Elements(Victims(keys, protected));
            v <= keys && |v| == |keys| - STATUS_MAP_MAX_ENTRIES + 1
  {
    var order := EvictionOrder(keys, protected);
    EvictionOrderSize(keys, protected);
    OrderDistinct(keys, protected);
    DistinctCount(Victims(keys, protected));
    forall x | x in Victims(keys, protected) ensures x in keys { assert x in Elements(order); }
  }

  /** A protected victim means that every unprotected key is a victim. */
  lemma ProtectedGoLast(keys: set<string>, protected: set<string>, p: string, u: string)
    requires |keys| >= STATUS_MAP_MAX_ENTRIES
    requires p in Victims(keys, protected) && p in protected && u in keys && u !in protected
    ensures u in Victims(keys, protected)
  {
    var free, held := SortedKeys(keys - protected), SortedKeys(keys * protected);
    var victims := Victims(keys, protected);
    EvictionOrderSize(keys, protected);
    var i :| 0 <= i < |victims| && victims[i] == p;
    assert forall k :: 0 <= k < |free| ==> free[k] in Elements(free);
    assert i >= |free|;
    assert u in Elements(free);
    var j :| 0 <= j < |free| && free[j] == u;
    assert victims[j] == u;
  }

  lemma {:induction false} SortedPlaces(keys: seq<string>, i: nat, j: nat)
    requires Sorted(keys) && i <= j < |keys|
    ensures Le(keys[i], keys[j])
  {
    LeTotal(keys[i], keys[i]);
  }

  /** Two sorted runs, of which the first n entries are cut off: within a run, what stays is above. */
  lemma CutIsLowest(a: seq<string>, b: seq<string>, n: nat, v: string, u: string)
    requires Sorted(a) && Sorted(b) && n <= |a + b|
    requires v in (a + b)[..n] && u in a + b && u !in (a + b)[..n]
    requires (v !in b && u !in b) || (v !in a && u !in a)
    ensures Le(v, u)
  {
    var all := a + b;
    assert forall k :: 0 <= k < n ==> all[k] in all[..n] by {
      forall k | 0 <= k < n ensures all[k] in all[..n] { assert all[..n][k] == all[k]; }
    }
    assert forall k :: 0 <= k < |a| ==> all[k] in a;
    assert forall k :: |a| <= k < |all| ==> all[k] in b by {
      forall k | |a| <= k < |all| ensures all[k] in b { assert all[k] == b[k - |a|]; }
    }
    var i :| 0 <= i < n && all[..n][i] == v;
    var j :| 0 <= j < |all| && all[j] == u;
    assert all[i] == v && i < j;
    if v !in b { SortedPlaces(a, i, j); } else { SortedPlaces(b, i - |a|, j - |a|); }
  }

  /** Of keys that are alike in protection, the victims come first in ascending order: a key that stays is
      above every victim. */
  lemma VictimsAreLowest(keys: set<string>, protected: set<string>, v: string, u: string)
    requires |keys| >= STATUS_MAP_MAX_ENTRIES
    requires v in Victims(keys, protected) && u in keys && u !in Victims(keys, protected)
    requires v in protected <==> u in protected
    ensures Le(v, u)
  {
    var free, held := SortedKeys(keys - protected), SortedKeys(keys * protected);
    OrderDistinct(keys, protected);
    EvictionOrderSize(keys, protected);
    assert u in Elements(EvictionOrder(keys, protected));
    assert forall x :: (x in free <==> x in Elements(free)) && (x in held <==> x in Elements(held));
    CutIsLowest(free, held, |keys| - STATUS_MAP_MAX_ENTRIES + 1, v, u);
  }

  /** At or over the cap, a changing write evicts exactly the first n keys of the order
      unprotected-then-protected, keeps every survivor's value, and ends within the cap. */
  lemma SetAtCap(status: Value, f: string, key: string, encoded: Value, protected: set<string>, g: string)
    requires NullFree(status) && encoded != Null && Current(status, f, key) != encoded
    requires |Entries(status, f)| >= STATUS_MAP_MAX_ENTRIES
    ensures var entries := Entries(status, f);
            var victims := Elements(Victims(entries.Keys, protected));
            Entries(Apply(Set(f, key, encoded, protected), status), g) ==
              if g != f then Entries(status, g)
              else (entries - victims)[key := Merge(Current(status, f, key), encoded)]
  {
    var entries := Entries(status, f);
    var victims := Elements(Victims(entries.Keys, protected));
    var patch := CapPatch(entries, key, encoded, victims);
    MergeField(status, Obj(map[f := patch]), g);
    if g == f { CapPatchLands(Member(status, f), key, encoded, victims); }
  }

  lemma CapPatchLands(v: Value, key: string, encoded: Value, victims: set<string>)
    requires v.Obj? && NullFree(v) && encoded != Null
    ensures Merge(v, CapPatch(v.members, key, encoded, victims)).members ==
              (v.members - victims)[key := Merge(Member(v, key), encoded)]
  {
    var p := CapPatch(v.members, key, encoded, victims);
    var after, expected := Merge(v, p).members, (v.members - victims)[key := Merge(Member(v, key), encoded)];
    forall k
      ensures k in after <==> k in expected
      ensures k in after ==> after[k] == expected[k]
    {
      MergeMember(v, p, k);
      if k in v.members && k != key && k !in victims { MergeSelf(v.members[k]); }
    }
  }

  /** Cap eviction in full: the bound is restored from any size, the key just written is there,
      the losses are victims, and a protected key other than the one written is lost only if no
      unprotected key other than that one survives. */
  lemma CapEviction(status: Value, f: string, key: string, encoded: Value, protected: set<string>)
    requires NullFree(status) && encoded != Null && Current(status, f, key) != encoded
    requires |Entries(status, f)| >= STATUS_MAP_MAX_ENTRIES
    ensures var was, now := Entries(status, f), Entries(Apply(Set(f, key, encoded, protected), status), f);
            && |now| <= 10_000
            && key in now && now[key] == Merge(Current(status, f, key), encoded)
            && (forall k :: k in was && k != key ==> (k in now <==> k !in Victims(was.Keys, protected)))
            && (forall k :: k in now && k != key ==> k in was && now[k] == was[k])
            && ((exists p :: p in was && p != key && p in protected && p !in now) ==>
                  forall u :: u in now && u !in protected ==> u == key)
  {
    var was := Entries(status, f);
    var victims := Elements(Victims(was.Keys, protected));
    SetAtCap(status, f, key, encoded, protected, f);
    VictimCount(was.Keys, protected);
    forall p, u | p in was && p in protected && p in victims && u in was && u !in protected ensures u in victims {
      ProtectedGoLast(was.Keys, protected, p, u);
    }
    Survivors(was, victims, key, Merge(Current(status, f, key), encoded));
  }

  /** What a write to a full map loses is lowest: a key that stays, alike in protection, is above it. */
  lemma LowestAreEvicted(status: Value, f: string, key: string, encoded: Value, protected: set<string>, v: string,
                         u: string)
    requires NullFree(status) && encoded != Null && Current(status, f, key) != encoded
    requires |Entries(status, f)| >= 10_000 && u != key && (v in protected <==> u in protected)
    requires var now := Entries(Apply(Set(f, key, encoded, protected), status), f);
             v in Entries(status, f) && v !in now && u in now
    ensures Le(v, u)
  {
    CapEviction(status, f, key, encoded, protected);
    VictimsAreLowest(Entries(status, f).Keys, protected, v, u);
  }

  lemma Survivors(was: map<string, Value>, victims: set<string>, key: string, v: Value)
    requires victims <= was.Keys
    ensures var now := (was - victims)[key := v];
            && |now| <= |was| - |victims| + 1
            && (forall k :: k in was && k != key ==> (k in now <==> k !in victims))
            && (forall k :: k in now && k != key ==> k in was && now[k] == was[k])
  {
    var now := (was - victims)[key := v];
    assert now.Keys == (was.Keys - victims) + {key};
    assert |was.Keys - victims| == |was| - |victims|;
  }

  lemma SubsetSize<T>(a: set<T>, b: set<T>)
    requires a <= b
    ensures |a| <= |b|
  {
    assert b == a + (b - a);
  }

  lemma PruneLands(status: Value, scopes: map<string, set<string>>, f: string)
    ensures Entries(Apply(PruneTo(scopes), status), f) ==
              if f in scopes then map k | k in Entries(status, f) && k in scopes[f] :: Entries(status, f)[k]
              else Entries(status, f)
  {
    if f in scopes { DeadOrLive(status, f, scopes[f]); }
    var built := Prune(status, scopes);
    var touched := set g | g in scopes && Dead(status, g, scopes[g]) != {};
    assert f in touched <==> f in scopes && Dead(status, f, scopes[f]) != {};
    if built.Send? {
      MergeField(status, built.patch, f);
      if f in built.patch.members { NullsRemove(Member(status, f), Dead(status, f, scopes[f])); }
    }
  }

  lemma DeadOrLive(status: Value, f: string, live: set<string>)
    ensures Entries(status, f) - Dead(status, f, live) ==
              map k | k in Entries(status, f) && k in live :: Entries(status, f)[k]
  {}

  lemma NullsRemove(v: Value, dead: set<string>)
    ensures Merge(v, Obj(map k | k in dead :: Null)).members == Members(v) - dead
  {}

  /** No operation of the store takes a map over the cap. */
  lemma OpsKeepCap(op: Op, status: Value, f: string)
    requires NullFree(status) && f != DEFERRED_EVENTS
    requires op.Scalar? ==> op.name != f
    requires |Entries(status, f)| <= 10_000
    ensures |Entries(Apply(op, status), f)| <= 10_000
  {
    var before, after := Entries(status, f), Entries(Apply(op, status), f);
    match op
    case Set(g, key, encoded, protected) => SetKeepsCap(status, g, key, encoded, protected, f);
    case Mark(key, at, outcome) => MarkKeepsKeys(status, key, at, outcome, f);
    case PruneTo(scopes) =>
      PruneLands(status, scopes, f);
      SubsetSize(after.Keys, before.Keys);
    case _ => PlainKeepsMap(op, status, f);
  }

  /** Scalars and the list of deferred events are none of the maps. */
  lemma PlainKeepsMap(op: Op, status: Value, f: string)
    requires (op.Scalar? && op.name != f) || ((op.Append? || op.Clear?) && f != DEFERRED_EVENTS)
    ensures Entries(Apply(op, status), f) == Entries(status, f)
  {
    var built := Build(op, status);
    if built.Send? {
      assert f !in built.patch.members;
      MergeField(status, built.patch, f);
    }
  }

  /** A scalar is replaced, or removed by null, and every other member of the status stays. */
  lemma ScalarLands(status: Value, name: string, value: Value, g: string)
    requires !value.Obj?
    ensures var after := Apply(Scalar(name, value), status);
            Member(after, g) == if g == name then value else Member(status, g)
  {
    var built := SetScalar(status, name, value);
    if built.Send? { MergeMember(status, built.patch, g); }
  }

  lemma MarkKeepsKeys(status: Value, key: string, at: Time, outcome: string, f: string)
    ensures Entries(Apply(Mark(key, at, outcome), status), f).Keys == Entries(status, f).Keys
  {
    var b := MarkEscalated(status, key, at, outcome);
    if b.Send? {
      var anchor := Entries(status, SOFT_STOPS)[key].members;
      var value := Obj(anchor["escalatedAt" := Num(at)]["escalationOutcome" := Str(outcome)]);
      assert b.patch == EntryPatch(SOFT_STOPS, key, value);
      EntryPatchLands(status, SOFT_STOPS, key, value, f);
    }
  }

  lemma PutOrDropSize(was: map<string, Value>, now: map<string, Value>, key: string, value: Value, drop: bool)
    requires |was| <= STATUS_MAP_MAX_ENTRIES && (drop || |was| < STATUS_MAP_MAX_ENTRIES)
    requires now == if drop then was - {key} else was[key := value]
    ensures |now| <= STATUS_MAP_MAX_ENTRIES
  {
    if drop {
      SubsetSize(now.Keys, was.Keys);
    } else {
      assert now.Keys == was.Keys + {key};
    }
  }

  lemma SetElsewhere(status: Value, g: string, key: string, encoded: Value, protected: set<string>, f: string)
    requires NullFree(status) && f != g
    ensures Entries(Apply(Set(g, key, encoded, protected), status), f) == Entries(status, f)
  {
    var b := SetEntry(status, g, key, encoded, protected);
    if b.Send? { MergeField(status, b.patch, f); }
  }

  lemma SetBelowCapSize(status: Value, f: string, key: string, encoded: Value, protected: set<string>)
    requires NullFree(status)
    requires |Entries(status, f)| <= STATUS_MAP_MAX_ENTRIES
    requires encoded == Null || |Entries(status, f)| < STATUS_MAP_MAX_ENTRIES
    ensures |Entries(Apply(Set(f, key, encoded, protected), status), f)| <= STATUS_MAP_MAX_ENTRIES
  {
    SetBelowCap(status, f, key, encoded, protected, f);
    PutOrDropSize(Entries(status, f), Entries(Apply(Set(f, key, encoded, protected), status), f), key,
                  Merge(Current(status, f, key), encoded), encoded == Null);
  }

  lemma SetKeepsCap(status: Value, g: string, key: string, encoded: Value, protected: set<string>, f: string)
    requires NullFree(status) && |Entries(status, f)| <= STATUS_MAP_MAX_ENTRIES
    ensures |Entries(Apply(Set(g, key, encoded, protected), status), f)| <= STATUS_MAP_MAX_ENTRIES
  {
    if g != f {
      SetElsewhere(status, g, key, encoded, protected, f);
    } else if encoded == Null || |Entries(status, f)| < STATUS_MAP_MAX_ENTRIES {
      SetBelowCapSize(status, f, key, encoded, protected);
    } else if Current(status, f, key) != encoded {
      CapEviction(status, f, key, encoded, protected);
    }
  }
}

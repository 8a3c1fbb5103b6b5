/** What a write at the cap does to entries that others changed between its read and its PATCH. */
module StatusCap {
  import opened Basics
  import opened Json
  import opened Ordering
  import opened Records
  import opened StatusStore
  import opened StatusConflicts

  /** The write finds its map full, so it evicts and rewrites the whole map. */
  predicate CapBranch(read: Value, f: string, key: string, encoded: Value) {
    encoded != Null && |Entries(read, f)| >= STATUS_MAP_MAX_ENTRIES && Current(read, f, key) != encoded
  }

  function VictimsOf(read: Value, f: string, registry: Registry): set<string>
    requires |Entries(read, f)| >= STATUS_MAP_MAX_ENTRIES
  {
    Elements(Victims(Entries(read, f).Keys, Protected(registry, f)))
  }

  /** The status after the patch built from `read` lands on `target`. */
  function LandedOn(read: Value, target: Value, f: string, key: string, encoded: Value, registry: Registry): Value {
    Landed(target, Setter(f, key, encoded, registry)(read))
  }

  lemma EntryOf(status: Value, f: string, k: string)
    requires NullFree(status)
    ensures Current(status, f, k) == Null <==> k !in Entries(status, f)
    ensures NullFree(Current(status, f, k))
  {
    if k in Entries(status, f) { EntryNullFree(status, f, k); }
  }

  /** Another entry of the map: gone if a victim, what was read merged over what is there now if it
      was read, and as it is now otherwise. */
  lemma CapLandsOn(read: Value, target: Value, f: string, key: string, encoded: Value, registry: Registry, k: string)
    requires NullFree(read) && CapBranch(read, f, key, encoded) && k != key
    ensures Current(LandedOn(read, target, f, key, encoded, registry), f, k) ==
              if k in VictimsOf(read, f, registry) && k in Entries(read, f) then Null
              else if k in Entries(read, f) then Merge(Current(target, f, k), Entries(read, f)[k])
              else Current(target, f, k)
  {
    var entries := Entries(read, f);
    var patch := CapPatch(entries, key, encoded, VictimsOf(read, f, registry));
    EntryOf(read, f, k);
    MergeField(target, Obj(map[f := patch]), f);
    MergeMember(target, Obj(map[f := patch]), f);
    MergeMember(Member(target, f), patch, k);
  }

  /** All that was read of the entry is still there. */
  predicate Contains(v: Value, read: Value) {
    if read.Obj? then v.Obj? && forall n :: n in read.members ==> n in v.members && v.members[n] == read.members[n]
    else v == read
  }

  lemma MergeKeeps(v: Value, read: Value)
    requires (Flat(read) || !read.Obj?) && NullFree(read) && NullFree(v)
    ensures Merge(v, read) == v <==> Contains(v, read)
  {
    if read.Obj? {
      forall n | n in read.members ensures n in Merge(v, read).members && Merge(v, read).members[n] == read.members[n] {
        MergeMember(v, read, n);
      }
      if Contains(v, read) { assert Merge(v, read).members == v.members; }
    }
  }

  /** What others did to another entry since the read survives exactly when the entry was not there at
      the read, or is no victim and still has all that was read, or is a victim that they removed. */
  lemma CapKeepsForeignEntry(read: Value, target: Value, f: string, key: string, encoded: Value, registry: Registry,
                             k: string)
    requires NullFree(read) && NullFree(target) && CapBranch(read, f, key, encoded) && k != key
    requires k in Entries(read, f) ==> Flat(Entries(read, f)[k]) || !Entries(read, f)[k].Obj?
    ensures var now := Current(target, f, k);
            Current(LandedOn(read, target, f, key, encoded, registry), f, k) == now <==>
              (k in Entries(read, f) ==>
                 if k in VictimsOf(read, f, registry) then now == Null else Contains(now, Entries(read, f)[k]))
  {
    CapLandsOn(read, target, f, key, encoded, registry, k);
    EntryOf(read, f, k);
    EntryOf(target, f, k);
    if k in Entries(read, f) { MergeKeeps(Current(target, f, k), Entries(read, f)[k]); }
  }

  /** A session of one attempt, with one foreign patch between its read and its PATCH. */
  function Crossed(build: Value -> Built, start: Value, foreign: Value): Session {
    Attempts(build, start, None, [], [Round([], false, [foreign], Accepted)])
  }

  lemma CrossedLands(build: Value -> Built, start: Value, foreign: Value)
    requires build(start).Send?
    ensures var s := Crossed(build, start, foreign);
            s.outcome == Written && s.server == Merge(Merge(start, foreign), build(start).patch)
  {
    assert MergeAll(start, []) == start;
    assert [foreign][..0] == [] && MergeAll(start, [foreign]) == Merge(MergeAll(start, []), foreign);
  }

  lemma CapSends(read: Value, f: string, key: string, encoded: Value, registry: Registry)
    requires CapBranch(read, f, key, encoded)
    ensures Setter(f, key, encoded, registry)(read).Send?
  {}

  lemma RemovalLands(status: Value, f: string, k: string)
    ensures Current(Merge(status, EntryPatch(f, k, Null)), f, k) == Null
  {
    EntryPatchLands(status, f, k, Null, f);
  }

  /** The entry that someone else removes between the read and the PATCH is back, as it was read. */
  lemma CapResurrectsForeignRemoval(start: Value, f: string, key: string, encoded: Value, registry: Registry, k: string)
    requires NullFree(start) && CapBranch(start, f, key, encoded)
    requires k in Entries(start, f) && k != key && k !in VictimsOf(start, f, registry)
    ensures var s := Crossed(Setter(f, key, encoded, registry), start, EntryPatch(f, k, Null));
            s.outcome == Written && Current(s.server, f, k) == Entries(start, f)[k]
  {
    CapSends(start, f, key, encoded, registry);
    CrossedLands(Setter(f, key, encoded, registry), start, EntryPatch(f, k, Null));
    RemovalLands(start, f, k);
    CapLandsOn(start, Merge(start, EntryPatch(f, k, Null)), f, key, encoded, registry, k);
    EntryOf(start, f, k);
    MergeIntoNothing(Entries(start, f)[k]);
  }

  // ---------------------------------------------------------------- a full map

  function Name(n: nat): string { if n == 0 then "" else Name(n - 1) + "x" }

  function Many(n: nat): map<string, Value> { if n == 0 then map[] else Many(n - 1)[Name(n - 1) := Num(0)] }

  lemma {:induction false} ManyEntries(n: nat)
    ensures |Many(n)| == n && |Name(n)| == n
    ensures forall k :: k in Many(n) ==> |k| < n && Many(n)[k] == Num(0)
  {
    if n > 0 {
      ManyEntries(n - 1);
      assert Many(n).Keys == Many(n - 1).Keys + {Name(n - 1)};
    }
  }

  function Crowd(n: nat): Value { Obj(map[REQUEUES := Obj(Many(n))]) }

  lemma CrowdAtCap(n: nat)
    requires n >= STATUS_MAP_MAX_ENTRIES
    ensures NullFree(Crowd(n)) && Entries(Crowd(n), REQUEUES) == Many(n) && Name(n) !in Many(n)
    ensures CapBranch(Crowd(n), REQUEUES, Name(n), Num(1))
  {
    ManyEntries(n);
    assert NullFree(Obj(Many(n)));
  }

  /** So there are statuses, and an entry in each, whose removal a write at the cap undoes. */
  lemma CapUndoesARemoval(n: nat, registry: Registry) returns (k: string)
    requires n >= STATUS_MAP_MAX_ENTRIES
    ensures k in Entries(Crowd(n), REQUEUES)
    ensures var s := Crossed(Setter(REQUEUES, Name(n), Num(1), registry), Crowd(n), EntryPatch(REQUEUES, k, Null));
            Current(s.server, REQUEUES, k) == Num(0)
  {
    CrowdAtCap(n);
    ManyEntries(n);
    var keys, victims := Entries(Crowd(n), REQUEUES).Keys, VictimsOf(Crowd(n), REQUEUES, registry);
    VictimCount(keys, Protected(registry, REQUEUES));
    SomeoneStays(keys, victims);
    k :| k in keys - victims;
    CapResurrectsForeignRemoval(Crowd(n), REQUEUES, Name(n), Num(1), registry, k);
  }

  lemma SomeoneStays(keys: set<string>, victims: set<string>)
    requires victims <= keys && |victims| < |keys|
    ensures keys - victims != {}
  {
    assert keys == (keys - victims) + victims;
  }
}

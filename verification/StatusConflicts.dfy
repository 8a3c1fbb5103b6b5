/** The read-modify-write retry loop of the status store, against foreign writers and 409 answers. */
module StatusConflicts {
  import opened Basics
  import opened Json
  import opened Records
  import opened StatusStore

  const MAX_CONFLICT_RETRIES := 5

  /** The API server's answer to the PATCH; `LostReply` is a patch that landed although the call raised. */
  datatype Answer = Accepted | Conflict | Failed | LostReply

  /** What surrounds one attempt: foreign patches before the read and between read and PATCH. */
  datatype Round = Round(before: seq<Value>, readRaises: bool, between: seq<Value>, answer: Answer)

  datatype Call = Foreign(patch: Value) | Read(status: Value) | Sent(patch: Value, landed: bool)

  datatype Outcome = Skipped | Written | Exhausted | Raised

  datatype Session = Session(server: Value, cache: Option<Value>, trail: seq<Call>, outcome: Outcome)

  function Foreigns(patches: seq<Value>): seq<Call> {
    seq(|patches|, i requires 0 <= i < |patches| => Foreign(patches[i]))
  }

  /** The attempt sends a patch and is told to try again. */
  predicate Retries(build: Value -> Built, server: Value, r: Round) {
    !r.readRaises && build(MergeAll(server, r.before)).Send? && r.answer.Conflict?
  }

  /** The calls of an attempt up to its read, and up to its send. */
  function UpToRead(server: Value, trail: seq<Call>, r: Round): seq<Call> {
    trail + Foreigns(r.before) + [Read(MergeAll(server, r.before))]
  }

  function UpToSend(server: Value, trail: seq<Call>, r: Round): seq<Call> {
    UpToRead(server, trail, r) + Foreigns(r.between)
  }

  /** How an attempt that is the last one ends. */
  function Ended(build: Value -> Built, server: Value, cache: Option<Value>, trail: seq<Call>, r: Round): Session {
    var read := MergeAll(server, r.before);
    if r.readRaises then Session(read, cache, trail + Foreigns(r.before), Raised)
    else match build(read)
      case Raise => Session(read, Some(read), UpToRead(server, trail, r), Raised)
      case Skip => Session(read, Some(read), UpToRead(server, trail, r), Skipped)
      case Send(p) =>
        var target, sent := MergeAll(read, r.between), UpToSend(server, trail, r);
        match r.answer
        case Accepted => Session(Merge(target, p), None, sent + [Sent(p, true)], Written)
        case LostReply => Session(Merge(target, p), Some(read), sent + [Sent(p, true)], Raised)
        case _ => Session(target, Some(read), sent + [Sent(p, false)], Raised)
  }

  /** The attempts that are left, one per remaining round. */
  function Attempts(build: Value -> Built, server: Value, cache: Option<Value>, trail: seq<Call>,
                    rounds: seq<Round>): Session
    decreases |rounds|
  {
    if rounds == [] then Session(server, cache, trail, Exhausted)
    else
      var r := rounds[0];
      var end := Ended(build, server, cache, trail, r);
      if Retries(build, server, r) then Attempts(build, end.server, end.cache, end.trail, rounds[1..]) else end
  }

  /** The patch that `_set_map_entry` builds, evicting by the keys registered for the map. */
  function Setter(f: string, key: string, encoded: Value, registry: Registry): Value -> Built {
    v => Build(Set(f, key, encoded, Protected(registry, f)), v)
  }

  class Store {
    var server: Value
    var cache: Option<Value>
    var trail: seq<Call>
    var registry: Registry

    constructor (status: Value)
      ensures server == status && cache == None && trail == [] && registry == map[]
    {
      server, cache, trail, registry := status, None, [], map[];
    }

    /** `protect_anchor_keys`: answers false where an unknown map name raises. */
    method ProtectAnchorKeys(field: string, keys: set<string>) returns (ok: bool)
      modifies this`registry
      ensures ok == (field in STATUS_MAP_FIELDS) && registry == Protect(old(registry), field, keys)
      ensures ok ==> Protected(registry, field) == keys
      ensures forall f :: f != field || !ok ==> Protected(registry, f) == Protected(old(registry), f)
    {
      if field !in STATUS_MAP_FIELDS { return false; }
      registry := registry[field := keys];
      return true;
    }

    /** `_set_map_entry`: the victims of a full map are chosen by what is registered for it now. */
    method SetMapEntry(field: string, key: string, encoded: Value, rounds: seq<Round>) returns (outcome: Outcome)
      requires |rounds| == MAX_CONFLICT_RETRIES
      modifies this`server, this`cache, this`trail
      ensures Session(server, cache, trail, outcome)
              == Attempts(Setter(field, key, encoded, old(registry)), old(server), old(cache), old(trail), rounds)
    {
      outcome := Mutate(Setter(field, key, encoded, registry), rounds);
    }

    /** `_mutate`: at most five read-build-patch cycles, the patch rebuilt from each read. */
    method Mutate(build: Value -> Built, rounds: seq<Round>) returns (outcome: Outcome)
      requires |rounds| == MAX_CONFLICT_RETRIES
      modifies this`server, this`cache, this`trail
      ensures Session(server, cache, trail, outcome) == Attempts(build, old(server), old(cache), old(trail), rounds)
    {
      var attempt := 0;
      while attempt < MAX_CONFLICT_RETRIES
        invariant 0 <= attempt <= MAX_CONFLICT_RETRIES
        invariant Attempts(build, server, cache, trail, rounds[attempt..]) ==
                    Attempts(build, old(server), old(cache), old(trail), rounds)
      {
        var r := rounds[attempt];
        assert rounds[attempt..][0] == r && rounds[attempt..][1..] == rounds[attempt + 1..];
        server := MergeAll(server, r.before);
        trail := trail + Foreigns(r.before);
        if r.readRaises { return Raised; }
        var status := server;
        cache := Some(status);
        trail := trail + [Read(status)];
        var built := build(status);
        if built.Raise? { return Raised; }
        if built.Skip? { return Skipped; }
        server := MergeAll(server, r.between);
        trail := trail + Foreigns(r.between);
        match r.answer {
          case Accepted =>
            server, trail, cache := Merge(server, built.patch), trail + [Sent(built.patch, true)], None;
            return Written;
          case LostReply =>
            server, trail := Merge(server, built.patch), trail + [Sent(built.patch, true)];
            return Raised;
          case Failed =>
            trail := trail + [Sent(built.patch, false)];
            return Raised;
          case Conflict =>
            trail := trail + [Sent(built.patch, false)];
        }
        attempt := attempt + 1;
      }
      return Exhausted;
    }
  }

  // ---------------------------------------------------------------- what the trail of a session shows

  function SentCount(trail: seq<Call>): nat {
    if trail == [] then 0 else SentCount(trail[..|trail| - 1]) + if trail[|trail| - 1].Sent? then 1 else 0
  }

  /** The foreign patches of a trail, in order. */
  function ForeignPatches(trail: seq<Call>): seq<Value> {
    if trail == [] then []
    else ForeignPatches(trail[..|trail| - 1]) + if trail[|trail| - 1].Foreign? then [trail[|trail| - 1].patch] else []
  }

  predicate OwnLanded(trail: seq<Call>) { exists i :: 0 <= i < |trail| && trail[i].Sent? && trail[i].landed }

  /** Call i sent what the operation builds from the last read, with no other send since that read. */
  ghost predicate SentFromRead(build: Value -> Built, trail: seq<Call>, i: int) {
    0 <= i < |trail| && trail[i].Sent? && exists j :: ReadFor(build, trail, j, i)
  }

  predicate ReadFor(build: Value -> Built, trail: seq<Call>, j: int, i: int)
    requires 0 <= i < |trail| && trail[i].Sent?
  {
    && 0 <= j < i && trail[j].Read?
    && build(trail[j].status) == Send(trail[i].patch)
    && forall k :: j < k < i ==> trail[k].Foreign?
  }

  ghost predicate Honest(build: Value -> Built, trail: seq<Call>) {
    forall i :: 0 <= i < |trail| && trail[i].Sent? ==> SentFromRead(build, trail, i)
  }

  lemma {:induction false} ForeignsAppend(trail: seq<Call>, patches: seq<Value>)
    ensures SentCount(trail + Foreigns(patches)) == SentCount(trail)
    ensures ForeignPatches(trail + Foreigns(patches)) == ForeignPatches(trail) + patches
  {
    if patches == [] {
      assert trail + Foreigns(patches) == trail;
    } else {
      var front := patches[..|patches| - 1];
      ForeignsAppend(trail, front);
      var longer := trail + Foreigns(patches);
      assert longer[..|longer| - 1] == trail + Foreigns(front);
      assert longer[|longer| - 1] == Foreign(patches[|patches| - 1]);
      assert ForeignPatches(trail) + front + [patches[|patches| - 1]] == ForeignPatches(trail) + patches;
    }
  }

  lemma AppendCall(trail: seq<Call>, c: Call)
    ensures SentCount(trail + [c]) == SentCount(trail) + if c.Sent? then 1 else 0
    ensures !c.Foreign? ==> ForeignPatches(trail + [c]) == ForeignPatches(trail)
  {
    assert (trail + [c])[..|trail|] == trail;
  }

  lemma HonestPrefix(build: Value -> Built, trail: seq<Call>, more: seq<Call>)
    requires Honest(build, trail) && forall i :: 0 <= i < |more| ==> !more[i].Sent?
    ensures Honest(build, trail + more)
  {
    var longer := trail + more;
    forall i | 0 <= i < |longer| && longer[i].Sent? ensures SentFromRead(build, longer, i) {
      assert i < |trail| && SentFromRead(build, trail, i);
      var j :| ReadFor(build, trail, j, i);
      assert ReadFor(build, longer, j, i);
    }
  }

  /** One send after a read and foreign patches keeps the trail honest. */
  lemma HonestSend(build: Value -> Built, trail: seq<Call>, read: Value, between: seq<Value>, p: Value, landed: bool)
    requires Honest(build, trail) && build(read) == Send(p)
    ensures Honest(build, trail + [Read(read)] + Foreigns(between) + [Sent(p, landed)])
  {
    HonestPrefix(build, trail, [Read(read)]);
    HonestPrefix(build, trail + [Read(read)], Foreigns(between));
    var before := trail + [Read(read)] + Foreigns(between);
    var longer := before + [Sent(p, landed)];
    forall i | 0 <= i < |longer| && longer[i].Sent? ensures SentFromRead(build, longer, i) {
      if i < |before| {
        assert SentFromRead(build, before, i);
        var j :| ReadFor(build, before, j, i);
        assert ReadFor(build, longer, j, i);
      } else {
        assert ReadFor(build, longer, |trail|, i);
      }
    }
  }

  /** What holds of the trail and the server between attempts: nothing of ours has landed. */
  ghost predicate Clean(build: Value -> Built, start: Value, server: Value, trail: seq<Call>) {
    && Honest(build, trail)
    && !OwnLanded(trail)
    && server == MergeAll(start, ForeignPatches(trail))
  }

  ghost predicate SafeEnd(build: Value -> Built, start: Value, s: Session) {
    && Honest(build, s.trail)
    && (s.outcome == Exhausted || s.outcome == Skipped ==> !OwnLanded(s.trail))
    && (s.outcome == Written ==> OwnLanded(s.trail))
    && (!OwnLanded(s.trail) ==> s.server == MergeAll(start, ForeignPatches(s.trail)))
    && (s.outcome == Written ==> s.cache == None)
  }

  lemma ForeignsClean(build: Value -> Built, start: Value, server: Value, trail: seq<Call>, patches: seq<Value>)
    requires Clean(build, start, server, trail)
    ensures Clean(build, start, MergeAll(server, patches), trail + Foreigns(patches))
  {
    HonestPrefix(build, trail, Foreigns(patches));
    ForeignsAppend(trail, patches);
    MergeAllAppend(start, ForeignPatches(trail), patches);
  }

  lemma ReadClean(build: Value -> Built, start: Value, server: Value, trail: seq<Call>)
    requires Clean(build, start, server, trail)
    ensures Clean(build, start, server, trail + [Read(server)])
  {
    HonestPrefix(build, trail, [Read(server)]);
    AppendCall(trail, Read(server));
  }

  lemma FailedSendClean(build: Value -> Built, start: Value, server: Value, trail: seq<Call>, p: Value)
    requires Clean(build, start, server, trail) && Honest(build, trail + [Sent(p, false)])
    ensures Clean(build, start, server, trail + [Sent(p, false)])
  {
    AppendCall(trail, Sent(p, false));
  }

  /** Where one attempt leads before its answer. */
  lemma AttemptIsClean(build: Value -> Built, start: Value, server: Value, trail: seq<Call>, r: Round)
    requires Clean(build, start, server, trail)
    ensures var read := MergeAll(server, r.before);
            && Clean(build, start, read, trail + Foreigns(r.before))
            && Clean(build, start, read, UpToRead(server, trail, r))
            && Clean(build, start, MergeAll(read, r.between), UpToSend(server, trail, r))
            && SentCount(trail + Foreigns(r.before)) == SentCount(UpToRead(server, trail, r)) ==
                 SentCount(UpToSend(server, trail, r)) == SentCount(trail)
  {
    var read, before := MergeAll(server, r.before), trail + Foreigns(r.before);
    ForeignsClean(build, start, server, trail, r.before);
    ForeignsAppend(trail, r.before);
    ReadClean(build, start, read, before);
    AppendCall(before, Read(read));
    ForeignsClean(build, start, read, before + [Read(read)], r.between);
    ForeignsAppend(before + [Read(read)], r.between);
  }

  lemma SendIsHonest(build: Value -> Built, server: Value, trail: seq<Call>, r: Round, p: Value, landed: bool)
    requires Honest(build, trail + Foreigns(r.before)) && build(MergeAll(server, r.before)) == Send(p)
    ensures Honest(build, UpToSend(server, trail, r) + [Sent(p, landed)])
    ensures SentCount(UpToSend(server, trail, r) + [Sent(p, landed)]) == SentCount(UpToSend(server, trail, r)) + 1
    ensures landed ==> OwnLanded(UpToSend(server, trail, r) + [Sent(p, landed)])
  {
    HonestSend(build, trail + Foreigns(r.before), MergeAll(server, r.before), r.between, p, landed);
    AppendCall(UpToSend(server, trail, r), Sent(p, landed));
    assert (UpToSend(server, trail, r) + [Sent(p, landed)])[|UpToSend(server, trail, r)|] == Sent(p, landed);
  }

  lemma CleanEnd(build: Value -> Built, start: Value, s: Session)
    requires Clean(build, start, s.server, s.trail) && s.outcome != Written
    ensures SafeEnd(build, start, s)
  {}

  lemma EndedIsSafe(build: Value -> Built, start: Value, server: Value, cache: Option<Value>, trail: seq<Call>,
                    r: Round)
    requires Clean(build, start, server, trail)
    ensures var end := Ended(build, server, cache, trail, r);
            && SafeEnd(build, start, end) && SentCount(end.trail) <= SentCount(trail) + 1
            && (Retries(build, server, r) ==> Clean(build, start, end.server, end.trail))
  {
    var end := Ended(build, server, cache, trail, r);
    AttemptIsClean(build, start, server, trail, r);
    if r.readRaises || !build(MergeAll(server, r.before)).Send? {
      CleanEnd(build, start, end);
    } else {
      AnsweredIsSafe(build, start, server, trail, r);
      if r.answer.Conflict? || r.answer.Failed? { CleanEnd(build, start, end); }
    }
  }

  lemma {:induction false} AttemptsAreSafe(build: Value -> Built, start: Value, server: Value, cache: Option<Value>,
                                           trail: seq<Call>, rounds: seq<Round>)
    requires Clean(build, start, server, trail)
    ensures var s := Attempts(build, server, cache, trail, rounds);
            SafeEnd(build, start, s) && SentCount(s.trail) <= SentCount(trail) + |rounds|
    decreases |rounds|
  {
    if rounds == [] {
      CleanEnd(build, start, Attempts(build, server, cache, trail, rounds));
    } else {
      EndedIsSafe(build, start, server, cache, trail, rounds[0]);
      var end := Ended(build, server, cache, trail, rounds[0]);
      if Retries(build, server, rounds[0]) {
        AttemptsAreSafe(build, start, end.server, end.cache, end.trail, rounds[1..]);
      }
    }
  }

  /** Both ways an attempt that sends can go: nothing of ours landed, or our patch did. */
  lemma AnsweredIsSafe(build: Value -> Built, start: Value, server: Value, trail: seq<Call>, r: Round)
    requires Clean(build, start, server, trail) && build(MergeAll(server, r.before)).Send?
    ensures var read := MergeAll(server, r.before);
            var p, sent := build(read).patch, UpToSend(server, trail, r);
            && Clean(build, start, MergeAll(read, r.between), sent + [Sent(p, false)])
            && Honest(build, sent + [Sent(p, true)]) && OwnLanded(sent + [Sent(p, true)])
            && SentCount(sent + [Sent(p, false)]) == SentCount(sent + [Sent(p, true)]) == SentCount(trail) + 1
  {
    AttemptIsClean(build, start, server, trail, r);
    var p := build(MergeAll(server, r.before)).patch;
    SendIsHonest(build, server, trail, r, p, true);
    SendIsHonest(build, server, trail, r, p, false);
    FailedSendClean(build, start, MergeAll(MergeAll(server, r.before), r.between), UpToSend(server, trail, r), p);
  }

  /** Conflict safety of one mutation, against any foreign patches and any answers: at most five
      PATCHes, each computed from a read of the same attempt; unless a patch of ours landed, and in
      particular on exhaustion, the status is what the foreign patches alone make of it. */
  lemma ConflictSafety(build: Value -> Built, start: Value, cache: Option<Value>, rounds: seq<Round>)
    requires |rounds| == MAX_CONFLICT_RETRIES
    ensures var s := Attempts(build, start, cache, [], rounds);
            && SentCount(s.trail) <= 5
            && SafeEnd(build, start, s)
  {
    AttemptsAreSafe(build, start, start, cache, [], rounds);
  }

  // ---------------------------------------------------------------- commuting with foreign writers

  /** Foreign patches leave the entry alone, and no read finds its map at the cap. */
  predicate Elsewhere(trail: seq<Call>, f: string, key: string) {
    forall i :: 0 <= i < |trail| ==>
      && (trail[i].Foreign? ==> Avoids(trail[i].patch, f, key))
      && (trail[i].Read? ==> |Entries(trail[i].status, f)| < STATUS_MAP_MAX_ENTRIES)
  }

  lemma {:induction false} ForeignPatchesAvoid(trail: seq<Call>, f: string, key: string)
    requires Elsewhere(trail, f, key)
    ensures forall i :: 0 <= i < |ForeignPatches(trail)| ==> Avoids(ForeignPatches(trail)[i], f, key)
  {
    if trail != [] { ForeignPatchesAvoid(trail[..|trail| - 1], f, key); }
  }

  /** A session in which a patch of ours landed, its reply lost or not, ends with that send. */
  ghost predicate EndsInSend(build: Value -> Built, start: Value, s: Session, before: seq<Call>, read: Value) {
    && build(read).Send?
    && s.trail == before + [Sent(build(read).patch, true)]
    && Read(read) in before
    && s.server == Merge(MergeAll(start, ForeignPatches(before)), build(read).patch)
  }

  lemma EndedInSend(build: Value -> Built, start: Value, server: Value, cache: Option<Value>, trail: seq<Call>,
                    r: Round)
    requires Clean(build, start, server, trail) && OwnLanded(Ended(build, server, cache, trail, r).trail)
    ensures EndsInSend(build, start, Ended(build, server, cache, trail, r), UpToSend(server, trail, r),
                       MergeAll(server, r.before))
  {
    EndedIsSafe(build, start, server, cache, trail, r);
    AttemptIsClean(build, start, server, trail, r);
    var read, before := MergeAll(server, r.before), UpToSend(server, trail, r);
    assert before[|trail| + |r.before|] == Read(read);
    if r.readRaises || !build(read).Send? || r.answer.Conflict? || r.answer.Failed? {
      NothingLanded(build, start, server, cache, trail, r);
    }
  }

  lemma NothingLanded(build: Value -> Built, start: Value, server: Value, cache: Option<Value>, trail: seq<Call>,
                      r: Round)
    requires Clean(build, start, server, trail)
    requires r.readRaises || !build(MergeAll(server, r.before)).Send? || r.answer.Conflict? || r.answer.Failed?
    ensures !OwnLanded(Ended(build, server, cache, trail, r).trail)
  {
    AttemptIsClean(build, start, server, trail, r);
    if !r.readRaises && build(MergeAll(server, r.before)).Send? { AnsweredIsSafe(build, start, server, trail, r); }
  }

  lemma {:induction false} LandedEndsInSend(build: Value -> Built, start: Value, server: Value, cache: Option<Value>,
                                            trail: seq<Call>, rounds: seq<Round>)
    returns (before: seq<Call>, read: Value)
    requires Clean(build, start, server, trail) && OwnLanded(Attempts(build, server, cache, trail, rounds).trail)
    ensures EndsInSend(build, start, Attempts(build, server, cache, trail, rounds), before, read)
    decreases |rounds|
  {
    var r := rounds[0];
    if Retries(build, server, r) {
      EndedIsSafe(build, start, server, cache, trail, r);
      var end := Ended(build, server, cache, trail, r);
      before, read := LandedEndsInSend(build, start, end.server, end.cache, end.trail, rounds[1..]);
    } else {
      EndedInSend(build, start, server, cache, trail, r);
      read, before := MergeAll(server, r.before), UpToSend(server, trail, r);
    }
  }

  /** A below-cap entry write that landed, whether or not its reply arrived, loses nothing and is not
      lost: with foreign writes elsewhere only, wherever they fall among the attempts, the final
      status is all of them plus the entry. */
  lemma NoWriteLost(f: string, key: string, encoded: Value, registry: Registry, start: Value, cache: Option<Value>,
                    rounds: seq<Round>)
    requires var s := Attempts(Setter(f, key, encoded, registry), start, cache, [], rounds);
             OwnLanded(s.trail) && Elsewhere(s.trail, f, key)
    ensures var s := Attempts(Setter(f, key, encoded, registry), start, cache, [], rounds);
            && s.server == Merge(MergeAll(start, ForeignPatches(s.trail)), EntryPatch(f, key, encoded))
            && s.server == MergeAll(Merge(start, EntryPatch(f, key, encoded)), ForeignPatches(s.trail))
  {
    var build := Setter(f, key, encoded, registry);
    var s := Attempts(build, start, cache, [], rounds);
    var before, read := LandedEndsInSend(build, start, start, cache, [], rounds);
    var i :| 0 <= i < |before| && before[i] == Read(read);
    assert s.trail[i] == Read(read);
    AppendCall(before, Sent(build(read).patch, true));
    BelowCapPatch(read, f, key, encoded, Protected(registry, f));
    ForeignPatchesAvoid(s.trail, f, key);
    EntryPatchCommutesAll(start, f, key, encoded, ForeignPatches(s.trail));
  }

  lemma BelowCapPatch(read: Value, f: string, key: string, encoded: Value, protected: set<string>)
    requires |Entries(read, f)| < STATUS_MAP_MAX_ENTRIES
    requires Build(Set(f, key, encoded, protected), read).Send?
    ensures Build(Set(f, key, encoded, protected), read).patch == EntryPatch(f, key, encoded)
  {}

  /** Whole-value writes do not commute: an event appended by someone else between the read and
      the PATCH of an append is lost. */
  lemma AppendLosesForeignEvent()
    ensures var mine, theirs := Str("mine"), Str("theirs");
            var round := Round([], false, [Obj(map[DEFERRED_EVENTS := Arr([theirs])])], Accepted);
            var s := Attempts(v => Build(Append(mine, None), v), Obj(map[]), None, [], [round]);
            s.outcome == Written && Deferred(s.server) == [mine]
  {
    var mine, theirs := Str("mine"), Str("theirs");
    var foreign := Obj(map[DEFERRED_EVENTS := Arr([theirs])]);
    var start := Obj(map[]);
    var p := Obj(map[DEFERRED_EVENTS := Arr([mine])]);
    assert Deferred(start) + [mine] == [mine];
    assert Build(Append(mine, None), start) == Send(p);
    assert MergeAll(start, []) == start;
    assert [foreign][..0] == [];
    assert MergeAll(start, [foreign]) == Merge(start, foreign);
    MergeMember(Merge(start, foreign), p, DEFERRED_EVENTS);
  }

  /** An append that lands on a status other than the one it was built from keeps everyone's events
      exactly when the list of events had not changed in between. */
  lemma AppendKeepsForeignEvents(read: Value, target: Value, entry: Value, max: Option<nat>)
    requires Build(Append(entry, max), read).Send?
    ensures var after := Merge(target, Build(Append(entry, max), read).patch);
            && Deferred(after) == Deferred(read) + [entry]
            && (Deferred(after) == Deferred(target) + [entry] <==> Deferred(target) == Deferred(read))
  {
    MergeMember(target, Build(Append(entry, max), read).patch, DEFERRED_EVENTS);
    var a, b := Deferred(read) + [entry], Deferred(target) + [entry];
    if a == b { assert a[..|a| - 1] == Deferred(read) && b[..|b| - 1] == Deferred(target); }
  }
}

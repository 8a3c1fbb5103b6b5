/** How a write of the status store ends, by what its attempts meet: read errors, patches built, and the
    API server's answers. */
module StatusRetries {
  import opened Basics
  import opened Json
  import opened StatusStore
  import opened StatusConflicts

  /** The status after the foreign patches of the first k rounds, with nothing of ours landed. */
  function ServerAt(server: Value, rounds: seq<Round>, k: nat): Value
    requires k <= |rounds|
  {
    if k == 0 then server
    else MergeAll(MergeAll(ServerAt(server, rounds, k - 1), rounds[k - 1].before), rounds[k - 1].between)
  }

  /** What attempt k reads, and what its patch meets. */
  function ReadAt(server: Value, rounds: seq<Round>, k: nat): Value
    requires k < |rounds|
  {
    MergeAll(ServerAt(server, rounds, k), rounds[k].before)
  }

  function TargetAt(server: Value, rounds: seq<Round>, k: nat): Value
    requires k < |rounds|
  {
    MergeAll(ReadAt(server, rounds, k), rounds[k].between)
  }

  /** Attempt k sends a patch and gets this answer. */
  predicate Answers(build: Value -> Built, server: Value, rounds: seq<Round>, k: int, answer: Answer) {
    && 0 <= k < |rounds| && !rounds[k].readRaises
    && build(ReadAt(server, rounds, k)).Send? && rounds[k].answer == answer
  }

  /** The first k attempts are all refused with a conflict. */
  predicate Conflicts(build: Value -> Built, server: Value, rounds: seq<Round>, k: int) {
    k <= |rounds| && forall i :: 0 <= i < k ==> Answers(build, server, rounds, i, Conflict)
  }

  lemma {:induction false} ServerShifts(server: Value, rounds: seq<Round>, k: nat)
    requires rounds != [] && k < |rounds|
    ensures ServerAt(ServerAt(server, rounds, 1), rounds[1..], k) == ServerAt(server, rounds, k + 1)
  {
    if k > 0 { ServerShifts(server, rounds, k - 1); }
  }

  lemma AnswersShift(build: Value -> Built, server: Value, rounds: seq<Round>, k: nat, answer: Answer)
    requires rounds != [] && k < |rounds| - 1
    ensures Answers(build, ServerAt(server, rounds, 1), rounds[1..], k, answer) <==>
              Answers(build, server, rounds, k + 1, answer)
  {
    ServerShifts(server, rounds, k);
  }

  /** How attempt k ends the session, if it is not refused with a conflict. */
  predicate EndsAt(build: Value -> Built, server: Value, rounds: seq<Round>, k: nat, s: Session)
    requires k < |rounds|
  {
    var read, target := ReadAt(server, rounds, k), TargetAt(server, rounds, k);
    if rounds[k].readRaises then s.outcome == Raised && s.server == read
    else match build(read)
      case Raise => s.outcome == Raised && s.server == read
      case Skip => s.outcome == Skipped && s.server == read
      case Send(p) =>
        match rounds[k].answer
        case Accepted => s.outcome == Written && s.server == Merge(target, p)
        case LostReply => s.outcome == Raised && s.server == Merge(target, p)
        case Failed => s.outcome == Raised && s.server == target
        case Conflict => false
  }

  lemma ConflictsShift(build: Value -> Built, server: Value, rounds: seq<Round>, k: nat)
    requires rounds != [] && Answers(build, server, rounds, 0, Conflict)
    requires Conflicts(build, ServerAt(server, rounds, 1), rounds[1..], k)
    ensures Conflicts(build, server, rounds, k + 1)
  {
    forall i | 0 <= i < k + 1 ensures Answers(build, server, rounds, i, Conflict) {
      if i > 0 {
        AnswersShift(build, server, rounds, i - 1, Conflict);
        assert Answers(build, ServerAt(server, rounds, 1), rounds[1..], i - 1, Conflict);
      }
    }
  }

  lemma EndShifts(build: Value -> Built, server: Value, rounds: seq<Round>, k: nat, s: Session)
    requires rounds != [] && k < |rounds| - 1 && EndsAt(build, ServerAt(server, rounds, 1), rounds[1..], k, s)
    ensures EndsAt(build, server, rounds, k + 1, s)
  {
    ServerShifts(server, rounds, k);
  }

  /** Conflicts are retried and nothing else is: the session ends with the first attempt that is not
      refused with a conflict, as that attempt does, or exhausted if there is none. */
  lemma {:induction false} SessionEnds(build: Value -> Built, server: Value, cache: Option<Value>, trail: seq<Call>,
                                       rounds: seq<Round>) returns (k: nat)
    ensures k <= |rounds| && Conflicts(build, server, rounds, k)
    ensures var s := Attempts(build, server, cache, trail, rounds);
            if k == |rounds| then s.outcome == Exhausted && s.server == ServerAt(server, rounds, k)
            else EndsAt(build, server, rounds, k, s)
    decreases |rounds|
  {
    k := 0;
    if rounds != [] && Retries(build, server, rounds[0]) {
      var end := Ended(build, server, cache, trail, rounds[0]);
      assert end.server == ServerAt(server, rounds, 1) by { assert ServerAt(server, rounds, 0) == server; }
      var rest := SessionEnds(build, end.server, end.cache, end.trail, rounds[1..]);
      var s := Attempts(build, end.server, end.cache, end.trail, rounds[1..]);
      ConflictsShift(build, server, rounds, rest);
      if rest == |rounds| - 1 {
        if rest > 0 { ServerShifts(server, rounds, rest - 1); LastShift(server, rounds); }
      } else {
        EndShifts(build, server, rounds, rest, s);
      }
      k := rest + 1;
    }
  }

  lemma LastShift(server: Value, rounds: seq<Round>)
    requires |rounds| > 1
    ensures ServerAt(ServerAt(server, rounds, 1), rounds[1..], |rounds| - 1) == ServerAt(server, rounds, |rounds|)
  {
    ServerShifts(server, rounds, |rounds| - 2);
  }

  /** After k conflicts the patch is accepted. */
  predicate AcceptedAfter(build: Value -> Built, server: Value, rounds: seq<Round>, k: int) {
    Conflicts(build, server, rounds, k) && Answers(build, server, rounds, k, Accepted)
  }

  /** A write gives up exactly after five conflicts. With fewer, an accepted patch ends it as written,
      on top of every foreign patch so far; and it is written in no other way. */
  lemma FiveConflicts(build: Value -> Built, server: Value, cache: Option<Value>, trail: seq<Call>, rounds: seq<Round>)
    requires |rounds| == MAX_CONFLICT_RETRIES
    ensures var s := Attempts(build, server, cache, trail, rounds);
            && (s.outcome == Exhausted <==> Conflicts(build, server, rounds, 5))
            && (s.outcome == Written <==> exists k :: AcceptedAfter(build, server, rounds, k))
            && (forall k: nat :: AcceptedAfter(build, server, rounds, k) ==>
                  s.server == Merge(TargetAt(server, rounds, k), build(ReadAt(server, rounds, k)).patch))
  {
    var s := Attempts(build, server, cache, trail, rounds);
    var k := SessionEnds(build, server, cache, trail, rounds);
    forall j: nat | AcceptedAfter(build, server, rounds, j) ensures j == k {
      ConflictsStop(build, server, rounds, k, j);
      if k < 5 { ConflictsStop(build, server, rounds, j, k); }
    }
    if k < 5 {
      assert !Answers(build, server, rounds, k, Conflict);
      assert s.outcome == Written <==> AcceptedAfter(build, server, rounds, k);
    }
  }

  /** The conflicts stop before an attempt that gets no conflict. */
  lemma ConflictsStop(build: Value -> Built, server: Value, rounds: seq<Round>, k: nat, j: nat)
    requires Conflicts(build, server, rounds, k) && !Answers(build, server, rounds, j, Conflict)
    ensures k <= j
  {}
}

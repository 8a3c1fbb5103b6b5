/** Relist skipping and the Secret probe: what a skipped check can hide, and when it hides nothing. */
module SingletonProbes {
  import opened Basics
  import opened Election
  import opened GuardCache
  import opened Singleton
  import opened SingletonRuns

  /** The CR awaits its probe, and the probe would settle it. */
  predicate Settles(p: Probes, cr: Cr, answers: map<string, Answer>) {
    Awaits(p.done, cr.name, cr.spec) && !AnswerFor(answers, cr.name).Unresolved?
  }

  lemma {:induction false} ProbedGrows(p: Probes, items: seq<Cr>, answers: map<string, Answer>)
    ensures p.done <= Probed(p, items, answers).done
  {
    if items != [] { ProbedGrows(p, items[..|items| - 1], answers); }
  }

  /** After the probes no listed CR is left that an answer would settle. */
  lemma {:induction false} ProbedSettled(p: Probes, items: seq<Cr>, answers: map<string, Answer>)
    ensures forall x :: x in items ==> !Settles(Probed(p, items, answers), x, answers)
  {
    if items != [] {
      ProbedSettled(p, items[..|items| - 1], answers);
      assert items == items[..|items| - 1] + [items[|items| - 1]];
    }
  }

  lemma {:induction false} NothingToProbe(p: Probes, items: seq<Cr>, answers: map<string, Answer>)
    requires forall x :: x in items ==> !Settles(p, x, answers)
    ensures Probed(p, items, answers) == p
  {
    if items != [] {
      assert items[|items| - 1] in items;
      forall x | x in items[..|items| - 1] ensures !Settles(p, x, answers) { assert x in items; }
      NothingToProbe(p, items[..|items| - 1], answers);
    }
  }

  /** What a skip hides: the check it leaves out would have changed the probes exactly when some listed
      CR awaits its probe and the Secret can be read, or is forbidden, by now. */
  lemma SkipHidesProbe(p: Probes, items: seq<Cr>, answers: map<string, Answer>)
    ensures Probed(p, items, answers) != p <==> exists x :: x in items && Settles(p, x, answers)
  {
    if x :| x in items && Settles(p, x, answers) {
      ProbedSettled(p, items, answers);
    } else {
      NothingToProbe(p, items, answers);
    }
  }

  // ---------------------------------------------------------------- streams whose probes all resolve

  /** Every Secret that a listed CR names can be read or is forbidden. */
  predicate Resolved(e: Change) {
    e.listing.Some? && forall x :: x in e.listing.value && x.spec.secretRef ==>
          !AnswerFor(e.answers, x.name).Unresolved?
  }

  /** Nobody in the cluster, and no cached surface, awaits its probe. */
  predicate AllProbed(h: Handler, c: Cluster) {
    && (forall k :: k in c ==> !Awaits(h.probes.done, k, c[k].spec))
    && (forall k :: k in h.cache.data ==> !Awaits(h.probes.done, k, h.cache.data[k].spec))
  }

  lemma ProbedCluster(p: Probes, e: Change, after: Cluster)
    requires Resolved(e) && ListingOf(e.listing.value, after) && Keyed(after)
    ensures forall k :: k in after ==> !Awaits(ProbedAll(p, e.listing, e.answers).done, k, after[k].spec)
  {
    var items := e.listing.value;
    ProbedSettled(p, items, e.answers);
    forall k | k in after
      ensures !Awaits(ProbedAll(p, e.listing, e.answers).done, k, after[k].spec)
    {
      assert after[k] in items;
    }
  }

  lemma SkippedProbes(h: Handler, c: Cluster, e: Change, after: Cluster)
    requires Keyed(c) && AllProbed(h, c) && Skips(h, e) && Follows(c, e, after) && e.listing.Some? &&
             ListingOf(e.listing.value, after)
    ensures ProbedAll(h.probes, e.listing, e.answers) == h.probes
    ensures forall k :: k in after ==> !Awaits(h.probes.done, k, after[k].spec)
  {
    NothingToProbe(h.probes, e.listing.value, e.answers);
  }

  lemma CheckedProbes(h: Handler, e: Change, after: Cluster)
    requires Valid(h.cache) && Resolved(e) && ListingOf(e.listing.value, after) && Keyed(after)
    requires forall k :: k in h.cache.data ==> !Awaits(h.probes.done, k, h.cache.data[k].spec)
    requires e.kind != Deleted ==> e.body.name in after && after[e.body.name] == e.body
    ensures Skips(h, e) || AllProbed(Handled(h, e), after)
  {
    ProbedGrows(h.probes, e.listing.value, e.answers);
    ProbedCluster(h.probes, e, after);
    PoppedValid(h.cache, e.body.name);
    TouchedValid(h.cache, e.body.name);
    PutValid(LookedUp(h, e), e.body.name, SurfaceOf(e.body));
  }

  lemma NextProbes(h: Handler, c: Cluster, e: Change, after: Cluster)
    requires Valid(h.cache) && Keyed(c) && AllProbed(h, c) && StepAt(c, e, after) && Resolved(e)
    ensures AllProbed(Handled(h, e), after) && Handled(h, e).probes == ProbedAll(h.probes, e.listing, e.answers)
  {
    FollowedKeyed(c, e, after);
    TouchedValid(h.cache, e.body.name);
    if Skips(h, e) { SkippedProbes(h, c, e, after); } else { CheckedProbes(h, e, after); }
  }

  /** On a stream whose probes all resolve, skipping hides no probe: the handler has warned the same CRs
      of a forbidden Secret, in the same order, as one that always relists. */
  lemma {:induction false} ResolvedProbesAreVisible(clusters: seq<Cluster>, changes: seq<Change>)
    requires Stream(clusters, changes) && forall i :: 0 <= i < |changes| ==> Resolved(changes[i])
    ensures HandleAll(changes).probes == ProbeAll(changes) && AllProbed(HandleAll(changes), clusters[|changes|])
  {
    if changes != [] {
      var n := |changes| - 1;
      assert Stream(clusters[..|changes|], changes[..n]) by {
        assert forall i :: 0 <= i < n ==> StepAt(clusters[i], changes[i], clusters[i + 1]);
      }
      ResolvedProbesAreVisible(clusters[..|changes|], changes[..n]);
      RunSettled(clusters[..|changes|], changes[..n]);
      assert StepAt(clusters[n], changes[n], clusters[n + 1]) && Resolved(changes[n]);
      NextProbes(HandleAll(changes[..n]), clusters[n], changes[n], clusters[n + 1]);
    }
  }

  // ---------------------------------------------------------------- a stream that hides one

  const NAMED := Cr("a", "1", At(0), Spec("", true, ""), "", "")
  const NAMED_STILL := Cr("a", "1", At(0), Spec("", true, ""), "", "s")

  lemma ProbedOne(p: Probes, cr: Cr, answers: map<string, Answer>)
    ensures Probed(p, [cr], answers) == ProbeOne(p, cr, answers)
  {
    assert [cr][..0] == [];
  }

  lemma TwoChanges(a: Change, b: Change)
    ensures HandleAll([a, b]) == Handled(Handled(NEW_HANDLER, a), b)
    ensures ProbeAll([a, b]) == ProbedAll(ProbedAll(NO_PROBES, a.listing, a.answers), b.listing, b.answers)
  {
    assert [a, b][..1] == [a] && [a][..0] == [];
    assert HandleAll([a]) == Handled(NEW_HANDLER, a) && ProbeAll([a]) == ProbedAll(NO_PROBES, a.listing, a.answers);
  }

  const FIRST := Change(Added, NAMED, Some([NAMED]), map[])
  const SECOND := Change(Modified, NAMED_STILL, Some([NAMED_STILL]), map["a" := Forbidden])

  lemma TransientStream()
    ensures Stream([map[], map["a" := NAMED], map["a" := NAMED_STILL]], [FIRST, SECOND])
  {}

  lemma FirstHandled()
    ensures var h := Handled(NEW_HANDLER, FIRST);
            && h.guard == Checked(NEW_GUARD, Some([NAMED])) && h.cache == Put(EMPTY_CACHE, "a", SurfaceOf(NAMED))
            && h.probes == Probed(NO_PROBES, [NAMED], map[])
  {}

  lemma TransientSkips(h: Handler)
    requires h.guard == Checked(NEW_GUARD, Some([NAMED])) && h.cache == Put(EMPTY_CACHE, "a", SurfaceOf(NAMED))
    ensures Skips(h, SECOND)
  {
    CheckQuiets(NEW_GUARD, [NAMED]);
    PutValid(EMPTY_CACHE, "a", SurfaceOf(NAMED));
  }

  lemma TransientProbes()
    ensures HandleAll([FIRST, SECOND]).probes.denied == [] && ProbeAll([FIRST, SECOND]).denied == ["a"]
  {
    TwoChanges(FIRST, SECOND);
    FirstHandled();
    TransientSkips(Handled(NEW_HANDLER, FIRST));
    ProbedOne(NO_PROBES, NAMED, map[]);
    ProbedOne(NO_PROBES, NAMED_STILL, map["a" := Forbidden]);
  }

  /** The probe that failed for another reason at first is not repeated on a status-only update, so the
      warning that the read is forbidden by then does not come, on a stream with current listings. */
  lemma TransientProbeIsForgotten() returns (clusters: seq<Cluster>, changes: seq<Change>)
    ensures Stream(clusters, changes)
    ensures HandleAll(changes).probes.denied == [] && ProbeAll(changes).denied == ["a"]
  {
    clusters, changes := [map[], map["a" := NAMED], map["a" := NAMED_STILL]], [FIRST, SECOND];
    TransientStream();
    TransientProbes();
  }
}

/** Skipping the relist is invisible: the watch handler with its bounded cache does what a handler
    that relists on every event does. */
module SingletonRuns {
  import opened Basics
  import Ordering
  import opened Election
  import opened GuardCache
  import opened Singleton

  /** The CRs of the namespace by name. */
  type Cluster = map<string, Cr>

  predicate Keyed(c: Cluster) { forall k :: k in c ==> c[k].name == k }

  /** A successful, up-to-date listing: each CR of the cluster once, in any order. */
  ghost predicate ListingOf(items: seq<Cr>, c: Cluster) {
    Proper(items) && forall x :: x in items <==> x.name in c && c[x.name] == x
  }

  predicate SameIdentity(a: Cr, b: Cr) { a.name == b.name && a.uid == b.uid && a.created == b.created }

  /** How the event follows from the cluster it finds. Name, uid and creation time of a CR never
      change; a replay, after a gap in the watch, may find any cluster. */
  predicate Follows(c: Cluster, e: Change, after: Cluster) {
    var name := e.body.name;
    match e.kind
    case Replayed => Keyed(after) && name in after && after[name] == e.body
    case Added => name !in c && after == c[name := e.body]
    case Modified => name in c && SameIdentity(c[name], e.body) && after == c[name := e.body]
    case Deleted => name in c && after == c - {name}
  }

  /** A stream of events from an empty namespace, each with a successful, up-to-date listing. */
  ghost predicate Stream(clusters: seq<Cluster>, changes: seq<Change>) {
    && |clusters| == |changes| + 1 && clusters[0] == map[]
    && forall i :: 0 <= i < |changes| ==> StepAt(clusters[i], changes[i], clusters[i + 1])
  }

  ghost predicate StepAt(c: Cluster, e: Change, after: Cluster) {
    Follows(c, e, after) && e.listing.Some? && ListingOf(e.listing.value, after)
  }

  // ---------------------------------------------------------------- the snapshot depends on identities

  /** Each CR of `a` has its like in `b`. */
  ghost predicate Covered(a: seq<Cr>, b: seq<Cr>) { forall x {:trigger HasLike(x, b)} :: x in a ==> HasLike(x, b) }

  predicate HasLike(x: Cr, b: seq<Cr>) { exists y :: y in b && SameIdentity(x, y) }

  lemma LikeOf(a: seq<Cr>, b: seq<Cr>, x: Cr) returns (y: Cr)
    requires Covered(a, b) && x in a
    ensures y in b && SameIdentity(x, y)
  {
    assert HasLike(x, b);
    y :| y in b && SameIdentity(x, y);
  }

  lemma SeniorAlike(a: Cr, b: Cr, x: Cr, y: Cr)
    requires Senior(a, b) && SameIdentity(a, x) && SameIdentity(y, b)
    ensures Senior(x, y)
  {}

  lemma WinnersAlike(a: seq<Cr>, b: seq<Cr>)
    requires Proper(a) && Proper(b) && Covered(a, b) && Covered(b, a) && a != []
    ensures b != [] && SameIdentity(Oldest(a), Oldest(b))
  {
    OldestLeads(a);
    var m := LikeOf(a, b, Oldest(a));
    forall x | x in b ensures Senior(m, x) {
      var y := LikeOf(b, a, x);
      SeniorAlike(Oldest(a), y, m, x);
    }
    LeaderIsOldest(b, m);
  }

  lemma {:induction false} LosersHold(items: seq<Cr>, winner: Cr, x: Cr)
    ensures x in Losers(items, winner) <==> x in items && !SameCr(x, winner)
  {
    if items != [] {
      LosersHold(items[..|items| - 1], winner, x);
      assert items == items[..|items| - 1] + [items[|items| - 1]];
    }
  }

  lemma LoserNamesIn(a: seq<Cr>, b: seq<Cr>, name: string)
    requires Covered(a, b) && a != [] && b != [] && SameIdentity(Oldest(a), Oldest(b))
    ensures name in SnapshotOf(a).losers ==> name in SnapshotOf(b).losers
  {
    if name in SnapshotOf(a).losers {
      var x :| x in LosersOf(a) && NameOf(x) == name;
      LosersHold(a, Oldest(a), x);
      var y := LikeOf(a, b, x);
      LosersHold(b, Oldest(b), y);
    }
  }

  lemma SnapshotsAlike(a: seq<Cr>, b: seq<Cr>)
    requires Proper(a) && Proper(b) && Covered(a, b) && Covered(b, a)
    ensures SnapshotOf(a) == SnapshotOf(b)
  {
    if a == [] {
      if b != [] { var y := LikeOf(b, a, b[0]); assert false; }
    } else {
      WinnersAlike(a, b);
      forall name ensures name in SnapshotOf(a).losers <==> name in SnapshotOf(b).losers {
        LoserNamesIn(a, b, name);
        LoserNamesIn(b, a, name);
      }
    }
  }

  // ---------------------------------------------------------------- a check that changes nothing

  lemma {:induction false} WarnedAll(g: Guard, items: seq<Cr>)
    ensures var after := Warned(g, items);
            && after.last == g.last && g.warned <= after.warned
            && forall x :: x in items ==> !Unwarned(after.warned, x.name, x.spec)
  {
    if items != [] {
      WarnedAll(g, items[..|items| - 1]);
      assert items == items[..|items| - 1] + [items[|items| - 1]];
    }
  }

  lemma {:induction false} NothingToWarn(g: Guard, items: seq<Cr>)
    requires forall x :: x in items ==> !Unwarned(g.warned, x.name, x.spec)
    ensures Warned(g, items) == g
  {
    if items != [] {
      assert items[|items| - 1] in items;
      forall x | x in items[..|items| - 1] ensures !Unwarned(g.warned, x.name, x.spec) { assert x in items; }
      NothingToWarn(g, items[..|items| - 1]);
    }
  }

  /** After a check the guard has nothing left to say about the listing. */
  predicate Quiet(g: Guard, items: seq<Cr>) {
    && (Parses(items) ==> g.last == Some(SnapshotOf(items)))
    && forall x :: x in items ==> !Unwarned(g.warned, x.name, x.spec)
  }

  lemma CheckQuiets(g: Guard, items: seq<Cr>)
    ensures Quiet(Checked(g, Some(items)), items) && g.warned <= Checked(g, Some(items)).warned
  {
    WarnedAll(Enforced(g, items), items);
  }

  lemma QuietCheck(g: Guard, items: seq<Cr>)
    requires Quiet(g, items)
    ensures Checked(g, Some(items)) == g
  {
    NothingToWarn(g, items);
  }

  // ---------------------------------------------------------------- the skip

  /** The cached surfaces were warned about if they had to be. */
  predicate CacheWarned(h: Handler) {
    forall k :: k in h.cache.data ==> !Unwarned(h.guard.warned, k, h.cache.data[k].spec)
  }

  /** Quiet about every listing of the cluster. */
  ghost predicate Settled(h: Handler, c: Cluster) {
    Valid(h.cache) && Keyed(c) && CacheWarned(h) &&
        (h.guard.last.Some? ==> forall items :: ListingOf(items, c) ==> Quiet(h.guard, items))
  }

  lemma ListingsCover(a: seq<Cr>, b: seq<Cr>, c: Cluster, after: Cluster)
    requires ListingOf(a, c) && ListingOf(b, after) && Keyed(c) && Keyed(after)
    requires forall k :: k in c ==> k in after && SameIdentity(c[k], after[k])
    ensures Covered(a, b)
  {
    forall x | x in a ensures HasLike(x, b) {
      var y := after[x.name];
      assert y in b && SameIdentity(x, y);
    }
  }

  lemma ParsesAlike(a: seq<Cr>, b: seq<Cr>)
    requires Covered(b, a) && Parses(a)
    ensures Parses(b)
  {
    forall x | x in b ensures !x.created.Garbled? { var y := LikeOf(b, a, x); }
  }

  /** Two listings of one cluster say the same. */
  lemma QuietMoves(g: Guard, a: seq<Cr>, b: seq<Cr>, c: Cluster)
    requires Keyed(c) && ListingOf(a, c) && ListingOf(b, c) && Quiet(g, a)
    ensures Quiet(g, b)
  {
    ListingsCover(a, b, c, c);
    ListingsCover(b, a, c, c);
    SnapshotsAlike(a, b);
    if Parses(b) { ParsesAlike(b, a); }
    forall x | x in b ensures x in a {}
  }

  /** A cluster changed in one CR that keeps its identity and needs no new warning. */
  lemma QuietAcross(g: Guard, a: seq<Cr>, b: seq<Cr>, c: Cluster, body: Cr)
    requires Keyed(c) && body.name in c && SameIdentity(c[body.name], body) && !Unwarned(g.warned, body.name, body.spec)
    requires ListingOf(a, c) && ListingOf(b, c[body.name := body]) && Quiet(g, a)
    ensures Quiet(g, b)
  {
    ListingsCover(a, b, c, c[body.name := body]);
    ListingsCover(b, a, c[body.name := body], c);
    SnapshotsAlike(a, b);
    if Parses(b) { ParsesAlike(b, a); }
    forall x | x in b ensures !Unwarned(g.warned, x.name, x.spec) {
      if x.name != body.name { assert x in a; }
    }
  }

  lemma ListingBack(b: seq<Cr>, c: Cluster, body: Cr) returns (a: seq<Cr>)
    requires Keyed(c) && body.name in c && SameIdentity(c[body.name], body) && ListingOf(b, c[body.name := body])
    ensures ListingOf(a, c)
  {
    a := seq(|b|, i requires 0 <= i < |b| => if b[i].name == body.name then c[body.name] else b[i]);
    forall x ensures x in a <==> x.name in c && c[x.name] == x {
      if x in a {
        var i :| 0 <= i < |a| && a[i] == x;
        assert b[i] in b;
      }
      if x.name in c && c[x.name] == x {
        var y := c[body.name := body][x.name];
        assert y in b;
        var i :| 0 <= i < |b| && b[i] == y;
        assert a[i] == x;
      }
    }
  }

  /** Where the handler skips, a relist would have changed nothing. */
  lemma SkipIsNoOp(h: Handler, c: Cluster, e: Change, after: Cluster, items: seq<Cr>)
    requires Settled(h, c) && Skips(h, e) && Follows(c, e, after) && ListingOf(items, after)
    ensures Quiet(h.guard, items)
  {
    var was := ListingBack(items, c, e.body);
    assert Quiet(h.guard, was);
    QuietAcross(h.guard, was, items, c, e.body);
  }

  lemma SkipSettled(h: Handler, c: Cluster, e: Change, after: Cluster)
    requires Settled(h, c) && StepAt(c, e, after) && Skips(h, e)
    ensures Settled(Handled(h, e), after) && Handled(h, e).guard == Checked(h.guard, e.listing)
  {
    TouchedValid(h.cache, e.body.name);
    SkipIsNoOp(h, c, e, after, e.listing.value);
    QuietCheck(h.guard, e.listing.value);
    SettledBy(Handled(h, e), after, e.listing.value);
  }

  /** After a full check the handler's cache is one whose surfaces were warned about. */
  lemma CheckedCache(h: Handler, g: Guard, e: Change)
    requires Valid(h.cache) && CacheWarned(h) && h.guard.warned <= g.warned
    requires e.kind != Deleted ==> !Unwarned(g.warned, e.body.name, e.body.spec)
    ensures var cache := if e.kind == Deleted then Popped(h.cache, e.body.name)
            else Put(LookedUp(h, e), e.body.name, SurfaceOf(e.body));
            Valid(cache) && CacheWarned(Handler(g, NO_PROBES, cache))
  {
    PoppedValid(h.cache, e.body.name);
    TouchedValid(h.cache, e.body.name);
    PutValid(LookedUp(h, e), e.body.name, SurfaceOf(e.body));
  }

  lemma FollowedKeyed(c: Cluster, e: Change, after: Cluster)
    requires Keyed(c) && Follows(c, e, after)
    ensures Keyed(after) && (e.kind != Deleted ==> e.body.name in after && after[e.body.name] == e.body)
  {}

  lemma HandledSettled(h: Handler, c: Cluster, e: Change, after: Cluster)
    requires Settled(h, c) && StepAt(c, e, after)
    ensures Settled(Handled(h, e), after) && Handled(h, e).guard == Checked(h.guard, e.listing)
  {
    if Skips(h, e) {
      SkipSettled(h, c, e, after);
    } else {
      var items := e.listing.value;
      FollowedKeyed(c, e, after);
      CheckQuiets(h.guard, items);
      if e.kind != Deleted { BodyWarned(Checked(h.guard, e.listing), e, after, items); }
      CheckedCache(h, Checked(h.guard, e.listing), e);
      SettledBy(Handled(h, e), after, items);
    }
  }

  lemma BodyWarned(g: Guard, e: Change, after: Cluster, items: seq<Cr>)
    requires e.kind != Deleted && e.body.name in after && after[e.body.name] == e.body && ListingOf(items, after) &&
             Quiet(g, items)
    ensures !Unwarned(g.warned, e.body.name, e.body.spec)
  {
    assert e.body in items;
  }

  lemma SettledBy(h: Handler, c: Cluster, items: seq<Cr>)
    requires Valid(h.cache) && Keyed(c) && CacheWarned(h) && ListingOf(items, c) && Quiet(h.guard, items)
    ensures Settled(h, c)
  {
    forall others | ListingOf(others, c) ensures Quiet(h.guard, others) { QuietMoves(h.guard, items, others, c); }
  }

  lemma {:induction false} RunSettled(clusters: seq<Cluster>, changes: seq<Change>)
    requires Stream(clusters, changes)
    ensures Settled(HandleAll(changes), clusters[|changes|]) && HandleAll(changes).guard == RelistAll(changes)
  {
    if changes != [] {
      var n := |changes| - 1;
      assert Stream(clusters[..|changes|], changes[..n]) by {
        assert forall i :: 0 <= i < n ==> StepAt(clusters[i], changes[i], clusters[i + 1]);
      }
      RunSettled(clusters[..|changes|], changes[..n]);
      assert StepAt(clusters[n], changes[n], clusters[n + 1]);
      HandledSettled(HandleAll(changes[..n]), clusters[n], changes[n], clusters[n + 1]);
    }
  }

  /** Relist skipping is invisible: on every stream with successful, up-to-date listings, the handler
      has the remembered election, the warned set and the notices, in order, of the one that always
      relists, and its cache never exceeds 1000 entries. */
  lemma RelistSkippingIsInvisible(clusters: seq<Cluster>, changes: seq<Change>)
    requires Stream(clusters, changes)
    ensures HandleAll(changes).guard == RelistAll(changes)
    ensures |HandleAll(changes).cache.data| <= 1000
  {
    RunSettled(clusters, changes);
    Ordering.DistinctCount(HandleAll(changes).cache.order);
  }

  const SERVED := Cr("a", "1", At(0), Spec("redis", false, ""), "", "")
  const UNSERVED := Cr("a", "1", At(0), Spec("", false, ""), "", "")
  const UNSERVED_STILL := Cr("a", "1", At(0), Spec("", false, ""), "", "s")

  lemma WarnedOne(g: Guard, cr: Cr)
    ensures Warned(g, [cr]) == WarnOne(g, cr)
  {
    assert [cr][..0] == [];
  }

  lemma FirstIsServed(h: Handler)
    requires h == Handled(NEW_HANDLER, Change(Added, SERVED, Some([SERVED]), map[]))
    ensures h.guard.warned == {} && h.guard.last.Some? && Valid(h.cache)
    ensures h.guard == Checked(NEW_GUARD, Some([SERVED]))
  {
    WarnedOne(Enforced(NEW_GUARD, [SERVED]), SERVED);
    PutValid(EMPTY_CACHE, "a", SurfaceOf(SERVED));
  }

  /** The surface of an update whose listing failed is recorded like any other. */
  lemma FailureIsRecorded(h: Handler)
    requires Valid(h.cache) && !Skips(h, Change(Modified, UNSERVED, None, map[]))
    ensures var after := Handled(h, Change(Modified, UNSERVED, None, map[]));
            after.guard == h.guard && "a" in after.cache.data && after.cache.data["a"] == SurfaceOf(UNSERVED)
  {
    TouchedValid(h.cache, "a");
    PutValid(LookedUp(h, Change(Modified, UNSERVED, None, map[])), "a", SurfaceOf(UNSERVED));
  }

  lemma ThreeChanges(a: Change, b: Change, c: Change)
    ensures HandleAll([a, b, c]) == Handled(Handled(Handled(NEW_HANDLER, a), b), c)
    ensures RelistAll([a, b, c]) == Checked(Checked(Checked(NEW_GUARD, a.listing), b.listing), c.listing)
  {
    assert [a, b, c][..2] == [a, b] && [a, b][..1] == [a] && [a][..0] == [];
    assert HandleAll([a]) == Handled(NEW_HANDLER, a) && RelistAll([a]) == Checked(NEW_GUARD, a.listing);
  }

  lemma RelistWarns(g: Guard)
    requires g.warned == {}
    ensures Checked(g, Some([UNSERVED_STILL])).warned == {"a"}
  {
    WarnedOne(Enforced(g, [UNSERVED_STILL]), UNSERVED_STILL);
  }

  /** A listing that failed is forgotten: the surface is recorded all the same, so the next update of
      the CR skips the relist that would have warned about it. */
  lemma FailedListingIsForgotten()
    ensures var changes := [Change(Added, SERVED, Some([SERVED]), map[]), Change(Modified, UNSERVED, None, map[]),
                            Change(Modified, UNSERVED_STILL, Some([UNSERVED_STILL]), map[])];
            HandleAll(changes).guard.warned == {} && RelistAll(changes).warned == {"a"}
  {
    var a, b, c := Change(Added, SERVED, Some([SERVED]), map[]), Change(Modified, UNSERVED, None, map[]),
                   Change(Modified, UNSERVED_STILL, Some([UNSERVED_STILL]), map[]);
    var h1 := Handled(NEW_HANDLER, a);
    ThreeChanges(a, b, c);
    FirstIsServed(h1);
    assert h1.cache == Put(EMPTY_CACHE, "a", SurfaceOf(SERVED));
    PutValid(EMPTY_CACHE, "a", SurfaceOf(SERVED));
    assert SurfaceOf(SERVED) != SurfaceOf(UNSERVED) by { assert |"redis"| != 0; }
    FailureIsRecorded(h1);
    assert Skips(Handled(h1, b), c);
    RelistWarns(h1.guard);
  }

  /** When a failed listing is forgotten: the next update with the same surface skips the relist
      exactly when the guard had resolved the namespace before. */
  lemma ForgottenOnceResolved(h: Handler, e: Change, later: Change)
    requires Valid(h.cache) && e.kind != Deleted && e.listing.None? && later.kind == Modified
    requires later.body.name == e.body.name && SurfaceOf(later.body) == SurfaceOf(e.body)
    ensures Skips(Handled(h, e), later) <==> h.guard.last.Some?
  {
    TouchedValid(h.cache, e.body.name);
    if !Skips(h, e) { PutValid(LookedUp(h, e), e.body.name, SurfaceOf(e.body)); }
  }
}

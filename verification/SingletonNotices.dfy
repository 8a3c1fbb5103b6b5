/** What the singleton guard says, by its inputs: the notices of an election, the warnings, the probes, and
    the events that make it look again. */
module SingletonNotices {
  import opened Basics
  import opened Ordering
  import opened Election
  import opened GuardCache
  import opened Singleton

  // ---------------------------------------------------------------- the election

  /** In a proper list the winner is at one place, and every other CR loses. */
  lemma WinnerAt(items: seq<Cr>) returns (k: nat)
    requires Proper(items) && items != []
    ensures k < |items| && items[k] == Oldest(items)
    ensures forall i :: 0 <= i < |items| ==> (SameCr(items[i], Oldest(items)) <==> i == k)
  {
    OldestLeads(items);
    k :| 0 <= k < |items| && items[k] == Oldest(items);
  }

  /** The list without its k-th entry. */
  function Others(items: seq<Cr>, k: int): seq<Cr> {
    if 0 <= k < |items| then items[..k] + items[k + 1..] else items
  }

  lemma {:induction false} LosersAre(items: seq<Cr>, winner: Cr, k: int)
    requires forall i :: 0 <= i < |items| ==> (SameCr(items[i], winner) <==> i == k)
    ensures Losers(items, winner) == Others(items, k)
  {
    if items != [] {
      var n := |items| - 1;
      LosersAre(items[..n], winner, k);
      if k == n {
        assert Others(items, k) == items[..n];
      } else if 0 <= k < n {
        assert items[..n][..k] == items[..k] && items[k + 1..] == items[..n][k + 1..] + [items[n]];
      } else {
        assert items == items[..n] + [items[n]];
      }
    }
  }

  lemma {:induction false} ConflictsAre(losers: seq<Cr>)
    ensures |Conflicts(losers)| == |losers|
    ensures forall i :: 0 <= i < |losers| ==> Conflicts(losers)[i] == Conflict(NameOf(losers[i]))
  {
    if losers != [] { ConflictsAre(losers[..|losers| - 1]); }
  }

  /** The guard remembers this winner and these losers. */
  predicate Remembers(g: Guard, winner: Cr, others: seq<Cr>) {
    g.last.Some? && g.last.value == Snapshot(Some(NameOf(winner)), set x | x in others :: NameOf(x))
  }

  /** An election of two CRs or more that the guard does not remember is announced once: one conflict for
      each CR but the winner, in the order of the listing, and then the winner. */
  lemma ConflictIsAnnounced(g: Guard, items: seq<Cr>) returns (k: nat, said: seq<Notice>)
    requires Proper(items) && Parses(items) && |items| >= 2
    ensures k < |items| && items[k] == Oldest(items)
    ensures Remembers(Enforced(g, items), items[k], Others(items, k))
    ensures Enforced(g, items).notices == if Remembers(g, items[k], Others(items, k)) then g.notices
            else g.notices + said
    ensures |said| == |items| && said[|items| - 1] == Active(NameOf(items[k]))
    ensures forall i :: 0 <= i < |items| - 1 ==> said[i] == Conflict(NameOf(items[if i < k then i else i + 1]))
  {
    k := WinnerAt(items);
    LosersAre(items, Oldest(items), k);
    var others := Others(items, k);
    ConflictsAre(others);
    assert |others| == |items| - 1;
    assert LosersOf(items) == others;
    said := Conflicts(others) + [Active(NameOf(items[k]))];
    assert SnapshotOf(items) == Snapshot(Some(NameOf(items[k])), set x | x in others :: NameOf(x));
  }

  /** Without a conflict, or if a creation time does not parse, nothing is announced. */
  lemma NoConflictIsSilent(g: Guard, items: seq<Cr>)
    requires !Parses(items) || |items| <= 1
    ensures Enforced(g, items).notices == g.notices
    ensures !Parses(items) ==> Enforced(g, items) == g
    ensures Parses(items) && items == [] ==> Enforced(g, items).last == Some(Snapshot(None, {}))
    ensures Parses(items) && |items| == 1 ==> Enforced(g, items).last == Some(Snapshot(Some(NameOf(items[0])), {}))
  {
    if |items| == 1 {
      var k := WinnerAt(items);
      LosersAre(items, Oldest(items), k);
      assert LosersOf(items) == [];
    }
    if |items| <= 1 { assert SnapshotOf(items).losers == {}; }
  }

  // ---------------------------------------------------------------- the warning about a missing Redis URL

  /** A named CR of the list has neither a Redis URL nor a Secret to take it from. */
  predicate LacksUrl(items: seq<Cr>, name: string) {
    name != "" && exists i :: 0 <= i < |items| && items[i].name == name && items[i].spec.redisUrl == "" &&
                              !items[i].spec.secretRef
  }

  lemma LacksGrows(items: seq<Cr>, name: string)
    requires items != []
    ensures var last := items[|items| - 1];
            LacksUrl(items, name) <==>
              || LacksUrl(items[..|items| - 1], name)
              || (name != "" && last.name == name && last.spec.redisUrl == "" && !last.spec.secretRef)
  {
    var front := items[..|items| - 1];
    assert forall i :: 0 <= i < |front| ==> front[i] == items[i];
    if LacksUrl(front, name) {
      var i :| 0 <= i < |front| && front[i].name == name && front[i].spec.redisUrl == "" && !front[i].spec.secretRef;
      assert items[i].name == name;
    }
  }

  /** Each CR that lacks a URL and was not warned of before is warned of once, and nothing else is said. */
  lemma {:induction false} UrlWarnings(g: Guard, items: seq<Cr>) returns (said: seq<Notice>)
    ensures Warned(g, items).notices == g.notices + said && Warned(g, items).last == g.last
    ensures Distinct(said)
    ensures forall n :: n in said <==> n.RedisUrlEmpty? && n.name !in g.warned && LacksUrl(items, n.name)
    ensures forall name :: name in Warned(g, items).warned <==> name in g.warned || LacksUrl(items, name)
  {
    said := [];
    if items != [] {
      var front, cr := items[..|items| - 1], items[|items| - 1];
      said := UrlWarnings(g, front);
      forall name ensures LacksUrl(items, name) <==>
            LacksUrl(front, name) || (name != "" && cr.name == name && cr.spec.redisUrl == "" && !cr.spec.secretRef)
      {
        LacksGrows(items, name);
      }
      if Unwarned(Warned(g, front).warned, cr.name, cr.spec) {
        assert RedisUrlEmpty(cr.name) !in said;
        said := said + [RedisUrlEmpty(cr.name)];
      }
    }
  }

  /** A check says what its election says, then its warnings; a failed listing says nothing. */
  lemma CheckSays(g: Guard, items: seq<Cr>) returns (warnings: seq<Notice>)
    ensures Checked(g, Some(items)).notices == Enforced(g, items).notices + warnings
    ensures Checked(g, Some(items)).last == Enforced(g, items).last
    ensures forall n :: n in warnings <==> n.RedisUrlEmpty? && n.name !in g.warned && LacksUrl(items, n.name)
    ensures Distinct(warnings) && Checked(g, None) == g
  {
    warnings := UrlWarnings(Enforced(g, items), items);
  }

  // ---------------------------------------------------------------- the probe of a named Secret

  /** A named CR of the list takes its URL from a Secret, and the probe gets this answer. */
  predicate Answered(items: seq<Cr>, answers: map<string, Answer>, name: string, answer: Answer) {
    && name != "" && name in answers && answers[name] == answer
    && exists i :: 0 <= i < |items| && items[i].name == name && items[i].spec.secretRef
  }

  lemma AnsweredGrows(items: seq<Cr>, answers: map<string, Answer>, name: string, answer: Answer)
    requires items != []
    ensures var last := items[|items| - 1];
            Answered(items, answers, name, answer) <==>
              || Answered(items[..|items| - 1], answers, name, answer)
              || (name != "" && name in answers && answers[name] == answer && last.name == name && last.spec.secretRef)
  {
    var front := items[..|items| - 1];
    assert forall i :: 0 <= i < |front| ==> front[i] == items[i];
    if Answered(front, answers, name, answer) {
      var i :| 0 <= i < |front| && front[i].name == name && front[i].spec.secretRef;
      assert items[i].name == name;
    }
  }

  /** A CR is settled once its probe is allowed or forbidden, and one that is forbidden is reported once;
      any other answer leaves it to be probed again. */
  lemma {:induction false} ProbesSettle(p: Probes, items: seq<Cr>, answers: map<string, Answer>)
    returns (said: seq<string>)
    ensures Probed(p, items, answers).denied == p.denied + said && Distinct(said)
    ensures forall n :: n in said <==> n !in p.done && Answered(items, answers, n, Forbidden)
    ensures forall n :: n in Probed(p, items, answers).done <==>
              n in p.done || Answered(items, answers, n, Granted) || Answered(items, answers, n, Forbidden)
  {
    said := [];
    if items != [] {
      var front, cr := items[..|items| - 1], items[|items| - 1];
      said := ProbesSettle(p, front, answers);
      forall n, a
        ensures Answered(items, answers, n, a) <==>
                  || Answered(front, answers, n, a)
                  || (n != "" && n in answers && answers[n] == a && cr.name == n && cr.spec.secretRef)
      {
        AnsweredGrows(items, answers, n, a);
      }
      if Awaits(Probed(p, front, answers).done, cr.name, cr.spec) && AnswerFor(answers, cr.name) == Forbidden {
        assert cr.name !in said;
        said := said + [cr.name];
      }
    }
  }

  // ---------------------------------------------------------------- which events make it look

  /** The bodies agree in everything that a relist reacts to. */
  predicate Alike(a: Cr, b: Cr) { a.name == b.name && a.uid == b.uid && a.spec == b.spec && a.labels == b.labels }

  lemma CacheAfter(h: Handler, e: Change)
    requires Valid(h.cache) && e.kind != Deleted
    ensures var c := Handled(h, e).cache;
            Valid(c) && e.body.name in c.data && c.data[e.body.name] == Surface(e.body.uid, e.body.spec, e.body.labels)
  {
    TouchedValid(h.cache, e.body.name);
    PutValid(LookedUp(h, e), e.body.name, SurfaceOf(e.body));
  }

  /** After an event of a CR, once an election is known, an update of the same CR makes the handler look
      again exactly when uid, spec or labels changed: an update of the status alone is skipped. Every event
      that is not an update, and every event before an election is known, makes it look. */
  lemma LooksIff(h: Handler, e: Change, next: Change)
    requires Valid(h.cache) && e.kind != Deleted && next.body.name == e.body.name
    ensures var g := Handled(h, e);
            var looked := Handler(Checked(g.guard, next.listing), ProbedAll(g.probes, next.listing, next.answers),
                                  Handled(g, next).cache);
            if next.kind == Modified && g.guard.last.Some? && Alike(e.body, next.body)
            then Handled(g, next) == g.(cache := Handled(g, next).cache)
            else Handled(g, next) == looked
  {
    CacheAfter(h, e);
  }

  /** A deleted CR is forgotten, so that the next event under its name makes the handler look. */
  lemma LooksAfterDelete(h: Handler, e: Change, next: Change)
    requires Valid(h.cache) && e.kind == Deleted && next.body.name == e.body.name
    ensures var g := Handled(h, e);
            Handled(g, next).guard == Checked(g.guard, next.listing) &&
            Handled(g, next).probes == ProbedAll(g.probes, next.listing, next.answers)
  {
    PoppedValid(h.cache, e.body.name);
  }
}

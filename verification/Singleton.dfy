/** The singleton guard: change-gated notices, the one-time Redis URL warning, and the watch handler
    that skips the relist for status-only updates. */
module Singleton {
  import opened Basics
  import opened Election
  import opened GuardCache

  datatype Notice = Conflict(name: string) | Active(name: string) | RedisUrlEmpty(name: string)

  /** The election as the guard remembers it, by names. */
  datatype Snapshot = Snapshot(winner: Option<string>, losers: set<string>)

  datatype Guard = Guard(last: Option<Snapshot>, warned: set<string>, notices: seq<Notice>)

  const NEW_GUARD := Guard(None, {}, [])

  function NameOf(cr: Cr): string { if cr.name == "" then "<unnamed>" else cr.name }

  function Losers(items: seq<Cr>, winner: Cr): seq<Cr> {
    if items == [] then []
    else Losers(items[..|items| - 1], winner) + if SameCr(items[|items| - 1], winner) then [] else [items[|items| - 1]]
  }

  function Conflicts(losers: seq<Cr>): seq<Notice> {
    if losers == [] then [] else Conflicts(losers[..|losers| - 1]) + [Conflict(NameOf(losers[|losers| - 1]))]
  }

  function LosersOf(items: seq<Cr>): seq<Cr> { if items == [] then [] else Losers(items, Oldest(items)) }

  function SnapshotOf(items: seq<Cr>): Snapshot {
    Snapshot(if items == [] then None else Some(NameOf(Oldest(items))), set x | x in LosersOf(items) :: NameOf(x))
  }

  /** Speaks only when the snapshot changed, and only of a conflict; raises, changing nothing, if a
      creation time does not parse. */
  function Enforced(g: Guard, items: seq<Cr>): Guard {
    if !Parses(items) || g.last == Some(SnapshotOf(items)) then g
    else
      var losers := LosersOf(items);
      g.(last := Some(SnapshotOf(items)),
         notices := g.notices + if losers == [] then [] else Conflicts(losers) + [Active(NameOf(Oldest(items)))])
  }

  predicate NeedsUrl(spec: Spec) { spec.redisUrl == "" && !spec.secretRef }

  predicate Unwarned(warned: set<string>, name: string, spec: Spec) { name != "" && name !in warned && NeedsUrl(spec) }

  function WarnOne(g: Guard, cr: Cr): Guard {
    if Unwarned(g.warned, cr.name, cr.spec)
    then g.(warned := g.warned + {cr.name}, notices := g.notices + [RedisUrlEmpty(cr.name)])
    else g
  }

  function Warned(g: Guard, items: seq<Cr>): Guard {
    if items == [] then g else WarnOne(Warned(g, items[..|items| - 1]), items[|items| - 1])
  }

  /** The full check; a listing that failed changes nothing. */
  function Checked(g: Guard, listing: Option<seq<Cr>>): Guard {
    if listing.Some? then Warned(Enforced(g, listing.value), listing.value) else g
  }

  // ---------------------------------------------------------------- the Secret probe

  /** How the read of the Secret that a CR names goes: allowed, forbidden, or failing otherwise. */
  datatype Answer = Granted | Forbidden | Unresolved

  /** The CRs probed for good, and those warned that the read is forbidden. */
  datatype Probes = Probes(done: set<string>, denied: seq<string>)

  const NO_PROBES := Probes({}, [])

  predicate Awaits(done: set<string>, name: string, spec: Spec) { name != "" && name !in done && spec.secretRef }

  function AnswerFor(answers: map<string, Answer>, name: string): Answer {
    if name in answers then answers[name] else Unresolved
  }

  function ProbeOne(p: Probes, cr: Cr, answers: map<string, Answer>): Probes {
    if !Awaits(p.done, cr.name, cr.spec) then p
    else match AnswerFor(answers, cr.name)
      case Granted => p.(done := p.done + {cr.name})
      case Forbidden => Probes(p.done + {cr.name}, p.denied + [cr.name])
      case Unresolved => p
  }

  function Probed(p: Probes, items: seq<Cr>, answers: map<string, Answer>): Probes {
    if items == [] then p else ProbeOne(Probed(p, items[..|items| - 1], answers), items[|items| - 1], answers)
  }

  function ProbedAll(p: Probes, listing: Option<seq<Cr>>, answers: map<string, Answer>): Probes {
    if listing.Some? then Probed(p, listing.value, answers) else p
  }

  // ---------------------------------------------------------------- the watch handler

  datatype Kind = Replayed | Added | Modified | Deleted

  /** A watch event, the listing that a relist gets while it is handled, and what probes are told. */
  datatype Change = Change(kind: Kind, body: Cr, listing: Option<seq<Cr>>, answers: map<string, Answer>)

  datatype Handler = Handler(guard: Guard, probes: Probes, cache: Lru)

  const NEW_HANDLER := Handler(NEW_GUARD, NO_PROBES, EMPTY_CACHE)

  predicate Skips(h: Handler, e: Change) {
    && e.kind == Modified && h.guard.last.Some?
    && e.body.name in h.cache.data && h.cache.data[e.body.name] == SurfaceOf(e.body)
  }

  /** The fingerprint lookup counts as a use of the entry. */
  function LookedUp(h: Handler, e: Change): Lru {
    if e.kind == Modified && h.guard.last.Some? then Touched(h.cache, e.body.name) else h.cache
  }

  function Handled(h: Handler, e: Change): Handler {
    if Skips(h, e) then h.(cache := LookedUp(h, e))
    else
      Handler(Checked(h.guard, e.listing), ProbedAll(h.probes, e.listing, e.answers),
              if e.kind == Deleted then Popped(h.cache, e.body.name)
                 else Put(LookedUp(h, e), e.body.name, SurfaceOf(e.body)))
  }

  function HandleAll(changes: seq<Change>): Handler {
    if changes == [] then NEW_HANDLER else Handled(HandleAll(changes[..|changes| - 1]), changes[|changes| - 1])
  }

  /** The simple handler: it relists on every event. */
  function RelistAll(changes: seq<Change>): Guard {
    if changes == [] then NEW_GUARD else Checked(RelistAll(changes[..|changes| - 1]), changes[|changes| - 1].listing)
  }

  function ProbeAll(changes: seq<Change>): Probes {
    if changes == [] then NO_PROBES
    else
      var last := changes[|changes| - 1];
      ProbedAll(ProbeAll(changes[..|changes| - 1]), last.listing, last.answers)
  }

  // ---------------------------------------------------------------- imperative code

  class SingletonGuard {
    var last: Option<Snapshot>
    var warned: set<string>
    var notices: seq<Notice>
    var probes: Probes
    const cache: BoundedGuardCache

    function View(): Guard
      reads this
    {
      Guard(last, warned, notices)
    }

    function Whole(): Handler
      reads this, cache
    {
      Handler(View(), probes, cache.View())
    }

    constructor ()
      ensures Whole() == NEW_HANDLER && Valid(cache.View()) && fresh(cache)
    {
      cache := new BoundedGuardCache();
      last, warned, notices, probes := None, {}, [], NO_PROBES;
    }

    method Enforce(items: seq<Cr>)
      modifies this
      ensures View() == Enforced(old(View()), items) && probes == old(probes)
    {
      if !Parses(items) { return; }
      var losers := LosersOf(items);
      var state := SnapshotOf(items);
      if last == Some(state) { return; }
      last := Some(state);
      if losers == [] { return; }
      ghost var before := notices;
      for i := 0 to |losers|
        invariant notices == before + Conflicts(losers[..i])
        invariant last == Some(state) && warned == old(warned) && probes == old(probes)
      {
        assert losers[..i + 1][..i] == losers[..i];
        notices := notices + [Conflict(NameOf(losers[i]))];
      }
      assert losers[..|losers|] == losers;
      notices := notices + [Active(NameOf(Oldest(items)))];
    }

    method EmitRedisUrlEvents(items: seq<Cr>)
      modifies this
      ensures View() == Warned(old(View()), items) && probes == old(probes)
    {
      for i := 0 to |items|
        invariant View() == Warned(old(View()), items[..i]) && probes == old(probes)
      {
        var cr := items[i];
        assert items[..i + 1][..i] == items[..i];
        if cr.name == "" || cr.name in warned { continue; }
        if cr.spec.redisUrl == "" && !cr.spec.secretRef {
          warned := warned + {cr.name};
          notices := notices + [RedisUrlEmpty(cr.name)];
        }
      }
      assert items[..|items|] == items;
    }

    method EmitSecretRefEvents(items: seq<Cr>, answers: map<string, Answer>)
      modifies this`probes
      ensures probes == Probed(old(probes), items, answers)
    {
      for i := 0 to |items|
        invariant probes == Probed(old(probes), items[..i], answers)
      {
        var cr := items[i];
        assert items[..i + 1][..i] == items[..i];
        if cr.name == "" || cr.name in probes.done || !cr.spec.secretRef { continue; }
        match AnswerFor(answers, cr.name) {
          case Granted => probes := probes.(done := probes.done + {cr.name});
          case Forbidden => probes := Probes(probes.done + {cr.name}, probes.denied + [cr.name]);
          case Unresolved =>
        }
      }
      assert items[..|items|] == items;
    }

    /** The full check: election, URL warnings, Secret probes; a failed listing changes nothing. */
    method Check(listing: Option<seq<Cr>>, answers: map<string, Answer>)
      modifies this
      ensures View() == Checked(old(View()), listing) && probes == ProbedAll(old(probes), listing, answers)
    {
      if listing.None? { return; }
      Enforce(listing.value);
      EmitRedisUrlEvents(listing.value);
      EmitSecretRefEvents(listing.value, answers);
    }

    /** The watch handler, relisting only when it must. */
    method OnEvent(e: Change)
      requires Valid(cache.View())
      modifies this, cache
      ensures Whole() == Handled(old(Whole()), e) && Valid(cache.View())
    {
      var key := e.body.name;
      if e.kind == Deleted {
        cache.Pop(key);
        Check(e.listing, e.answers);
        return;
      }
      if e.kind == Modified && last.Some? {
        var found := cache.Get(key);
        if found == Some(SurfaceOf(e.body)) { return; }
      }
      Check(e.listing, e.answers);
      cache.Set(key, SurfaceOf(e.body));
    }
  }
}

/** The retention pipeline: archive, verify, delete. One tick as a step function over the durable
    records and the cluster, with a crash at any effect boundary, and as the code it specifies. */
module Retention {
  import opened Basics
  import opened Ordering
  import opened Records

  /** A raw analysis document; an empty id stands for a missing one. */
  datatype Doc = Doc(id: string, completed: bool, updatedAt: Option<Time>, createdAt: Option<Time>)

  datatype Condition = Condition(kind: string, status: string)

  /** A Job, as far as the pipeline reads it: its status conditions. */
  type Job = seq<Condition>

  datatype Terminal = Complete | Failed

  datatype Config = Config(archive: bool, backend: string, bucket: string, secretRef: string, purge: bool, dryRun: bool,
                           retention: int)

  // ---------------------------------------------------------------- pure decisions

  function CompletionTime(d: Doc): Option<Time> { if d.updatedAt.Some? then d.updatedAt else d.createdAt }

  predicate Eligible(d: Doc, now: Time, retention: int) {
    d.completed && CompletionTime(d).Some? && now - CompletionTime(d).value >= retention
  }

  /** The first condition that is true and terminal decides. */
  function TerminalCondition(job: Job): Option<Terminal> {
    if job == [] then None
    else if job[0].status == "True" && job[0].kind == "Complete" then Some(Complete)
    else if job[0].status == "True" && job[0].kind == "Failed" then Some(Failed)
    else TerminalCondition(job[1..])
  }

  /** A condition that says the Job is over. */
  predicate TerminalTrue(c: Condition) { c.status == "True" && (c.kind == "Complete" || c.kind == "Failed") }

  /** Condition i is the first that says so. */
  predicate Decisive(job: Job, i: int) {
    0 <= i < |job| && TerminalTrue(job[i]) && forall j :: 0 <= j < i ==> !TerminalTrue(job[j])
  }

  predicate IsComplete(job: Job) { exists i :: 0 <= i < |job| && Decisive(job, i) && job[i].kind == "Complete" }

  predicate IsFailed(job: Job) { exists i :: 0 <= i < |job| && Decisive(job, i) && job[i].kind == "Failed" }

  predicate IsRunning(job: Job) { forall i :: 0 <= i < |job| ==> !TerminalTrue(job[i]) }

  lemma DecisiveLater(job: Job, i: int)
    requires job != [] && !TerminalTrue(job[0])
    ensures Decisive(job, i + 1) <==> Decisive(job[1..], i)
  {
    var rest := job[1..];
    assert forall j :: 0 <= j < |rest| ==> rest[j] == job[j + 1];
    if Decisive(rest, i) {
      forall j | 0 <= j < i + 1 ensures !TerminalTrue(job[j]) { assert j > 0 ==> job[j] == rest[j - 1]; }
    }
    if Decisive(job, i + 1) {
      assert i >= 0;
    }
  }

  lemma DecisiveShift(job: Job, kind: string)
    requires job != [] && !TerminalTrue(job[0])
    ensures (exists i :: 0 <= i < |job| && Decisive(job, i) && job[i].kind == kind) <==>
            (exists i :: 0 <= i < |job[1..]| && Decisive(job[1..], i) && job[1..][i].kind == kind)
  {
    if i :| 0 <= i < |job| && Decisive(job, i) && job[i].kind == kind {
      DecisiveLater(job, i - 1);
      assert job[1..][i - 1] == job[i];
    }
    if i :| 0 <= i < |job[1..]| && Decisive(job[1..], i) && job[1..][i].kind == kind {
      DecisiveLater(job, i);
      assert job[i + 1] == job[1..][i];
    }
  }

  /** The verdict on a Job, by its raw conditions: the first true terminal one decides, and without one
      the Job is running. */
  lemma {:induction false} TerminalIff(job: Job)
    ensures TerminalCondition(job) == Some(Complete) <==> IsComplete(job)
    ensures TerminalCondition(job) == Some(Failed) <==> IsFailed(job)
    ensures TerminalCondition(job) == None <==> IsRunning(job)
  {
    if job != [] {
      if TerminalTrue(job[0]) {
        assert Decisive(job, 0);
        KindsDiffer();
        forall i | Decisive(job, i) ensures i == 0 {}
      } else {
        TerminalIff(job[1..]);
        DecisiveShift(job, "Complete");
        DecisiveShift(job, "Failed");
        assert IsRunning(job) <==> IsRunning(job[1..]) by {
          assert forall j :: 0 <= j < |job| - 1 ==> job[1..][j] == job[j + 1];
          if IsRunning(job[1..]) {
            forall j | 0 <= j < |job| ensures !TerminalTrue(job[j]) { assert j > 0 ==> job[j] == job[1..][j - 1]; }
          }
        }
      }
    }
  }

  lemma KindsDiffer()
    ensures "Complete" != "Failed"
  {
    assert |"Complete"| == 8 && |"Failed"| == 6;
  }

  /** Completed documents by id, a later duplicate replacing an earlier one. */
  function CompletedById(docs: seq<Doc>): map<string, Doc> {
    if docs == [] then map[]
    else
      var front, d := CompletedById(docs[..|docs| - 1]), docs[|docs| - 1];
      if d.id != "" && d.completed then front[d.id := d] else front
  }

  // ---------------------------------------------------------------- the world and its effects

  /** What the pipeline does or observes, in order. `Listed` opens a tick with the completed ids. */
  datatype Effect =
    | Listed(ids: set<string>)
    | Observed(job: string, state: Option<Job>)
    | PutRecord(id: string, record: ArchivedRecord)
    | ClearRecord(id: string)
    | CreateJob(id: string, job: string)
    | RemoveJob(job: string)
    | DeleteAnalysis(id: string)

  /** `fuel` effects succeed, then one raises; after that nothing happens in the tick. */
  datatype World = World(
    archived: map<string, ArchivedRecord>, jobs: map<string, Job>, server: seq<Doc>,
    log: seq<Effect>, fuel: nat, crashed: bool)

  function Without(docs: seq<Doc>, id: string): seq<Doc> {
    if docs == [] then []
    else
      var front, d := Without(docs[..|docs| - 1], id), docs[|docs| - 1];
      if d.id == id then front else front + [d]
  }

  function Change(w: World, e: Effect): World {
    match e
    case Listed(_) => w
    case Observed(_, _) => w
    case PutRecord(id, r) => w.(archived := w.archived[id := r])
    case ClearRecord(id) => w.(archived := w.archived - {id})
    case CreateJob(_, job) => w.(jobs := w.jobs[job := []])
    case RemoveJob(job) => w.(jobs := w.jobs - {job})
    case DeleteAnalysis(id) => w.(server := Without(w.server, id))
  }

  function Do(w: World, e: Effect): World {
    if w.crashed then w
    else if w.fuel == 0 then w.(crashed := true)
    else Change(w, e).(fuel := w.fuel - 1, log := w.log + [e])
  }

  function Lookup(jobs: map<string, Job>, name: string): Option<Job> {
    if name in jobs then Some(jobs[name]) else None
  }

  // ---------------------------------------------------------------- the tick

  function DeleteVerified(w: World, cfg: Config, id: string): World {
    if !cfg.purge || cfg.dryRun then w else Do(Do(w, DeleteAnalysis(id)), ClearRecord(id))
  }

  function Reconcile(w: World, cfg: Config, now: Time, completed: set<string>, id: string,
                     record: ArchivedRecord): World {
    if id !in completed then Do(w, ClearRecord(id))
    else if record.verifiedAt.Some? then DeleteVerified(w, cfg, id)
    else if record.jobName.None? then (if cfg.dryRun then w else Do(w, ClearRecord(id)))
    else
      var job := Lookup(w.jobs, record.jobName.value);
      var seen := Do(w, Observed(record.jobName.value, job));
      if job.None? then Do(seen, ClearRecord(id))
      else match TerminalCondition(job.value)
        case None => seen
        case Some(Failed) => Do(seen, ClearRecord(id))
        case Some(Complete) => DeleteVerified(Do(seen, PutRecord(id, record.(verifiedAt := Some(now)))), cfg, id)
  }

  function InFlight(cfg: Config, now: Time, job: Option<string>): ArchivedRecord {
    ArchivedRecord(cfg.backend, Some(cfg.bucket), None, job, Some(now))
  }

  function Spawn(w: World, cfg: Config, now: Time, id: string, job: string): World {
    var existing := Lookup(w.jobs, job);
    var seen := Do(w, Observed(job, existing));
    if existing.Some? && TerminalCondition(existing.value) == Some(Complete) then
      DeleteVerified(Do(seen, PutRecord(id, InFlight(cfg, now, Some(job)).(verifiedAt := Some(now)))), cfg, id)
    else if existing.Some? && TerminalCondition(existing.value).None? then
      Do(seen, PutRecord(id, InFlight(cfg, now, Some(job))))
    else if cfg.dryRun then Do(seen, PutRecord(id, InFlight(cfg, now, None)))
    else
      var freed := if existing.Some? then Do(seen, RemoveJob(job)) else seen;
      Do(Do(freed, CreateJob(id, job)), PutRecord(id, InFlight(cfg, now, Some(job))))
  }

  /** Phase A over the tracked snapshot, in the order in which the status map lists its keys. */
  function ReconcileAll(w: World, cfg: Config, now: Time, completed: set<string>, tracked: map<string, ArchivedRecord>,
                        order: seq<string>): World
    requires forall i :: 0 <= i < |order| ==> order[i] in tracked
  {
    if order == [] then w
    else
      var front, id := order[..|order| - 1], order[|order| - 1];
      Reconcile(ReconcileAll(w, cfg, now, completed, tracked, front), cfg, now, completed, id, tracked[id])
  }

  function SpawnAll(w: World, cfg: Config, now: Time, due: seq<string>, name: string -> string): World {
    if due == [] then w
    else Spawn(SpawnAll(w, cfg, now, due[..|due| - 1], name), cfg, now, due[|due| - 1], name(due[|due| - 1]))
  }

  predicate Active(cfg: Config) { cfg.archive && cfg.backend != "" && cfg.bucket != "" && cfg.secretRef != "" }

  predicate IsDue(id: string, byId: map<string, Doc>, tracked: set<string>, now: Time, retention: int) {
    id in byId && id !in tracked && Eligible(byId[id], now, retention)
  }

  /** The due ids, in listing order. */
  function Due(listing: seq<string>, byId: map<string, Doc>, tracked: set<string>, now: Time,
               retention: int): (r: seq<string>)
    ensures forall x :: x in r <==> x in listing && IsDue(x, byId, tracked, now, retention)
  {
    if listing == [] then []
    else
      var front, x := Due(listing[..|listing| - 1], byId, tracked, now, retention), listing[|listing| - 1];
      if IsDue(x, byId, tracked, now, retention) then front + [x] else front
  }

  /** One tick. `order` and `listing` are the orders in which the tracked map and the completed
      documents are enumerated, `name` is the deterministic Job name. */
  function Tick(w: World, cfg: Config, now: Time, order: seq<string>, listing: seq<string>,
                name: string -> string): World
    requires Lists(order, w.archived.Keys) && Lists(listing, CompletedById(w.server).Keys)
  {
    if !Active(cfg) then w
    else
      var byId, tracked := CompletedById(w.server), w.archived;
      assert forall i :: 0 <= i < |order| ==> order[i] in Elements(order);
      var listed := Do(w, Listed(byId.Keys));
      var reconciled := ReconcileAll(listed, cfg, now, byId.Keys, tracked, order);
      SpawnAll(reconciled, cfg, now, Due(listing, byId, tracked.Keys, now, cfg.retention), name)
  }

  // ---------------------------------------------------------------- imperative code

  class Pipeline {
    var archived: map<string, ArchivedRecord>
    var jobs: map<string, Job>
    var server: seq<Doc>
    var log: seq<Effect>
    var fuel: nat
    var crashed: bool

    function View(): World
      reads this
    {
      World(archived, jobs, server, log, fuel, crashed)
    }

    /** One effect; raises (answers false) when the fuel is spent. */
    method Perform(e: Effect) returns (ok: bool)
      modifies this
      ensures View() == Do(old(View()), e) && ok == !crashed
    {
      if crashed || fuel == 0 {
        crashed := true;
        return false;
      }
      match e {
        case PutRecord(id, r) => archived := archived[id := r];
        case ClearRecord(id) => archived := archived - {id};
        case CreateJob(_, job) => jobs := jobs[job := []];
        case RemoveJob(job) => jobs := jobs - {job};
        case DeleteAnalysis(id) => server := Without(server, id);
        case _ =>
      }
      fuel, log := fuel - 1, log + [e];
      return true;
    }

    method RunDeleteVerified(cfg: Config, id: string)
      modifies this
      ensures View() == DeleteVerified(old(View()), cfg, id)
    {
      if !cfg.purge || cfg.dryRun { return; }
      var ok := Perform(DeleteAnalysis(id));
      if ok { ok := Perform(ClearRecord(id)); }
    }

    method RunReconcile(cfg: Config, now: Time, completed: set<string>, id: string, record: ArchivedRecord)
      modifies this
      ensures View() == Reconcile(old(View()), cfg, now, completed, id, record)
    {
      var ok;
      if id !in completed {
        ok := Perform(ClearRecord(id));
        return;
      }
      if record.verifiedAt.Some? {
        RunDeleteVerified(cfg, id);
        return;
      }
      if record.jobName.None? {
        if !cfg.dryRun { ok := Perform(ClearRecord(id)); }
        return;
      }
      var job := Lookup(jobs, record.jobName.value);
      ok := Perform(Observed(record.jobName.value, job));
      if !ok { return; }
      if job.None? {
        ok := Perform(ClearRecord(id));
        return;
      }
      var condition := TerminalCondition(job.value);
      if condition.None? { return; }
      if condition == Some(Failed) {
        ok := Perform(ClearRecord(id));
        return;
      }
      ok := Perform(PutRecord(id, record.(verifiedAt := Some(now))));
      if ok { RunDeleteVerified(cfg, id); }
    }

    method RunSpawn(cfg: Config, now: Time, id: string, job: string)
      modifies this
      ensures View() == Spawn(old(View()), cfg, now, id, job)
    {
      var existing := Lookup(jobs, job);
      var ok := Perform(Observed(job, existing));
      if !ok { return; }
      if existing.Some? {
        var condition := TerminalCondition(existing.value);
        if condition == Some(Complete) {
          ok := Perform(PutRecord(id, InFlight(cfg, now, Some(job)).(verifiedAt := Some(now))));
          if ok { RunDeleteVerified(cfg, id); }
          return;
        }
        if condition.None? {
          ok := Perform(PutRecord(id, InFlight(cfg, now, Some(job))));
          return;
        }
        if !cfg.dryRun {
          ok := Perform(RemoveJob(job));
          if !ok { return; }
        }
      }
      if !cfg.dryRun {
        ok := Perform(CreateJob(id, job));
        if !ok { return; }
      }
      ok := Perform(PutRecord(id, InFlight(cfg, now, if cfg.dryRun then None else Some(job))));
    }

    /** One retention tick: it changes the world as `Tick` says. */
    method RunRetentionTick(cfg: Config, now: Time, order: seq<string>, listing: seq<string>, name: string -> string)
      requires Lists(order, archived.Keys) && Lists(listing, CompletedById(server).Keys)
      modifies this
      ensures View() == Tick(old(View()), cfg, now, order, listing, name)
    {
      if !Active(cfg) { return; }
      var byId, tracked := CompletedById(server), archived;
      assert forall i :: 0 <= i < |order| ==> order[i] in Elements(order);
      var ok := Perform(Listed(byId.Keys));
      ghost var listed := View();
      var i := 0;
      while i < |order|
        invariant 0 <= i <= |order|
        invariant View() == ReconcileAll(listed, cfg, now, byId.Keys, tracked, order[..i])
      {
        assert order[..i + 1][..i] == order[..i];
        RunReconcile(cfg, now, byId.Keys, order[i], tracked[order[i]]);
        i := i + 1;
      }
      assert order[..|order|] == order;
      ghost var reconciled := View();
      var due := Due(listing, byId, tracked.Keys, now, cfg.retention);
      i := 0;
      while i < |due|
        invariant 0 <= i <= |due|
        invariant View() == SpawnAll(reconciled, cfg, now, due[..i], name)
      {
        assert due[..i + 1][..i] == due[..i];
        RunSpawn(cfg, now, due[i], name(due[i]));
        i := i + 1;
      }
      assert due[..|due|] == due;
    }
  }
}

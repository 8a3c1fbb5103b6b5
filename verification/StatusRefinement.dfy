/** The status store refines plain maps of records under put and delete. */
module StatusRefinement {
  import opened Basics
  import opened Json
  import opened Records
  import opened StatusStore

  function FieldName(f: Field): string {
    match f
    case SoftStops => SOFT_STOPS
    case Requeues => REQUEUES
    case StartedSince => STARTED_SINCE
    case ArchivedAnalyses => ARCHIVED_ANALYSES
    case StoppedAnalyses => STOPPED_ANALYSES
  }

  lemma FieldNamesDiffer(f: Field, g: Field)
    ensures FieldName(f) == FieldName(g) <==> f == g
  {}

  /** The plain view: records under (map, key). */
  type Table = map<(Field, string), Record>

  /** The writes of the handlers. */
  datatype Write =
    | Put(key: string, record: Record)
    | Drop(field: Field, key: string)
    | Escalate(analysis: string, at: Time, outcome: string)
    | Retain(liveAnalyses: Option<set<string>>, liveDatapoints: Option<set<string>>)

  function Live(f: Field, w: Write): Option<set<string>>
    requires w.Retain?
  {
    if f == Requeues || f == StartedSince then w.liveDatapoints else w.liveAnalyses
  }

  const FIELDS: set<Field> := {SoftStops, Requeues, StartedSince, ArchivedAnalyses, StoppedAnalyses}

  function Scopes(w: Write): map<string, set<string>>
    requires w.Retain?
  {
    map f | f in FIELDS && Live(f, w).Some? :: FieldName(f) := Live(f, w).value
  }

  function OpOf(w: Write, protected: set<string>): Op {
    match w
    case Put(key, record) => Set(FieldName(FieldOf(record)), key, Encode(record), protected)
    case Drop(f, key) => Set(FieldName(f), key, Null, protected)
    case Escalate(key, at, outcome) => Mark(key, at, outcome)
    case Retain(_, _) => PruneTo(Scopes(w))
  }

  function ApplyPlain(t: Table, w: Write): Table {
    match w
    case Put(key, record) => t[(FieldOf(record), key) := record]
    case Drop(f, key) => t - {(f, key)}
    case Escalate(key, at, outcome) =>
      if (SoftStops, key) in t && t[(SoftStops, key)].SoftStop?
      then t[(SoftStops, key) := SoftStop(t[(SoftStops, key)].softStop.(escalatedAt := Some(at),
                                                                        escalationOutcome := Some(outcome)))]
      else t
    case Retain(_, _) => map e | e in t && (Live(e.0, w).Some? ==> e.1 in Live(e.0, w).value) :: t[e]
  }

  /** A put carries what is stored; an escalation marks an anchor that is there. */
  predicate Admissible(t: Table, w: Write) {
    match w
    case Put(key, record) => (FieldOf(record), key) in t ==> Carries(t[(FieldOf(record), key)], record)
    case Escalate(key, _, _) => (SoftStops, key) in t
    case _ => true
  }

  predicate BelowCap(status: Value, w: Write) {
    w.Put? ==> |Entries(status, FieldName(FieldOf(w.record)))| < STATUS_MAP_MAX_ENTRIES
  }

  /** At (f, k) the status holds the stored form of the table's record, or both hold nothing. */
  predicate Agrees(status: Value, t: Table, f: Field, k: string) {
    && (k in Entries(status, FieldName(f)) <==> (f, k) in t)
    && ((f, k) in t ==> FieldOf(t[(f, k)]) == f && Current(status, FieldName(f), k) == Stored(t[(f, k)]))
  }

  ghost predicate Represents(status: Value, t: Table) {
    NullFree(status) && forall f, k :: Agrees(status, t, f, k)
  }

  /** What a reader gets for an entry the table holds is the table's record. */
  lemma ReadBack(status: Value, t: Table, f: Field, k: string)
    requires Represents(status, t) && (f, k) in t
    ensures Decode(f, Current(status, FieldName(f), k)) == Some(t[(f, k)])
  {
    assert Agrees(status, t, f, k);
    DecodeStored(t[(f, k)]);
  }

  // ---------------------------------------------------------------- one write

  lemma ApplyNullFree(op: Op, status: Value)
    requires NullFree(status)
    ensures NullFree(Apply(op, status))
  {
    if Build(op, status).Send? { MergeNullFree(status, Build(op, status).patch); }
  }

  lemma SetAgrees(status: Value, t: Table, f: Field, key: string, encoded: Value, protected: set<string>, g: Field,
                  k: string, r: Table)
    requires Represents(status, t)
    requires encoded == Null || |Entries(status, FieldName(f))| < STATUS_MAP_MAX_ENTRIES
    requires if encoded == Null then r == t - {(f, key)}
             else (f, key) in r && r == t[(f, key) := r[(f, key)]] && FieldOf(r[(f, key)]) == f
                  && Merge(Current(status, FieldName(f), key), encoded) == Stored(r[(f, key)])
    ensures Agrees(Apply(Set(FieldName(f), key, encoded, protected), status), r, g, k)
  {
    assert Agrees(status, t, g, k);
    FieldNamesDiffer(f, g);
    SetBelowCap(status, FieldName(f), key, encoded, protected, FieldName(g));
  }

  lemma PutRefines(status: Value, t: Table, key: string, record: Record, protected: set<string>)
    requires Represents(status, t) && Admissible(t, Put(key, record)) && BelowCap(status, Put(key, record))
    ensures Represents(Apply(OpOf(Put(key, record), protected), status), ApplyPlain(t, Put(key, record)))
  {
    var f := FieldOf(record);
    ApplyNullFree(OpOf(Put(key, record), protected), status);
    assert Agrees(status, t, f, key);
    if (f, key) in t { CarriedPut(t[(f, key)], record); }
    EncodedIsNotNull(record);
    forall g, k
      ensures Agrees(Apply(OpOf(Put(key, record), protected), status), ApplyPlain(t, Put(key, record)), g, k)
    {
      SetAgrees(status, t, f, key, Encode(record), protected, g, k, ApplyPlain(t, Put(key, record)));
    }
  }

  lemma EncodedIsNotNull(record: Record)
    ensures Encode(record) != Null
  {}

  lemma DropRefines(status: Value, t: Table, f: Field, key: string, protected: set<string>)
    requires Represents(status, t)
    ensures Represents(Apply(OpOf(Drop(f, key), protected), status), ApplyPlain(t, Drop(f, key)))
  {
    ApplyNullFree(OpOf(Drop(f, key), protected), status);
    forall g, k ensures Agrees(Apply(OpOf(Drop(f, key), protected), status), ApplyPlain(t, Drop(f, key)), g, k) {
      SetAgrees(status, t, f, key, Null, protected, g, k, ApplyPlain(t, Drop(f, key)));
    }
  }

  /** The marked anchor is the stored form of the marked record. */
  lemma MarkedForm(s: SoftStopRecord, at: Time, outcome: string)
    ensures var v := Stored(SoftStop(s));
            var marked := SoftStop(s.(escalatedAt := Some(at), escalationOutcome := Some(outcome)));
            && v.Obj?
            && Obj(v.members["escalatedAt" := Num(at)]["escalationOutcome" := Str(outcome)]) == Encode(marked)
            && Merge(v, Encode(marked)) == Stored(marked) == Encode(marked)
  {
    var marked := SoftStop(s.(escalatedAt := Some(at), escalationOutcome := Some(outcome)));
    MergeIntoNothing(Encode(SoftStop(s)));
    MergeIntoNothing(Encode(marked));
    CarriedPut(SoftStop(s), marked);
    assert Encode(SoftStop(s)).members["escalatedAt" := Num(at)]["escalationOutcome" := Str(outcome)] ==
             Encode(marked).members;
  }

  lemma EscalateRefines(status: Value, t: Table, key: string, at: Time, outcome: string, protected: set<string>)
    requires Represents(status, t) && (SoftStops, key) in t
    ensures Represents(Apply(OpOf(Escalate(key, at, outcome), protected), status),
                       ApplyPlain(t, Escalate(key, at, outcome)))
  {
    assert Agrees(status, t, SoftStops, key);
    var s := t[(SoftStops, key)].softStop;
    MarkedForm(s, at, outcome);
    var marked := SoftStop(s.(escalatedAt := Some(at), escalationOutcome := Some(outcome)));
    var r := t[(SoftStops, key) := marked];
    var op := Mark(key, at, outcome);
    ApplyNullFree(op, status);
    assert Entries(status, SOFT_STOPS)[key] == Stored(SoftStop(s));
    forall g, k ensures Agrees(Apply(op, status), r, g, k) {
      assert Agrees(status, t, g, k);
      FieldNamesDiffer(SoftStops, g);
      if Build(op, status).Send? { EntryPatchLands(status, SOFT_STOPS, key, Encode(marked), FieldName(g)); }
    }
  }

  lemma ScopesAt(w: Write, f: Field)
    requires w.Retain?
    ensures FieldName(f) in Scopes(w) <==> Live(f, w).Some?
    ensures Live(f, w).Some? ==> Scopes(w)[FieldName(f)] == Live(f, w).value
  {
    forall g { FieldNamesDiffer(f, g); }
  }

  lemma RetainRefines(status: Value, t: Table, w: Write, protected: set<string>)
    requires Represents(status, t) && w.Retain?
    ensures Represents(Apply(OpOf(w, protected), status), ApplyPlain(t, w))
  {
    ApplyNullFree(OpOf(w, protected), status);
    forall g, k ensures Agrees(Apply(OpOf(w, protected), status), ApplyPlain(t, w), g, k) {
      assert Agrees(status, t, g, k);
      ScopesAt(w, g);
      PruneLands(status, Scopes(w), FieldName(g));
    }
  }

  // ---------------------------------------------------------------- whole runs

  function Status(status: Value, writes: seq<Write>, protected: set<string>): Value {
    if writes == [] then status
    else Apply(OpOf(writes[|writes| - 1], protected), Status(status, writes[..|writes| - 1], protected))
  }

  function Plain(t: Table, writes: seq<Write>): Table {
    if writes == [] then t else ApplyPlain(Plain(t, writes[..|writes| - 1]), writes[|writes| - 1])
  }

  /** Every write is admissible where it happens. */
  predicate AllAdmissible(t: Table, writes: seq<Write>) {
    forall i :: 0 <= i < |writes| ==> Admissible(Plain(t, writes[..i]), writes[i])
  }

  predicate AllBelowCap(status: Value, writes: seq<Write>, protected: set<string>) {
    forall i :: 0 <= i < |writes| ==> BelowCap(Status(status, writes[..i], protected), writes[i])
  }

  /** Below the cap, along every sequence of admissible writes, the merged JSON status holds
      exactly the records of the plain table under put and delete. */
  lemma {:induction false} StoreRefinesTable(status: Value, t: Table, writes: seq<Write>, protected: set<string>)
    requires Represents(status, t)
    requires AllAdmissible(t, writes) && AllBelowCap(status, writes, protected)
    ensures Represents(Status(status, writes, protected), Plain(t, writes))
  {
    if writes != [] {
      var front, w := writes[..|writes| - 1], writes[|writes| - 1];
      assert forall i :: 0 <= i < |front| ==> front[..i] == writes[..i];
      StoreRefinesTable(status, t, front, protected);
      assert Admissible(Plain(t, front), w) && BelowCap(Status(status, front, protected), w);
      var s, p := Status(status, front, protected), Plain(t, front);
      match w
      case Put(key, record) => PutRefines(s, p, key, record, protected);
      case Drop(f, key) => DropRefines(s, p, f, key, protected);
      case Escalate(key, at, outcome) => EscalateRefines(s, p, key, at, outcome, protected);
      case Retain(_, _) => RetainRefines(s, p, w, protected);
    }
  }

  lemma AdmissibleGrows(t: Table, writes: seq<Write>, x: Write)
    requires AllAdmissible(t, writes) && Admissible(Plain(t, writes), x)
    ensures AllAdmissible(t, writes + [x])
    ensures Plain(t, writes + [x]) == ApplyPlain(Plain(t, writes), x)
  {
    var more := writes + [x];
    assert more[..|writes|] == writes;
    forall i | 0 <= i < |more| ensures Admissible(Plain(t, more[..i]), more[i]) {
      assert more[..i] == writes[..i];
      assert i < |writes| ==> Admissible(Plain(t, writes[..i]), writes[i]);
    }
  }

  /** Writes that are admissible where the earlier ones end are admissible after them. */
  lemma {:induction false} AdmissibleConcat(t: Table, a: seq<Write>, b: seq<Write>)
    requires AllAdmissible(t, a) && AllAdmissible(Plain(t, a), b)
    ensures AllAdmissible(t, a + b) && Plain(t, a + b) == Plain(Plain(t, a), b)
  {
    if b == [] {
      assert a + b == a;
    } else {
      var front, x := b[..|b| - 1], b[|b| - 1];
      FrontAdmissible(Plain(t, a), b);
      AdmissibleConcat(t, a, front);
      AdmissibleGrows(t, a + front, x);
      assert a + front + [x] == a + b;
    }
  }

  lemma FrontAdmissible(t: Table, b: seq<Write>)
    requires AllAdmissible(t, b) && b != []
    ensures AllAdmissible(t, b[..|b| - 1]) && Admissible(Plain(t, b[..|b| - 1]), b[|b| - 1])
  {
    var front := b[..|b| - 1];
    forall i | 0 <= i < |front| ensures Admissible(Plain(t, front[..i]), front[i]) {
      assert front[..i] == b[..i];
      assert Admissible(Plain(t, b[..i]), b[i]);
    }
  }
}

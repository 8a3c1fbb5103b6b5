/** The typed records of the status maps and their JSON form. Times are JSON numbers here. */
module Records {
  import opened Basics
  import opened Json

  datatype SoftStopRecord = SoftStopRecord(issuedAt: Time, outcome: string, escalatedAt: Option<Time>,
                                           escalationOutcome: Option<string>)

  datatype RequeueRecord = RequeueRecord(count: int, lastRequeuedAt: Time)

  datatype ArchivedRecord = ArchivedRecord(backend: string, bucket: Option<string>, verifiedAt: Option<Time>,
                                           jobName: Option<string>, spawnedAt: Option<Time>)

  datatype StopRecord = StopRecord(issuedAt: Time, outcome: string, stoppedAt: Option<Time>)

  datatype Record =
    | SoftStop(softStop: SoftStopRecord)
    | Requeue(requeue: RequeueRecord)
    | Since(since: Time)
    | Archived(archived: ArchivedRecord)
    | Stop(stop: StopRecord)

  /** The five capped status maps. */
  datatype Field = SoftStops | Requeues | StartedSince | ArchivedAnalyses | StoppedAnalyses

  function FieldOf(r: Record): Field {
    match r
    case SoftStop(_) => SoftStops
    case Requeue(_) => Requeues
    case Since(_) => StartedSince
    case Archived(_) => ArchivedAnalyses
    case Stop(_) => StoppedAnalyses
  }

  function Present(members: map<string, Value>, name: string, value: Option<Value>): map<string, Value> {
    if value.Some? then members[name := value.value] else members
  }

  function TimeOf(t: Option<Time>): Option<Value> { if t.Some? then Some(Num(t.value)) else None }

  function TextOf(t: Option<string>): Option<Value> { if t.Some? then Some(Str(t.value)) else None }

  /** `to_dict`: an optional field is left out when unset, except that an unset bucket is null. */
  function Encode(r: Record): Value {
    match r
    case SoftStop(s) =>
      Obj(Present(Present(map["issuedAt" := Num(s.issuedAt), "outcome" := Str(s.outcome)],
        "escalatedAt", TimeOf(s.escalatedAt)), "escalationOutcome", TextOf(s.escalationOutcome)))
    case Requeue(q) => Obj(map["count" := Num(q.count), "lastRequeuedAt" := Num(q.lastRequeuedAt)])
    case Since(t) => Num(t)
    case Archived(a) =>
      var bucket := if a.bucket.Some? then Str(a.bucket.value) else Null;
      Obj(Present(Present(Present(map["backend" := Str(a.backend), "bucket" := bucket],
        "verifiedAt", TimeOf(a.verifiedAt)), "jobName", TextOf(a.jobName)), "spawnedAt", TimeOf(a.spawnedAt)))
    case Stop(s) =>
      Obj(Present(map["issuedAt" := Num(s.issuedAt), "outcome" := Str(s.outcome)], "stoppedAt", TimeOf(s.stoppedAt)))
  }

  /** A member that is absent or null, or is a number. */
  predicate OptionalNum(v: Value, name: string) { Member(v, name).Null? || Member(v, name).Num? }

  predicate OptionalText(v: Value, name: string) { Member(v, name).Null? || Member(v, name).Str? }

  function GetTime(v: Value, name: string): Option<Time> {
    if Member(v, name).Num? then Some(Member(v, name).number) else None
  }

  function GetText(v: Value, name: string): Option<string> {
    if Member(v, name).Str? then Some(Member(v, name).text) else None
  }

  /** `from_dict`: None stands for the error raised on a missing or ill-typed field. */
  function Decode(f: Field, v: Value): Option<Record> {
    match f
    case SoftStops =>
      if Member(v, "issuedAt").Num? && Member(v, "outcome").Str? && OptionalNum(v, "escalatedAt") &&
         OptionalText(v, "escalationOutcome")
      then Some(SoftStop(SoftStopRecord(Member(v, "issuedAt").number, Member(v, "outcome").text,
                                        GetTime(v, "escalatedAt"), GetText(v, "escalationOutcome"))))
      else None
    case Requeues =>
      if Member(v, "count").Num? && Member(v, "lastRequeuedAt").Num?
      then Some(Requeue(RequeueRecord(Member(v, "count").number, Member(v, "lastRequeuedAt").number)))
      else None
    case StartedSince => if v.Num? then Some(Since(v.number)) else None
    case ArchivedAnalyses =>
      if Member(v, "backend").Str? && OptionalText(v, "bucket") && OptionalNum(v, "verifiedAt") &&
         OptionalText(v, "jobName") && OptionalNum(v, "spawnedAt")
      then Some(Archived(ArchivedRecord(Member(v, "backend").text, GetText(v, "bucket"), GetTime(v, "verifiedAt"),
                                        GetText(v, "jobName"), GetTime(v, "spawnedAt"))))
      else None
    case StoppedAnalyses =>
      if Member(v, "issuedAt").Num? && Member(v, "outcome").Str? && OptionalNum(v, "stoppedAt")
      then Some(Stop(StopRecord(Member(v, "issuedAt").number, Member(v, "outcome").text, GetTime(v, "stoppedAt"))))
      else None
  }

  /** What the server holds after the record is written where nothing was. */
  function Stored(r: Record): Value { Merge(Null, Encode(r)) }

  predicate Keeps<T>(was: Option<T>, put: Option<T>) { was.Some? ==> put.Some? }

  /** The new record sets every optional field that the old one sets. */
  predicate Carries(was: Record, put: Record) {
    match (was, put)
    case (SoftStop(a), SoftStop(b)) => Keeps(a.escalatedAt, b.escalatedAt) &&
                                       Keeps(a.escalationOutcome, b.escalationOutcome)
    case (Archived(a), Archived(b)) => Keeps(a.verifiedAt, b.verifiedAt) && Keeps(a.jobName, b.jobName) &&
                                       Keeps(a.spawnedAt, b.spawnedAt)
    case (Stop(a), Stop(b)) => Keeps(a.stoppedAt, b.stoppedAt)
    case (_, _) => true
  }

  /** An object none of whose members is an object; every encoded record but a bare clock is one. */
  predicate Flat(v: Value) { v.Obj? && forall k :: k in v.members ==> !v.members[k].Obj? }

  lemma EncodeFlat(r: Record)
    ensures !r.Since? ==> Flat(Encode(r))
  {}

  /** Merging a flat patch: its members win, its null ones remove, the others stay. */
  lemma MergeFlat(v: Value, p: Value)
    requires Flat(p)
    ensures forall name :: Member(Merge(v, p), name) == if name in p.members then p.members[name] else Member(v, name)
  {
    forall name
      ensures Member(Merge(v, p), name) == if name in p.members then p.members[name] else Member(v, name)
    {
      MergeMember(v, p, name);
    }
  }

  /** Decoding looks at members only. */
  lemma DecodeSame(f: Field, v: Value, w: Value)
    requires f != StartedSince && forall name :: Member(v, name) == Member(w, name)
    ensures Decode(f, v) == Decode(f, w)
  {}

  function NumOrNull(t: Option<Time>): Value { if t.Some? then Num(t.value) else Null }

  function StrOrNull(t: Option<string>): Value { if t.Some? then Str(t.value) else Null }

  /** The names under which the fields are kept; an unset one is absent or null. */
  lemma WireNames(s: SoftStopRecord, q: RequeueRecord, p: StopRecord)
    ensures var v := Encode(SoftStop(s));
            && Member(v, "issuedAt") == Num(s.issuedAt) && Member(v, "outcome") == Str(s.outcome)
            && Member(v, "escalatedAt") == NumOrNull(s.escalatedAt)
            && Member(v, "escalationOutcome") == StrOrNull(s.escalationOutcome)
    ensures var v := Encode(Requeue(q));
            Member(v, "count") == Num(q.count) && Member(v, "lastRequeuedAt") == Num(q.lastRequeuedAt)
    ensures var v := Encode(Stop(p));
            && Member(v, "issuedAt") == Num(p.issuedAt) && Member(v, "outcome") == Str(p.outcome)
            && Member(v, "stoppedAt") == NumOrNull(p.stoppedAt)
  {}

  lemma ArchivedWireNames(a: ArchivedRecord)
    ensures var v := Encode(Archived(a));
            && Member(v, "backend") == Str(a.backend) && Member(v, "bucket") == StrOrNull(a.bucket)
            && Member(v, "verifiedAt") == NumOrNull(a.verifiedAt) && Member(v, "jobName") == StrOrNull(a.jobName)
            && Member(v, "spawnedAt") == NumOrNull(a.spawnedAt)
  {}

  lemma DecodeEncodeArchived(a: ArchivedRecord)
    ensures Decode(ArchivedAnalyses, Encode(Archived(a))) == Some(Archived(a))
  {
    ArchivedWireNames(a);
  }

  lemma DecodeEncodeSoftStop(s: SoftStopRecord)
    ensures Decode(SoftStops, Encode(SoftStop(s))) == Some(SoftStop(s))
  {}

  lemma DecodeEncode(r: Record)
    ensures Decode(FieldOf(r), Encode(r)) == Some(r)
  {
    match r
    case SoftStop(s) => DecodeEncodeSoftStop(s);
    case Archived(a) => DecodeEncodeArchived(a);
    case _ =>
  }

  /** Round trip through the server: a stored record decodes to itself. */
  lemma DecodeStored(r: Record)
    ensures Decode(FieldOf(r), Stored(r)) == Some(r)
    ensures Stored(r) != Null && NullFree(Stored(r))
  {
    MergeNullFree(Null, Encode(r));
    DecodeEncode(r);
    EncodeFlat(r);
    if !r.Since? {
      MergeFlat(Null, Encode(r));
      DecodeSame(FieldOf(r), Stored(r), Encode(r));
    }
  }

  lemma CarriesIsKeys(was: Record, put: Record)
    requires FieldOf(was) == FieldOf(put) && !put.Since?
    ensures Carries(was, put) <==> Encode(was).members.Keys <= Encode(put).members.Keys
  {
    if put.SoftStop? { CarriesSoftStop(was.softStop, put.softStop); }
    if put.Archived? { CarriesArchived(was.archived, put.archived); }
    if put.Stop? { CarriesStop(was.stop, put.stop); }
  }

  lemma CarriesSoftStop(a: SoftStopRecord, b: SoftStopRecord)
    ensures Carries(SoftStop(a), SoftStop(b)) <==> Encode(SoftStop(a)).members.Keys <= Encode(SoftStop(b)).members.Keys
  {
    var p, q := Encode(SoftStop(a)).members, Encode(SoftStop(b)).members;
    assert "escalatedAt" in p <==> a.escalatedAt.Some?;
    assert "escalatedAt" in q <==> b.escalatedAt.Some?;
    assert "escalationOutcome" in p <==> a.escalationOutcome.Some?;
    assert "escalationOutcome" in q <==> b.escalationOutcome.Some?;
  }

  lemma CarriesArchived(a: ArchivedRecord, b: ArchivedRecord)
    ensures Carries(Archived(a), Archived(b)) <==> Encode(Archived(a)).members.Keys <= Encode(Archived(b)).members.Keys
  {
    var p, q := Encode(Archived(a)).members, Encode(Archived(b)).members;
    assert "verifiedAt" in p <==> a.verifiedAt.Some?;
    assert "verifiedAt" in q <==> b.verifiedAt.Some?;
    assert "jobName" in p <==> a.jobName.Some?;
    assert "jobName" in q <==> b.jobName.Some?;
    assert "spawnedAt" in p <==> a.spawnedAt.Some?;
    assert "spawnedAt" in q <==> b.spawnedAt.Some?;
  }

  lemma CarriesStop(a: StopRecord, b: StopRecord)
    ensures Carries(Stop(a), Stop(b)) <==> Encode(Stop(a)).members.Keys <= Encode(Stop(b)).members.Keys
  {
    var p, q := Encode(Stop(a)).members, Encode(Stop(b)).members;
    assert "stoppedAt" in p <==> a.stoppedAt.Some?;
    assert "stoppedAt" in q <==> b.stoppedAt.Some?;
  }

  /** A patch that names every member of the target leaves nothing of it. */
  lemma CoveringPatch(v: Value, p: Value)
    requires Flat(p) && Members(v).Keys <= p.members.Keys
    ensures Merge(v, p) == Merge(Null, p)
  {
    var x, y := Merge(v, p), Merge(Null, p);
    forall k
      ensures k in x.members <==> k in y.members
      ensures k in x.members ==> x.members[k] == y.members[k]
    {
      MergeMember(v, p, k);
      MergeMember(Null, p, k);
    }
    assert x.members == y.members;
  }

  lemma CarriedPut(was: Record, put: Record)
    requires FieldOf(was) == FieldOf(put) && Carries(was, put)
    ensures Merge(Stored(was), Encode(put)) == Stored(put)
  {
    if !put.Since? {
      CarriesIsKeys(was, put);
      EncodeFlat(was);
      EncodeFlat(put);
      forall k | k in Stored(was).members ensures k in Encode(put).members { MergeMember(Null, Encode(was), k); }
      CoveringPatch(Stored(was), Encode(put));
    }
  }

  /** An optional field that was set and is not written survives in the merge. */
  lemma LeftoverSurvives(v: Value, p: Value, name: string)
    requires Flat(p) && name !in p.members
    ensures Member(Merge(v, p), name) == Member(v, name)
  {
    MergeFlat(v, p);
  }

  lemma UncarriedSoftStop(a: SoftStopRecord, b: SoftStopRecord)
    requires !Carries(SoftStop(a), SoftStop(b))
    ensures Decode(SoftStops, Merge(Stored(SoftStop(a)), Encode(SoftStop(b)))) != Some(SoftStop(b))
  {
    DecodeStored(SoftStop(a));
    EncodeFlat(SoftStop(b));
    var name := if a.escalatedAt.Some? && b.escalatedAt.None? then "escalatedAt" else "escalationOutcome";
    LeftoverSurvives(Stored(SoftStop(a)), Encode(SoftStop(b)), name);
  }

  lemma UncarriedArchived(a: ArchivedRecord, b: ArchivedRecord)
    requires !Carries(Archived(a), Archived(b))
    ensures Decode(ArchivedAnalyses, Merge(Stored(Archived(a)), Encode(Archived(b)))) != Some(Archived(b))
  {
    DecodeStored(Archived(a));
    EncodeFlat(Archived(b));
    var name := if a.verifiedAt.Some? && b.verifiedAt.None? then "verifiedAt"
                else if a.jobName.Some? && b.jobName.None? then "jobName" else "spawnedAt";
    LeftoverSurvives(Stored(Archived(a)), Encode(Archived(b)), name);
  }

  lemma UncarriedStop(a: StopRecord, b: StopRecord)
    requires !Carries(Stop(a), Stop(b))
    ensures Decode(StoppedAnalyses, Merge(Stored(Stop(a)), Encode(Stop(b)))) != Some(Stop(b))
  {
    DecodeStored(Stop(a));
    EncodeFlat(Stop(b));
    LeftoverSurvives(Stored(Stop(a)), Encode(Stop(b)), "stoppedAt");
  }

  /** get-after-set over a stored record returns the record written exactly when that record
      sets every optional field already stored; merge patch keeps the others. */
  lemma GetAfterSet(was: Record, put: Record)
    requires FieldOf(was) == FieldOf(put)
    ensures Decode(FieldOf(put), Merge(Stored(was), Encode(put))) == Some(put) <==> Carries(was, put)
  {
    if Carries(was, put) {
      CarriedPut(was, put);
      DecodeStored(put);
    } else if put.SoftStop? {
      UncarriedSoftStop(was.softStop, put.softStop);
    } else if put.Archived? {
      UncarriedArchived(was.archived, put.archived);
    } else {
      UncarriedStop(was.stop, put.stop);
    }
  }
}

/** JSON values and the merge patch of section 2 of RFC 7386. */
module Json {
  datatype Value = Null | Str(text: string) | Num(number: int) | Arr(items: seq<Value>) | Obj(members: map<string,
      Value>)

  function Members(v: Value): map<string, Value> { if v.Obj? then v.members else map[] }

  function Member(v: Value, name: string): Value { if name in Members(v) then Members(v)[name] else Null }

  /** The `MergePatch` procedure: a null member removes, any other member is merged, a patch that
      is not an object replaces the target. */
  function Merge(target: Value, patch: Value): Value
    decreases patch
  {
    if !patch.Obj? then patch
    else
      var base := Members(target);
      Obj(map k | k in base.Keys + patch.members.Keys && !(k in patch.members && patch.members[k].Null?) ::
        if k in patch.members
        then Merge(if k in base then base[k] else Null, patch.members[k])
        else base[k])
  }

  /** No object in it has a null member; every value a merge patch builds is like that. */
  predicate NullFree(v: Value) {
    match v
    case Obj(m) => forall k :: k in m ==> m[k] != Null && NullFree(m[k])
    case _ => true
  }

  lemma {:induction false} MergeNullFree(target: Value, patch: Value)
    requires NullFree(target)
    ensures NullFree(Merge(target, patch))
    ensures patch != Null ==> Merge(target, patch) != Null
    decreases patch
  {
    if patch.Obj? {
      forall k | k in patch.members { MergeNullFree(Member(target, k), patch.members[k]); }
    }
  }

  /** Merging a null-free value into itself changes nothing. */
  lemma {:induction false} MergeSelf(v: Value)
    requires NullFree(v)
    ensures Merge(v, v) == v
  {
    if v.Obj? {
      forall k | k in v.members ensures Merge(v.members[k], v.members[k]) == v.members[k] { MergeSelf(v.members[k]); }
      assert Merge(v, v).members == v.members;
    }
  }

  /** A null-free value merged into nothing is that value. */
  lemma {:induction false} MergeIntoNothing(v: Value)
    requires NullFree(v)
    ensures Merge(Null, v) == v
  {
    if v.Obj? {
      forall k | k in v.members ensures Merge(Null, v.members[k]) == v.members[k] { MergeIntoNothing(v.members[k]); }
      assert Merge(Null, v).members == v.members;
    }
  }

  function MergeAll(target: Value, patches: seq<Value>): Value {
    if patches == [] then target else Merge(MergeAll(target, patches[..|patches| - 1]), patches[|patches| - 1])
  }

  lemma {:induction false} MergeAllAppend(target: Value, a: seq<Value>, b: seq<Value>)
    ensures MergeAll(target, a + b) == MergeAll(MergeAll(target, a), b)
  {
    if b == [] {
      assert a + b == a;
    } else {
      var front := b[..|b| - 1];
      MergeAllAppend(target, a, front);
      assert (a + b)[..|a + b| - 1] == a + front;
    }
  }

  // ---------------------------------------------------------------- commuting patches

  /** The patch that sets or removes one entry of one map field. */
  function EntryPatch(field: string, key: string, value: Value): Value {
    Obj(map[field := Obj(map[key := value])])
  }

  /** The patch leaves the entry alone: it is an object, and if it names the field at all it
      gives an object without the key. */
  predicate Avoids(patch: Value, field: string, key: string) {
    && patch.Obj?
    && (field in patch.members ==> patch.members[field].Obj? && key !in patch.members[field].members)
  }

  /** The members of a merge, one by one. */
  lemma MergeMember(v: Value, p: Value, k: string)
    requires p.Obj?
    ensures k in Merge(v, p).members <==> (if k in p.members then !p.members[k].Null? else k in Members(v))
    ensures k in p.members && !p.members[k].Null? ==> Merge(v, p).members[k] == Merge(Member(v, k), p.members[k])
    ensures k !in p.members && k in Members(v) ==> Merge(v, p).members[k] == Members(v)[k]
  {}

  lemma FieldCommutes(v: Value, key: string, value: Value, q: Value)
    requires q.Obj? && key !in q.members
    ensures Merge(Merge(v, Obj(map[key := value])), q) == Merge(Merge(v, q), Obj(map[key := value]))
  {
    var p := Obj(map[key := value]);
    var vp, vq := Merge(v, p), Merge(v, q);
    var x, y := Merge(vp, q), Merge(vq, p);
    forall k
      ensures k in x.members <==> k in y.members
      ensures k in x.members ==> x.members[k] == y.members[k]
    {
      MergeMember(v, p, k);
      MergeMember(v, q, k);
      MergeMember(vp, q, k);
      MergeMember(vq, p, k);
    }
    assert x.members == y.members;
  }

  /** An entry patch commutes with every patch that avoids the entry. */
  lemma EntryPatchCommutes(v: Value, field: string, key: string, value: Value, q: Value)
    requires Avoids(q, field, key)
    ensures Merge(Merge(v, EntryPatch(field, key, value)), q) == Merge(Merge(v, q), EntryPatch(field, key, value))
  {
    var p := EntryPatch(field, key, value);
    SinglePatchCommutes(v, field, Obj(map[key := value]), q, Merge(v, p), Merge(v, q)) by {
      if field in q.members { FieldCommutes(Member(v, field), key, value, q.members[field]); }
    }
  }

  lemma SinglePatchCommutes(v: Value, field: string, inner: Value, q: Value, vp: Value, vq: Value)
    requires q.Obj? && inner.Obj? && (field in q.members ==> q.members[field].Obj?)
    requires vp == Merge(v, Obj(map[field := inner])) && vq == Merge(v, q)
    requires field in q.members ==>
      Merge(Merge(Member(v, field), inner), q.members[field]) == Merge(Merge(Member(v, field), q.members[field]), inner)
    ensures Merge(vp, q) == Merge(vq, Obj(map[field := inner]))
  {
    var p := Obj(map[field := inner]);
    var x, y := Merge(vp, q), Merge(vq, p);
    forall k
      ensures k in x.members <==> k in y.members
      ensures k in x.members ==> x.members[k] == y.members[k]
    {
      MergeMember(v, p, k);
      MergeMember(v, q, k);
      MergeMember(vp, q, k);
      MergeMember(vq, p, k);
    }
    assert x.members == y.members;
  }

  lemma {:induction false} EntryPatchCommutesAll(v: Value, field: string, key: string, value: Value, qs: seq<Value>)
    requires forall i :: 0 <= i < |qs| ==> Avoids(qs[i], field, key)
    ensures MergeAll(Merge(v, EntryPatch(field, key, value)), qs) ==
              Merge(MergeAll(v, qs), EntryPatch(field, key, value))
  {
    if qs != [] {
      var front := qs[..|qs| - 1];
      EntryPatchCommutesAll(v, field, key, value, front);
      EntryPatchCommutes(MergeAll(v, front), field, key, value, qs[|qs| - 1]);
    }
  }
}

/** The mirror of the deferred events is what the status store keeps under `deferredEvents`. */
module EventMirror {
  import opened Basics
  import opened Json
  import opened StatusStore
  import Sink = EventSink

  function Entry(e: Sink.Event): Value {
    Obj(map["namespace" := Str(e.cr.namespace), "name" := Str(e.cr.name), "reason" := Str(e.note.reason),
            "message" := Str(e.note.message)])
  }

  /** A missing or empty text reads as the empty one. */
  function TextAt(v: Value, name: string): string { if Member(v, name).Str? then Member(v, name).text else "" }

  function NoteOf(v: Value): Sink.Note { Sink.Note(TextAt(v, "reason"), TextAt(v, "message")) }

  /** The status of the CR holds these notes, in order. */
  predicate Keeps(status: Value, cr: Sink.Cr, notes: seq<Sink.Note>) {
    |Deferred(status)| == |notes| && forall i :: 0 <= i < |notes| ==>
          Deferred(status)[i] == Entry(Sink.Event(cr, notes[i]))
  }

  lemma DeferredAfter(status: Value, v: Value)
    requires !v.Obj?
    ensures Deferred(Merge(status, Obj(map[DEFERRED_EVENTS := v]))) == if v.Arr? then v.items else []
  {
    MergeMember(status, Obj(map[DEFERRED_EVENTS := v]), DEFERRED_EVENTS);
  }

  /** Deferring an event whose mirror write lands changes the status as it changes the mirror. */
  lemma AppendKeeps(w: Sink.World, status: Value, e: Sink.Event)
    requires Keeps(status, e.cr, Sink.MirrorOf(w, e.cr)) && |w.queue| < Sink.MAX_DEFERRED_WARNING_EVENTS
    ensures Keeps(Apply(Append(Entry(e), Some(Sink.MAX_DEFERRED_WARNING_EVENTS)), status), e.cr,
                  Sink.MirrorOf(Sink.Deferred(w, e, true), e.cr))
  {
    DeferredAfter(status, Arr(Deferred(status) + [Entry(e)]));
    assert e == Sink.Event(e.cr, e.note);
  }

  /** Clearing leaves nothing, whatever was there. */
  lemma ClearKeeps(status: Value, cr: Sink.Cr)
    ensures Keeps(Apply(Clear, status), cr, [])
  {
    DeferredAfter(status, Null);
  }

  /** What a drain reads from the status are the mirrored notes. */
  lemma ReadKeeps(status: Value, cr: Sink.Cr, notes: seq<Sink.Note>, i: nat)
    requires Keeps(status, cr, notes) && i < |notes|
    ensures NoteOf(Deferred(status)[i]) == notes[i]
  {
    assert Deferred(status)[i] == Entry(Sink.Event(cr, notes[i]));
  }
}

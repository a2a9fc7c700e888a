/**
 * How the tracer picks a parent and builds the context of a new span
 * (Tracer::getParentSpanContext and the context half of Tracer::startSpan),
 * and what that implies for a whole trace.
 */
module Contexts {
  import opened Wrappers
  import opened Types

  /** Index i holds the first CHILD_OF reference of `refs`. */
  predicate FirstChildOfAt(refs: seq<Reference>, i: int) {
    && 0 <= i < |refs|
    && refs[i].kind == ChildOf
    && forall j :: 0 <= j < i ==> refs[j].kind != ChildOf
  }

  /** The parent of a new span: the context of the first CHILD_OF reference, if any. */
  function ParentContext(refs: seq<Reference>): (r: Option<SpanContext>)
    ensures r.None? <==> forall i :: 0 <= i < |refs| ==> refs[i].kind != ChildOf
    ensures r.Some? ==> exists i :: FirstChildOfAt(refs, i) && refs[i].context == r.value
  {
    if refs == [] then None
    else if refs[0].kind == ChildOf then
      assert FirstChildOfAt(refs, 0);
      Some(refs[0].context)
    else
      var r := ParentContext(refs[1..]);
      if r.Some? then
        var i :| FirstChildOfAt(refs[1..], i) && refs[1..][i].context == r.value;
        assert FirstChildOfAt(refs, i + 1);
        r
      else
        r
  }

  /** startSpan builds a root context when there is no parent or the parent's traceIdLow is falsy. */
  predicate StartsTrace(parent: Option<SpanContext>) {
    parent.None? || parent.value.traceIdLow == 0
  }

  /**
   * The context startSpan gives a new span. `id` is the first generated id,
   * `highId` the second one, drawn only for a root in 128-bit mode.
   */
  function NewContext(parent: Option<SpanContext>, sampled: bool, gen128bit: bool, id: Id, highId: Id): (c: SpanContext)
    ensures c.spanId == id
    ensures StartsTrace(parent) ==>
      && c.traceIdLow == c.spanId
      && c.parentId == 0
      && (IsSampled(c.flags) <==> sampled)
      && c.traceIdHigh == (if gen128bit then highId else 0)
    ensures !StartsTrace(parent) ==>
      && c.traceIdLow == parent.value.traceIdLow
      && c.traceIdHigh == parent.value.traceIdHigh
      && c.flags == parent.value.flags
      && c.parentId == parent.value.spanId
  {
    if StartsTrace(parent) then
      SpanContext(id, if gen128bit then highId else 0, id, 0, if sampled then 1 else 0)
    else
      // the high half is copied only when it is truthy; an unset one is 0 already
      var p := parent.value;
      SpanContext(p.traceIdLow, p.traceIdHigh, id, p.spanId, p.flags)
  }

  /**
   * The contexts of a line of descendants of `root`: span k is started with
   * the context of span k - 1 (span 0 with `root`) as its CHILD_OF parent and
   * takes ids[k] as its generated id. The root has a non-zero traceIdLow, so
   * every span of the line is a child and never consults the sampler or the
   * 128-bit switch; those arguments are therefore fixed.
   */
  function Descendants(root: SpanContext, ids: seq<Id>): (cs: seq<SpanContext>)
    requires root.traceIdLow != 0
    ensures |cs| == |ids|
  {
    if ids == [] then []
    else
      var prev := Descendants(root, ids[..|ids| - 1]);
      var parent := if prev == [] then root else prev[|prev| - 1];
      prev + [NewContext(Some(parent), false, false, ids[|ids| - 1], 0)]
  }

  /** Every descendant of a usable parent shares its trace id halves and flags, and points to its own parent. */
  lemma {:induction false} DescendantsShareTrace(root: SpanContext, ids: seq<Id>)
    requires root.traceIdLow != 0
    ensures var cs := Descendants(root, ids);
      && (forall k :: 0 <= k < |cs| ==>
            cs[k].traceIdLow == root.traceIdLow && cs[k].traceIdHigh == root.traceIdHigh && cs[k].flags == root.flags)
      && (forall k :: 0 <= k < |cs| ==> cs[k].spanId == ids[k])
      && (|cs| > 0 ==> cs[0].parentId == root.spanId)
      && (forall k :: 0 < k < |cs| ==> cs[k].parentId == cs[k - 1].spanId)
  {
    if ids != [] {
      var front := ids[..|ids| - 1];
      DescendantsShareTrace(root, front);
      var prev := Descendants(root, front);
      var cs := Descendants(root, ids);
      assert cs[..|prev|] == prev;
    }
  }

  /**
   * Sampling is decided once, at the root: a root started with a generated
   * (non-zero) id and every descendant of it carry the root's decision,
   * trace id and high trace id.
   */
  lemma TraceInheritsRootDecision(sampled: bool, gen128bit: bool, id: Id, highId: Id, ids: seq<Id>)
    requires id != 0
    ensures var root := NewContext(None, sampled, gen128bit, id, highId);
      forall c :: c in Descendants(root, ids) ==>
        && c.traceIdLow == id
        && c.traceIdHigh == (if gen128bit then highId else 0)
        && (IsSampled(c.flags) <==> sampled)
  {
    var root := NewContext(None, sampled, gen128bit, id, highId);
    DescendantsShareTrace(root, ids);
  }
}

/**
 * The size-bounded batching of TransportUdp::append as pure functions over
 * a sequence of records and their encoded sizes, and what it guarantees.
 *
 * The loop of append keeps a running byte total. A record larger than
 * maxSpanBytes is skipped. Otherwise its size is added to the total and the
 * record is appended to the batch being filled; when the total now exceeds
 * maxSpanBytes, that batch (including the record just added) is closed and
 * the total restarts at 0. After the loop the batch being filled is pushed,
 * even when empty.
 */
module Batching {

  /** One datagram: the process record and the span records packed with it. */
  datatype Batch<P, T> = Batch(process: P, spans: seq<T>)

  /** The state of append's loop: the batches closed so far, the batch being filled, the running byte total. */
  datatype Packing<T> = Packing(closed: seq<seq<T>>, current: seq<T>, buffer: nat) {

    /** The span lists of the batches one append pushes: the closed ones, then the final one. */
    function Groups(): seq<seq<T>> {
      closed + [current]
    }
  }

  function SumSizes<T>(xs: seq<T>, sizeOf: T -> nat): nat {
    if xs == [] then 0 else SumSizes(xs[..|xs| - 1], sizeOf) + sizeOf(xs[|xs| - 1])
  }

  function Flatten<T>(gs: seq<seq<T>>): seq<T> {
    if gs == [] then [] else Flatten(gs[..|gs| - 1]) + gs[|gs| - 1]
  }

  lemma FlattenSnoc<T>(gs: seq<seq<T>>, g: seq<T>)
    ensures Flatten(gs + [g]) == Flatten(gs) + g
  {
    assert (gs + [g])[..|gs|] == gs;
  }

  /** The records whose own size fits in `max`, in their original order. */
  function Kept<T>(xs: seq<T>, sizeOf: T -> nat, max: int): (r: seq<T>)
    ensures |r| <= |xs|
    ensures forall k :: 0 <= k < |r| ==> r[k] in xs && sizeOf(r[k]) <= max
    ensures forall k :: 0 <= k < |xs| && sizeOf(xs[k]) <= max ==> xs[k] in r
  {
    if xs == [] then []
    else
      var front := xs[..|xs| - 1];
      var x := xs[|xs| - 1];
      assert xs == front + [x];
      if sizeOf(x) > max then Kept(front, sizeOf, max) else Kept(front, sizeOf, max) + [x]
  }

  /** One iteration of append's loop, for the record x. */
  function Step<T>(p: Packing<T>, x: T, sizeOf: T -> nat, max: int): (r: Packing<T>)
  {
    var size := sizeOf(x);
    if size > max then p
    else
      var buffer := p.buffer + size;
      var current := p.current + [x];
      if buffer > max then Packing(p.closed + [current], [], 0)
      else Packing(p.closed, current, buffer)
  }

  /**
   * A record too large on its own leaves the state unchanged; any other is
   * appended to the batch being filled, and when it pushes the total over
   * `max` that batch is closed with it and the total restarts at 0.
   */
  lemma StepAppendsOrSkips<T>(p: Packing<T>, x: T, sizeOf: T -> nat, max: int)
    ensures var r := Step(p, x, sizeOf, max);
      && (sizeOf(x) > max ==> r == p)
      && (sizeOf(x) <= max ==> Flatten(r.Groups()) == Flatten(p.Groups()) + [x])
      && (sizeOf(x) <= max && p.buffer + sizeOf(x) > max ==>
            r.closed == p.closed + [p.current + [x]] && r.current == [] && r.buffer == 0)
  {
    if sizeOf(x) <= max {
      var current := p.current + [x];
      FlattenSnoc(p.closed, p.current);
      FlattenSnoc(p.closed, current);
      FlattenSnoc(p.closed + [current], []);
    }
  }

  /** The loop of append run over `xs`, starting from an empty batch and the running total `start`. */
  function Pack<T>(xs: seq<T>, sizeOf: T -> nat, max: int, start: nat): Packing<T> {
    if xs == [] then Packing([], [], start)
    else Step(Pack(xs[..|xs| - 1], sizeOf, max, start), xs[|xs| - 1], sizeOf, max)
  }

  /** The batches of one append hold exactly the records that fit, in order: none lost, none repeated. */
  lemma {:induction false} PackKeepsFittingRecordsInOrder<T>(xs: seq<T>, sizeOf: T -> nat, max: int, start: nat)
    ensures Flatten(Pack(xs, sizeOf, max, start).Groups()) == Kept(xs, sizeOf, max)
  {
    if xs == [] {
      var empty: seq<T> := [];
      assert Pack(xs, sizeOf, max, start).Groups() == [empty];
      assert Flatten([empty]) == Flatten<T>([]) + empty;
    } else {
      PackKeepsFittingRecordsInOrder(xs[..|xs| - 1], sizeOf, max, start);
      StepAppendsOrSkips(Pack(xs[..|xs| - 1], sizeOf, max, start), xs[|xs| - 1], sizeOf, max);
    }
  }

  /**
   * One append closes at most one batch per record, and once any record has
   * been taken the running total is back within `max`.
   */
  lemma {:induction false} PackBounds<T>(xs: seq<T>, sizeOf: T -> nat, max: int, start: nat)
    ensures var r := Pack(xs, sizeOf, max, start);
      && |r.closed| <= |xs|
      && (r.buffer <= max || r == Packing([], [], start))
  {
    if xs != [] {
      PackBounds(xs[..|xs| - 1], sizeOf, max, start);
    }
  }

  /** The bytes already counted when batch k began: the seed for the first batch, 0 after a close. */
  function StartOf(k: nat, start: nat): nat {
    if k == 0 then start else 0
  }

  /**
   * The accounting append keeps, for a run started at `start`:
   * every closed batch is non-empty and pushed the total over `max`; its
   * last record fits on its own; before that last record the total was
   * within `max` (for the first batch, provided the seed was); and the
   * running total is the bytes of the batch being filled, within `max`
   * unless nothing has been added to the seed.
   */
  ghost predicate WellPacked<T>(p: Packing<T>, sizeOf: T -> nat, max: int, start: nat) {
    && (forall k :: 0 <= k < |p.closed| ==>
          && p.closed[k] != []
          && StartOf(k, start) + SumSizes(p.closed[k], sizeOf) > max
          && sizeOf(p.closed[k][|p.closed[k]| - 1]) <= max
          && ((k > 0 || start <= max) ==>
                StartOf(k, start) + SumSizes(p.closed[k][..|p.closed[k]| - 1], sizeOf) <= max))
    && p.buffer == StartOf(|p.closed|, start) + SumSizes(p.current, sizeOf)
    && (p.buffer <= max || (p.closed == [] && p.current == [] && p.buffer == start))
  }

  lemma StepKeepsWellPacked<T>(p: Packing<T>, x: T, sizeOf: T -> nat, max: int, start: nat)
    requires WellPacked(p, sizeOf, max, start)
    ensures WellPacked(Step(p, x, sizeOf, max), sizeOf, max, start)
  {
    var size := sizeOf(x);
    if size <= max {
      var current := p.current + [x];
      assert current[..|current| - 1] == p.current;
      assert SumSizes(current, sizeOf) == SumSizes(p.current, sizeOf) + size;
      var r := Step(p, x, sizeOf, max);
      if p.buffer + size > max {
        var k := |p.closed|;
        assert r.closed[k] == current;
        assert forall j :: 0 <= j < k ==> r.closed[j] == p.closed[j];
      }
    }
  }

  /** Every run of append's loop keeps the accounting of WellPacked. */
  lemma {:induction false} PackIsWellPacked<T>(xs: seq<T>, sizeOf: T -> nat, max: int, start: nat)
    ensures WellPacked(Pack(xs, sizeOf, max, start), sizeOf, max, start)
  {
    if xs != [] {
      PackIsWellPacked(xs[..|xs| - 1], sizeOf, max, start);
      StepKeepsWellPacked(Pack(xs[..|xs| - 1], sizeOf, max, start), xs[|xs| - 1], sizeOf, max, start);
    }
  }

  function Identity(n: nat): nat {
    n
  }

  /**
   * A closed batch is not bounded by the budget: with maxSpanBytes 100, a
   * process record of 10 bytes and two records of 60 bytes, the second
   * record closes a batch holding both, 130 bytes with the process record.
   */
  lemma ClosedBatchCanExceedBudget()
    ensures var xs: seq<nat> := [60, 60];
      var p := Pack(xs, Identity, 100, 10);
      && p.closed == [xs]
      && 10 + SumSizes(p.closed[0], Identity) > 100
  {
    var xs: seq<nat> := [60, 60];
    assert xs[..1] == [60];
    assert xs[..1][..0] == [];
    var p1 := Pack(xs[..1], Identity, 100, 10);
    assert p1 == Packing([], [60], 70);
    assert Pack(xs, Identity, 100, 10) == Step(p1, 60, Identity, 100);
    assert [60] + [60] == xs;
  }

  /**
   * The final batch is not bounded either: with the same budget and process
   * record, records of 60, 60 and 95 bytes close [60, 60] and leave [95] as
   * the final batch, 105 bytes with the process record.
   */
  lemma FinalBatchCanExceedBudget()
    ensures var xs: seq<nat> := [60, 60, 95];
      var p := Pack(xs, Identity, 100, 10);
      && p.closed == [[60, 60]]
      && p.current == [95]
      && 10 + SumSizes(p.current, Identity) > 100
  {
    var xs: seq<nat> := [60, 60, 95];
    ClosedBatchCanExceedBudget();
    assert xs[..2] == [60, 60];
    var p2 := Pack(xs[..2], Identity, 100, 10);
    assert Pack(xs, Identity, 100, 10) == Step(p2, 95, Identity, 100);
    assert [95][..0] == [];
  }

  /** The batches pushed for `groups`, each carrying the same process record. */
  function Wrap<P, T>(process: P, groups: seq<seq<T>>): (r: seq<Batch<P, T>>)
    ensures |r| == |groups|
    ensures forall k :: 0 <= k < |r| ==> r[k] == Batch(process, groups[k])
  {
    if groups == [] then []
    else Wrap(process, groups[..|groups| - 1]) + [Batch(process, groups[|groups| - 1])]
  }

  lemma WrapSnoc<P, T>(process: P, groups: seq<seq<T>>, g: seq<T>)
    ensures Wrap(process, groups + [g]) == Wrap(process, groups) + [Batch(process, g)]
  {
    assert (groups + [g])[..|groups|] == groups;
  }

  /**
   * One step of an append, as a caller holding the wrapped closed batches
   * after `start` sees it: which of the three cases happens and what the
   * list of batches becomes.
   */
  lemma StepWrapped<P, T>(process: P, p: Packing<T>, x: T, sizeOf: T -> nat, max: int, start: seq<Batch<P, T>>)
    ensures var r := Step(p, x, sizeOf, max);
      && (sizeOf(x) > max ==> r == p)
      && (sizeOf(x) <= max && p.buffer + sizeOf(x) <= max ==>
            r == Packing(p.closed, p.current + [x], p.buffer + sizeOf(x)))
      && (sizeOf(x) <= max && p.buffer + sizeOf(x) > max ==>
            && r == Packing(p.closed + [p.current + [x]], [], 0)
            && start + Wrap(process, r.closed) == start + Wrap(process, p.closed) + [Batch(process, p.current + [x])])
  {
    WrapSnoc(process, p.closed, p.current + [x]);
  }

  /** The span records of a list of batches, batch after batch. */
  function SpansOf<P, T>(bs: seq<Batch<P, T>>): seq<T> {
    if bs == [] then [] else SpansOf(bs[..|bs| - 1]) + bs[|bs| - 1].spans
  }

  lemma {:induction false} SpansOfWrap<P, T>(process: P, groups: seq<seq<T>>)
    ensures SpansOf(Wrap(process, groups)) == Flatten(groups)
  {
    if groups != [] {
      var front := groups[..|groups| - 1];
      SpansOfWrap(process, front);
      var w := Wrap(process, groups);
      assert w[..|w| - 1] == Wrap(process, front);
    }
  }

  /** The batches one append pushes for `xs`, started with `start` bytes counted. */
  function Appended<P, T>(process: P, xs: seq<T>, sizeOf: T -> nat, max: int, start: nat): seq<Batch<P, T>> {
    Wrap(process, Pack(xs, sizeOf, max, start).Groups())
  }

  /** The batches one append pushes carry exactly the records that fit, in order. */
  lemma AppendSendsFittingRecords<P, T>(process: P, xs: seq<T>, sizeOf: T -> nat, max: int, start: nat)
    ensures SpansOf(Appended(process, xs, sizeOf, max, start)) == Kept(xs, sizeOf, max)
  {
    SpansOfWrap(process, Pack(xs, sizeOf, max, start).Groups());
    PackKeepsFittingRecordsInOrder(xs, sizeOf, max, start);
  }
}

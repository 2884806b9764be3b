/**
 * The write-ahead-log coordinator: records are appended to a pending batch;
 * a batch that reaches the size limit is handed to the flush loop through a
 * one-slot channel; the flush loop writes handed-off batches, flushes the
 * pending batch on every timer tick, and flushes it once more on shutdown.
 *
 * The coordinator's state is described by the value `WalState` and the
 * transition functions over it; the class `WAL` updates its fields in place
 * and each of its methods is tied to one transition.
 */
module Wal {
  import opened Wrappers
  import Compute
  import WalReader

  /** An accepted write as handed to the segment writer (its attached promise is not modelled). */
  datatype WriteRequest = WriteRequest(txId: int, commandId: int, args: seq<string>)

  /** The segment writer behind `logsWriter`; its encoding and files are not part of this model. */
  class LogsWriter {
  }

  /** What one iteration of the flush loop reacts to: shutdown, a handed-off batch, a timer tick. */
  datatype Event = Done | Handoff | Tick

  /**
   * The coordinator's state: the pending batch, the one-slot handoff
   * channel, the batches given to the writer so far (in call order) and,
   * for the proofs, every record pushed so far (in push order).
   */
  datatype WalState = WalState(batch: seq<WriteRequest>, slot: Option<seq<WriteRequest>>,
                               written: seq<seq<WriteRequest>>, pushed: seq<WriteRequest>)

  /** The state of a freshly built WAL: nothing pending, queued, written or pushed, under every limit. */
  function Initial(): (r: WalState)
    ensures InOrder(r) && Conserved(r)
    ensures forall limit :: WellShaped(r, limit)
  {
    WalState([], None, [], [])
  }

  /** The records of a list of batches, batch after batch. */
  function Flatten(batches: seq<seq<WriteRequest>>): seq<WriteRequest> {
    if batches == [] then [] else Flatten(batches[..|batches| - 1]) + batches[|batches| - 1]
  }

  /** The records waiting in the handoff channel. */
  function Queued(slot: Option<seq<WriteRequest>>): seq<WriteRequest> {
    if slot.Some? then slot.value else []
  }

  lemma FlattenSnoc(batches: seq<seq<WriteRequest>>, b: seq<WriteRequest>)
    ensures Flatten(batches + [b]) == Flatten(batches) + b
  {
    assert (batches + [b])[..|batches|] == batches;
  }

  /**
   * A queued batch is a full one, the pending batch stays below a positive
   * limit, and the writer is never given an empty batch.
   */
  predicate WellShaped(s: WalState, limit: int) {
    && (s.slot.Some? ==> |s.slot.value| == limit > 0)
    && (0 < limit ==> |s.batch| < limit)
    && (forall i :: 0 <= i < |s.written| ==> s.written[i] != [])
  }

  /** No record is lost or duplicated: written, queued and pending records are the pushed ones. */
  predicate Conserved(s: WalState) {
    multiset(Flatten(s.written)) + multiset(Queued(s.slot)) + multiset(s.batch) == multiset(s.pushed)
  }

  /** Records reach the writer in push order: written, then queued, then pending. */
  predicate InOrder(s: WalState) {
    Flatten(s.written) + Queued(s.slot) + s.batch == s.pushed
  }

  /** The size-triggered send on the channel finds room unless the slot is already full. */
  predicate CanPush(s: WalState, limit: int) {
    |s.batch| + 1 == limit ==> s.slot.None?
  }

  /**
   * push: the new record goes behind every record not yet written, a batch
   * that reaches the limit moves into the slot, and nothing is written.
   */
  function AfterPush(s: WalState, limit: int, r: WriteRequest): (t: WalState)
    requires CanPush(s, limit)
    ensures t.pushed == s.pushed + [r] && t.written == s.written
    ensures Queued(t.slot) + t.batch == Queued(s.slot) + s.batch + [r]
  {
    var b := s.batch + [r];
    if |b| == limit then
      assert Queued(s.slot) + s.batch == s.batch && b + [] == b;
      WalState([], Some(b), s.written, s.pushed + [r])
    else WalState(b, s.slot, s.written, s.pushed + [r])
  }

  /**
   * flushBatch: the pending records are appended to what the writer has been
   * given (as one batch, and only if there are any); the slot stays as it is.
   */
  function AfterFlush(s: WalState): (t: WalState)
    ensures t.batch == [] && t.slot == s.slot && t.pushed == s.pushed
    ensures Flatten(t.written) == Flatten(s.written) + s.batch
    ensures s.batch == [] ==> t.written == s.written
    ensures s.batch != [] ==> t.written == s.written + [s.batch]
  {
    if s.batch == [] then s
    else
      FlattenSnoc(s.written, s.batch);
      WalState([], s.slot, s.written + [s.batch], s.pushed)
  }

  /**
   * The flush loop's handoff case: the queued records are appended to what the
   * writer has been given, the slot is emptied and the pending batch stays.
   */
  function AfterHandoff(s: WalState): (t: WalState)
    requires s.slot.Some?
    ensures Flatten(t.written) == Flatten(s.written) + s.slot.value
    ensures t.slot.None? && t.batch == s.batch && t.pushed == s.pushed
  {
    FlattenSnoc(s.written, s.slot.value);
    WalState(s.batch, None, s.written + [s.slot.value], s.pushed)
  }

  /**
   * One iteration of the loop in Start, as written. Written batches stay
   * written, and the unwritten records keep their order exactly when the
   * iteration is a handoff or nothing is queued: a tick or shutdown flushes
   * only the pending batch and leaves a queued batch in the slot.
   */
  function AfterStep(s: WalState, e: Event): (t: WalState)
    requires e == Handoff ==> s.slot.Some?
    ensures t.pushed == s.pushed && s.written <= t.written
    ensures e != Handoff ==> t.slot == s.slot && t.batch == []
    ensures e == Handoff || s.slot.None? ==>
      Flatten(t.written) + Queued(t.slot) + t.batch == Flatten(s.written) + Queued(s.slot) + s.batch
  {
    match e
    case Done => AfterFlush(s)
    case Handoff => AfterHandoff(s)
    case Tick => AfterFlush(s)
  }

  /**
   * One iteration with the queued batch written before the pending one on a
   * tick and on shutdown: the unwritten records reach the writer in the order
   * they had, and a tick or shutdown leaves nothing pending or queued.
   */
  function AfterStepDraining(s: WalState, e: Event): (t: WalState)
    requires e == Handoff ==> s.slot.Some?
    ensures t.pushed == s.pushed && s.written <= t.written
    ensures e != Handoff ==> t.slot.None? && t.batch == []
    ensures Flatten(t.written) + Queued(t.slot) + t.batch == Flatten(s.written) + Queued(s.slot) + s.batch
  {
    if e == Handoff then AfterHandoff(s)
    else AfterFlush(if s.slot.Some? then AfterHandoff(s) else s)
  }

  /**
   * Several pushes one after the other. A push whose send finds the slot full
   * blocks inside the lock, so the run stops there: that record is appended
   * and the later ones wait on the lock. Nothing is written, the pushed
   * records are those before followed by a prefix of the run (all of it unless
   * a push blocked), and the shape, the balance and the order are kept.
   */
  function AfterPushes(s: WalState, limit: int, records: seq<WriteRequest>): (t: WalState)
    requires WellShaped(s, limit)
    ensures t.written == s.written
    ensures WellShaped(t, limit) || Blocked(t, limit)
    ensures s.pushed <= t.pushed <= s.pushed + records
    ensures !Blocked(t, limit) ==> t.pushed == s.pushed + records
    ensures Conserved(s) ==> Conserved(t)
    ensures InOrder(s) ==> InOrder(t)
    decreases |records|
  {
    if records == [] then s
    else
      var n := |records| - 1;
      var last := records[n];
      var prev := AfterPushes(s, limit, records[..n]);
      PushesStep(s, limit, records, prev);
      if Blocked(prev, limit) then prev else PushOrBlock(prev, limit, last)
  }

  /** The last push of a run, after the pushes before it have left `prev`. */
  lemma PushesStep(s: WalState, limit: int, records: seq<WriteRequest>, prev: WalState)
    requires |records| > 0 && WellShaped(s, limit)
    requires prev.written == s.written && (WellShaped(prev, limit) || Blocked(prev, limit))
    requires s.pushed <= prev.pushed <= s.pushed + records[..|records| - 1]
    requires !Blocked(prev, limit) ==> prev.pushed == s.pushed + records[..|records| - 1]
    requires Conserved(s) ==> Conserved(prev)
    requires InOrder(s) ==> InOrder(prev)
    ensures var t := if Blocked(prev, limit) then prev else PushOrBlock(prev, limit, records[|records| - 1]);
      && t.written == s.written
      && (WellShaped(t, limit) || Blocked(t, limit))
      && s.pushed <= t.pushed <= s.pushed + records
      && (!Blocked(t, limit) ==> t.pushed == s.pushed + records)
      && (Conserved(s) ==> Conserved(t))
      && (InOrder(s) ==> InOrder(t))
  {
    var n := |records| - 1;
    assert records[..n] + [records[n]] == records;
    PrefixExtends(s.pushed, prev.pushed, records[..n], records[n]);
  }

  /** A prefix of a + b is a prefix of a + b + [x]. */
  lemma PrefixExtends(a: seq<WriteRequest>, p: seq<WriteRequest>, b: seq<WriteRequest>, x: WriteRequest)
    requires p <= a + b
    ensures p <= a + b + [x]
  {
    assert (a + b + [x])[..|p|] == (a + b)[..|p|];
  }

  /** One push of a run: it goes through, or its send finds the slot full and it blocks. */
  function PushOrBlock(s: WalState, limit: int, r: WriteRequest): (t: WalState)
    requires WellShaped(s, limit)
    ensures t.written == s.written && t.pushed == s.pushed + [r]
    ensures WellShaped(t, limit) || Blocked(t, limit)
    ensures Conserved(s) ==> Conserved(t)
    ensures InOrder(s) ==> InOrder(t)
  {
    var t := if CanPush(s, limit) then AfterPush(s, limit, r) else AfterBlockedPush(s, limit, r);
    SnocBalance(Queued(s.slot), s.batch, Queued(t.slot), t.batch, r);
    PushStreamOrder(s, t, r);
    if CanPush(s, limit) then PushPreserves(s, limit, r); t else t
  }

  /**
   * A push appends the record behind everything still unwritten, writes
   * nothing, hands the batch off exactly when it reaches the limit, and keeps
   * the shape, the balance and the order.
   */
  lemma PushPreserves(s: WalState, limit: int, r: WriteRequest)
    requires WellShaped(s, limit) && CanPush(s, limit)
    ensures var t := AfterPush(s, limit, r);
      && t.pushed == s.pushed + [r] && t.written == s.written
      && Queued(t.slot) + t.batch == Queued(s.slot) + s.batch + [r]
      && (t.slot.Some? && s.slot.None? <==> |s.batch| + 1 == limit)
      && (limit <= 0 ==> t.slot == s.slot)
      && WellShaped(t, limit)
  {
  }

  /** A push keeps the balance. */
  lemma PushConserves(s: WalState, limit: int, r: WriteRequest)
    requires CanPush(s, limit)
    ensures Conserved(s) ==> Conserved(AfterPush(s, limit, r))
  {
    var t := AfterPush(s, limit, r);
    SnocBalance(Queued(s.slot), s.batch, Queued(t.slot), t.batch, r);
  }

  /** A push keeps the order. */
  lemma PushKeepsOrder(s: WalState, limit: int, r: WriteRequest)
    requires CanPush(s, limit) && InOrder(s)
    ensures InOrder(AfterPush(s, limit, r))
  {
    PushStreamOrder(s, AfterPush(s, limit, r), r);
  }

  lemma SnocBalance(q: seq<WriteRequest>, b: seq<WriteRequest>, q': seq<WriteRequest>, b': seq<WriteRequest>, r: WriteRequest)
    requires q' + b' == q + b + [r]
    ensures multiset(q') + multiset(b') == multiset(q) + multiset(b) + multiset{r}
  {
    assert multiset(q' + b') == multiset(q + b + [r]);
  }

  /**
   * A flush empties the pending batch, writes it when it is non-empty and
   * nothing else, keeps the shape and the balance, and keeps the order when
   * nothing is queued or nothing was pending.
   */
  lemma FlushPreserves(s: WalState, limit: int)
    requires WellShaped(s, limit)
    ensures var t := AfterFlush(s);
      && t.batch == [] && t.slot == s.slot && t.pushed == s.pushed
      && Flatten(t.written) == Flatten(s.written) + s.batch
      && (|t.written| == |s.written| <==> s.batch == [])
      && WellShaped(t, limit)
      && (Conserved(s) ==> Conserved(t))
      && (InOrder(s) && (s.slot.None? || s.batch == []) ==> InOrder(t))
  {
    var t := AfterFlush(s);
    if s.batch != [] {
      assert t == WalState([], s.slot, s.written + [s.batch], s.pushed);
      assert forall i :: 0 <= i < |t.written| ==> t.written[i] != [] by {
        forall i | 0 <= i < |t.written| ensures t.written[i] != [] {
          if i < |s.written| { assert t.written[i] == s.written[i]; }
        }
      }
      assert multiset(Flatten(t.written)) == multiset(Flatten(s.written)) + multiset(s.batch);
      if s.slot.None? {
        assert Flatten(t.written) + Queued(t.slot) + t.batch == Flatten(s.written) + Queued(s.slot) + s.batch;
      }
    }
  }

  /** Writing the queued batch empties the slot, keeps the pending batch, the shape, the balance and the order. */
  lemma HandoffPreserves(s: WalState, limit: int)
    requires WellShaped(s, limit) && s.slot.Some?
    ensures var t := AfterHandoff(s);
      && t.batch == s.batch && t.slot.None? && t.pushed == s.pushed
      && Flatten(t.written) == Flatten(s.written) + s.slot.value
      && WellShaped(t, limit)
  {
    FlattenSnoc(s.written, s.slot.value);
  }

  /** Writing the queued batch keeps the balance and the order. */
  lemma HandoffConserves(s: WalState)
    requires s.slot.Some?
    ensures Conserved(s) ==> Conserved(AfterHandoff(s))
    ensures InOrder(s) ==> InOrder(AfterHandoff(s))
  {
    FlattenSnoc(s.written, s.slot.value);
  }

  /** Every iteration of the loop as written keeps the shape and loses no record from the state. */
  lemma StepPreserves(s: WalState, limit: int, e: Event)
    requires WellShaped(s, limit) && (e == Handoff ==> s.slot.Some?)
    ensures WellShaped(AfterStep(s, e), limit)
    ensures Conserved(s) ==> Conserved(AfterStep(s, e))
    ensures e != Handoff ==> AfterStep(s, e).slot == s.slot
  {
    if e == Handoff {
      HandoffPreserves(s, limit);
      HandoffConserves(s);
    } else {
      FlushPreserves(s, limit);
    }
  }

  /**
   * As written, the loop stops on shutdown with a queued batch still in the
   * slot: the records it holds are never written.
   */
  lemma ShutdownLosesQueuedBatch(s: WalState, limit: int)
    requires WellShaped(s, limit) && Conserved(s) && s.slot.Some?
    ensures |Flatten(AfterStep(s, Done).written)| < |s.pushed|
  {
    FlushPreserves(s, limit);
    assert |multiset(Flatten(s.written))| + |multiset(s.slot.value)| + |multiset(s.batch)| == |multiset(s.pushed)|;
  }

  /**
   * With the queued batch drained first, every iteration keeps the shape,
   * the balance and the order, and after shutdown every pushed record has
   * been written, in push order.
   */
  lemma StepDrainingPreserves(s: WalState, limit: int, e: Event)
    requires WellShaped(s, limit) && (e == Handoff ==> s.slot.Some?)
    ensures var t := AfterStepDraining(s, e);
      && WellShaped(t, limit)
      && (Conserved(s) ==> Conserved(t))
      && (InOrder(s) ==> InOrder(t))
      && (e != Handoff ==> t.slot.None? && t.batch == [])
      && (InOrder(s) && e == Done ==> Flatten(t.written) == s.pushed)
  {
    if e == Handoff {
      HandoffPreserves(s, limit);
      HandoffConserves(s);
    } else if s.slot.Some? {
      HandoffPreserves(s, limit);
      HandoffConserves(s);
      FlushPreserves(AfterHandoff(s), limit);
    } else {
      FlushPreserves(s, limit);
    }
  }

  /**
   * Size trigger: exactly `limit` pushes into an empty WAL hand one full
   * batch off, holding the records in push order, and write nothing yet; the
   * next handoff writes it.
   */
  lemma {:induction false} SizeTriggeredHandoff(records: seq<WriteRequest>, k: nat)
    requires 0 < k <= |records|
    ensures var t := AfterPushes(Initial(), |records|, records[..k]);
      && t.written == [] && t.pushed == records[..k]
      && (k < |records| ==> t.batch == records[..k] && t.slot.None?)
      && (k == |records| ==> t.batch == [] && t.slot == Some(records))
  {
    var prefix := records[..k];
    assert prefix[..k - 1] == records[..k - 1];
    assert records[..k - 1] + [records[k - 1]] == prefix;
    assert k == |records| ==> prefix == records;
    if k == 1 {
      assert records[..0] == [];
      assert [] + [records[0]] == prefix;
    } else {
      SizeTriggeredHandoff(records, k - 1);
    }
  }

  lemma SizeTriggeredFlush(records: seq<WriteRequest>)
    requires |records| > 0
    ensures var t := AfterPushes(Initial(), |records|, records);
      t.slot == Some(records) && AfterStep(t, Handoff).written == [records]
  {
    SizeTriggeredHandoff(records, |records|);
    assert records[..|records|] == records;
  }

  /** Time trigger: one push below the limit is written, alone, on the next tick. */
  lemma TimeTriggeredFlush(r: WriteRequest, limit: int)
    requires limit != 1
    ensures AfterStep(AfterPush(Initial(), limit, r), Tick).written == [[r]]
  {
    var s := AfterPush(Initial(), limit, r);
    assert Initial().batch + [r] == [r];
    assert s == WalState([r], None, [], [r]);
    assert AfterFlush(s) == WalState([], None, [[r]], [r]);
  }

  /**
   * As written, a tick that wins the select while a full batch is queued
   * writes the newer pending record before the older queued batch.
   */
  lemma TickOvertakesHandoff(r1: WriteRequest, r2: WriteRequest, r3: WriteRequest)
    ensures var s := AfterPush(AfterPush(AfterPush(Initial(), 2, r1), 2, r2), 2, r3);
      var t := AfterStep(AfterStep(s, Tick), Handoff);
      && InOrder(s)
      && t.written == [[r3], [r1, r2]]
      && (r1 != r3 ==> !InOrder(t))
  {
    var s3 := ThreePushes(r1, r2, r3);
    var t := TickThenHandoff(r1, r2, r3, s3);
    assert Flatten(t.written) + Queued(t.slot) + t.batch == [r3, r1, r2];
    assert r1 != r3 ==> [r3, r1, r2][0] != t.pushed[0];
  }

  /** From the state of ThreePushes, a tick and then a handoff write [r3] and then [r1, r2]. */
  lemma TickThenHandoff(r1: WriteRequest, r2: WriteRequest, r3: WriteRequest, s3: WalState) returns (t: WalState)
    requires s3 == WalState([r3], Some([r1, r2]), [], [r1, r2, r3])
    ensures t == AfterStep(AfterStep(s3, Tick), Handoff)
    ensures t == WalState([], None, [[r3], [r1, r2]], [r1, r2, r3])
    ensures Flatten(t.written) == [r3, r1, r2]
  {
    assert AfterStep(s3, Tick) == WalState([], Some([r1, r2]), [[r3]], [r1, r2, r3]);
    t := AfterStep(AfterStep(s3, Tick), Handoff);
    assert [[r3]] + [[r1, r2]] == [[r3], [r1, r2]];
    FlattenSnoc([[r3]], [r1, r2]);
    FlattenSnoc([], [r3]);
  }

  /** With the queued batch drained first, the same events write the records in push order. */
  lemma TickKeepsOrder(r1: WriteRequest, r2: WriteRequest, r3: WriteRequest)
    ensures var s := AfterPush(AfterPush(AfterPush(Initial(), 2, r1), 2, r2), 2, r3);
      AfterStepDraining(s, Tick).written == [[r1, r2], [r3]]
  {
    var s3 := ThreePushes(r1, r2, r3);
    assert AfterHandoff(s3) == WalState([r3], None, [[r1, r2]], [r1, r2, r3]);
    assert [[r1, r2]] + [[r3]] == [[r1, r2], [r3]];
  }

  /** Three pushes into an empty WAL with a limit of two: the first two are queued, the third is pending. */
  lemma ThreePushes(r1: WriteRequest, r2: WriteRequest, r3: WriteRequest) returns (s3: WalState)
    ensures s3 == AfterPush(AfterPush(AfterPush(Initial(), 2, r1), 2, r2), 2, r3)
    ensures s3 == WalState([r3], Some([r1, r2]), [], [r1, r2, r3])
  {
    var s1 := AfterPush(Initial(), 2, r1);
    assert [] + [r1] == [r1];
    assert s1 == WalState([r1], None, [], [r1]);
    var s2 := AfterPush(s1, 2, r2);
    assert [r1] + [r2] == [r1, r2];
    assert s2 == WalState([], Some([r1, r2]), [], [r1, r2]);
    s3 := AfterPush(s2, 2, r3);
    assert [r1, r2] + [r3] == [r1, r2, r3];
  }

  /** As written, shutdown with a full batch still queued writes nothing: the batch is dropped. */
  lemma ShutdownDropsHandedOffBatch(r: WriteRequest)
    ensures var t := AfterStep(AfterPush(Initial(), 1, r), Done);
      t.written == [] && t.slot == Some([r]) && t.pushed == [r]
  {
    OnePush(r);
  }

  /** With the queued batch drained first, shutdown writes every pushed record. */
  lemma ShutdownDrainsHandedOffBatch(r: WriteRequest)
    ensures AfterStepDraining(AfterPush(Initial(), 1, r), Done).written == [[r]]
  {
    OnePush(r);
  }

  /** One push into an empty WAL with a limit of one hands the record off at once. */
  lemma OnePush(r: WriteRequest)
    ensures AfterPush(Initial(), 1, r) == WalState([], Some([r]), [], [r])
  {
    assert [] + [r] == [r];
  }

  /**
   * A pusher blocked inside the lock: its record has joined the pending batch,
   * which is now full, and its send waits for the full slot to be received.
   */
  predicate Blocked(s: WalState, limit: int) {
    && s.slot.Some? && |s.slot.value| == limit > 0 && |s.batch| == limit
    && (forall i :: 0 <= i < |s.written| ==> s.written[i] != [])
  }

  /**
   * push when the size-triggered send finds the slot full: the record is
   * appended and the pusher blocks on the send while holding the lock.
   */
  function AfterBlockedPush(s: WalState, limit: int, r: WriteRequest): (t: WalState)
    requires WellShaped(s, limit) && !CanPush(s, limit)
    ensures Blocked(t, limit)
    ensures t.pushed == s.pushed + [r] && t.written == s.written
    ensures Queued(t.slot) + t.batch == Queued(s.slot) + s.batch + [r]
  {
    WalState(s.batch + [r], s.slot, s.written, s.pushed + [r])
  }

  /**
   * The blocked send completing once the loop has received the queued batch
   * and written it: the full batch takes the slot and the lock is released.
   */
  function Resumed(s: WalState, limit: int): (t: WalState)
    requires Blocked(s, limit)
    ensures WellShaped(t, limit) && t.pushed == s.pushed
    ensures Flatten(t.written) + Queued(t.slot) + t.batch == Flatten(s.written) + Queued(s.slot) + s.batch
  {
    FlattenSnoc(s.written, s.slot.value);
    WalState([], Some(s.batch), s.written + [s.slot.value], s.pushed)
  }

  /**
   * One iteration of the loop in Start, as written, while a pusher is
   * blocked: the handoff case receives and lets the send complete, whereas
   * flushBatch in the tick and shutdown cases waits for the lock that the
   * blocked pusher holds. None is that deadlock: the loop is the only
   * receiver, so neither side ever moves again.
   */
  function AfterBlockedStep(s: WalState, limit: int, e: Event): (t: Option<WalState>)
    requires Blocked(s, limit)
    ensures t.Some? ==> WellShaped(t.value, limit) && t.value.pushed == s.pushed
  {
    if e == Handoff then Some(Resumed(s, limit)) else None
  }

  /**
   * The corrected iteration while a pusher is blocked: the queued batch is
   * received and written before anything takes the lock, so the send
   * completes; a tick or shutdown then goes on as in AfterStepDraining.
   */
  function AfterBlockedStepDraining(s: WalState, limit: int, e: Event): (t: WalState)
    requires Blocked(s, limit)
    ensures WellShaped(t, limit) && t.pushed == s.pushed
    ensures Flatten(t.written) + Queued(t.slot) + t.batch == Flatten(s.written) + Queued(s.slot) + s.batch
  {
    var resumed := Resumed(s, limit);
    if e == Handoff then resumed else StepDrainingPreserves(resumed, limit, e); AfterStepDraining(resumed, e)
  }

  /** Equal unwritten streams with equal pushed records: balance and order carry over. */
  lemma SameStream(s: WalState, t: WalState)
    requires Flatten(t.written) + Queued(t.slot) + t.batch == Flatten(s.written) + Queued(s.slot) + s.batch
    requires t.pushed == s.pushed
    ensures Conserved(s) ==> Conserved(t)
    ensures InOrder(s) ==> InOrder(t)
  {
    assert multiset(Flatten(t.written) + Queued(t.slot) + t.batch) == multiset(Flatten(s.written) + Queued(s.slot) + s.batch);
  }

  /**
   * As written, a push that finds the slot full blocks holding the lock,
   * loses no record, and from then on only a handoff lets the loop go on:
   * a tick or shutdown that wins the select deadlocks.
   */
  lemma BlockedPushDeadlocks(s: WalState, limit: int, r: WriteRequest, e: Event)
    requires WellShaped(s, limit) && Conserved(s) && !CanPush(s, limit)
    ensures var t := AfterBlockedPush(s, limit, r);
      && Conserved(t)
      && (AfterBlockedStep(t, limit, e).Some? <==> e == Handoff)
      && (e == Handoff ==> Conserved(AfterBlockedStep(t, limit, e).value))
  {
    var t := AfterBlockedPush(s, limit, r);
    SnocBalance(Queued(s.slot), s.batch, Queued(t.slot), t.batch, r);
    if e == Handoff {
      SameStream(t, Resumed(t, limit));
    }
  }

  /** With a limit of one, a second push blocks on the first record's slot, and a tick then deadlocks. */
  lemma LimitOneDeadlock(r1: WriteRequest, r2: WriteRequest)
    ensures var s := AfterPush(Initial(), 1, r1);
      && WellShaped(s, 1) && !CanPush(s, 1)
      && AfterBlockedStep(AfterBlockedPush(s, 1, r2), 1, Tick).None?
  {
    OnePush(r1);
  }

  /**
   * With the queued batch received first, a blocked push never deadlocks the
   * loop: every event keeps the shape, the balance and the order, and after
   * shutdown every pushed record, the blocked one included, has been written.
   */
  lemma BlockedPushDrains(s: WalState, limit: int, r: WriteRequest, e: Event)
    requires WellShaped(s, limit) && !CanPush(s, limit)
    ensures var t := AfterBlockedStepDraining(AfterBlockedPush(s, limit, r), limit, e);
      && WellShaped(t, limit)
      && (Conserved(s) ==> Conserved(t))
      && (InOrder(s) ==> InOrder(t))
      && (e != Handoff ==> t.slot.None? && t.batch == [])
      && (InOrder(s) && e == Done ==> Flatten(t.written) == s.pushed + [r])
  {
    var b := AfterBlockedPush(s, limit, r);
    var t := AfterBlockedStepDraining(b, limit, e);
    SnocBalance(Queued(s.slot), s.batch, Queued(b.slot), b.batch, r);
    PushStreamOrder(s, b, r);
    SameStream(b, t);
    if e != Handoff {
      StepDrainingPreserves(Resumed(b, limit), limit, e);
    }
  }

  /** A push, blocked or not, keeps the order of the unwritten records. */
  lemma PushStreamOrder(s: WalState, b: WalState, r: WriteRequest)
    requires b.pushed == s.pushed + [r] && b.written == s.written
    requires Queued(b.slot) + b.batch == Queued(s.slot) + s.batch + [r]
    ensures InOrder(s) ==> InOrder(b)
  {
    var u := Queued(s.slot) + s.batch;
    assert Flatten(b.written) + Queued(b.slot) + b.batch == Flatten(s.written) + (u + [r]);
    assert Flatten(s.written) + (u + [r]) == (Flatten(s.written) + u) + [r];
  }

  /** A record whose argument count is the one its command takes. */
  predicate WellFormed(r: WriteRequest) {
    |r.args| == Compute.CommandArgumentsNumber(r.commandId)
  }

  function DelRequest(txId: int, key: string): (r: WriteRequest)
    ensures r.commandId == Compute.DelCommandID && r.args == [key] && WellFormed(r)
  {
    WriteRequest(txId, Compute.DelCommandID, [key])
  }

  /** The record WAL.Set builds as written: the DEL record of the key, with the value dropped. */
  function SetRequest(txId: int, key: string, value: string): (r: WriteRequest)
    ensures r == DelRequest(txId, key)
  {
    WriteRequest(txId, Compute.DelCommandID, [key])
  }

  /** The record WAL.Set evidently means to build: a SET of the key to the value. */
  function IntendedSetRequest(txId: int, key: string, value: string): (r: WriteRequest)
    ensures r.commandId == Compute.SetCommandID && r.args == [key, value] && WellFormed(r)
    ensures r != DelRequest(txId, key)
  {
    WriteRequest(txId, Compute.SetCommandID, [key, value])
  }

  /** As written, Set logs exactly the record Del logs, so replaying it deletes the key. */
  lemma SetIsLoggedAsDelete(txId: int, key: string, value: string)
    ensures SetRequest(txId, key, value) == DelRequest(txId, key)
    ensures SetRequest(txId, key, value).commandId != Compute.SetCommandID
    ensures SetRequest(txId, key, value) != IntendedSetRequest(txId, key, value)
  {
  }

  class WAL {
    const logsWriter: LogsWriter
    const logsReader: WalReader.LogsReader
    /** The flush period, in nanoseconds. */
    const flushTimeout: int
    const maxBatchSize: int

    /** The pending batch (nil in the source is the empty sequence). */
    var batch: seq<WriteRequest>
    /** The handoff channel of capacity 1: empty, or holding one full batch. */
    var batches: Option<seq<WriteRequest>>
    /** The batches handed to logsWriter.Write, in call order. */
    var written: seq<seq<WriteRequest>>
    /** Every record pushed so far, in push order. */
    ghost var pushed: seq<WriteRequest>

    ghost function Model(): WalState
      reads this
    {
      WalState(batch, batches, written, pushed)
    }

    ghost predicate Valid()
      reads this
    {
      WellShaped(Model(), maxBatchSize) && Conserved(Model())
    }

    constructor Init(writer: LogsWriter, reader: WalReader.LogsReader, flushTimeout: int, maxBatchSize: int)
      ensures Valid() && InOrder(Model()) && Model() == Initial()
      ensures logsWriter == writer && logsReader == reader
      ensures this.flushTimeout == flushTimeout && this.maxBatchSize == maxBatchSize
    {
      logsWriter := writer;
      logsReader := reader;
      this.flushTimeout := flushTimeout;
      this.maxBatchSize := maxBatchSize;
      batch := [];
      batches := None;
      written := [];
      pushed := [];
    }

    /** NewWAL: the writer is checked first, then the reader. */
    static method NewWAL(writer: Option<LogsWriter>, reader: Option<WalReader.LogsReader>,
                         flushTimeout: int, maxBatchSize: int) returns (r: Result<WAL, string>)
      ensures writer.None? ==> r == Failure("writer is invalid")
      ensures writer.Some? && reader.None? ==> r == Failure("reader is invalid")
      ensures writer.Some? && reader.Some? ==> r.Success? && fresh(r.value)
      ensures r.Success? ==>
        && r.value.Valid() && r.value.Model() == Initial()
        && r.value.logsWriter == writer.value && r.value.logsReader == reader.value
        && r.value.flushTimeout == flushTimeout && r.value.maxBatchSize == maxBatchSize
    {
      if writer.None? {
        return Failure("writer is invalid");
      }
      if reader.None? {
        return Failure("reader is invalid");
      }
      var w := new WAL.Init(writer.value, reader.value, flushTimeout, maxBatchSize);
      r := Success(w);
    }

    /** push: the new state is AfterPush of the old one (see PushPreserves). */
    method Push(txId: int, commandId: int, args: seq<string>) returns (record: WriteRequest)
      requires Valid() && CanPush(Model(), maxBatchSize)
      modifies this
      ensures Valid()
      ensures record == WriteRequest(txId, commandId, args)
      ensures Model() == AfterPush(old(Model()), maxBatchSize, record)
    {
      record := WriteRequest(txId, commandId, args);
      PushPreserves(Model(), maxBatchSize, record);
      PushConserves(Model(), maxBatchSize, record);
      batch := batch + [record];
      pushed := pushed + [record];
      if |batch| == maxBatchSize {
        batches := Some(batch);
        batch := [];
      }
    }

    /** Set, as written: it pushes a DEL record of the key (see SetIsLoggedAsDelete). */
    method Set(txId: int, key: string, value: string) returns (record: WriteRequest)
      requires Valid() && CanPush(Model(), maxBatchSize)
      modifies this
      ensures Valid()
      ensures record == SetRequest(txId, key, value)
      ensures Model() == AfterPush(old(Model()), maxBatchSize, record)
    {
      record := Push(txId, Compute.DelCommandID, [key]);
    }

    /** Set as evidently intended: it pushes a SET record of the key and value. */
    method SetIntended(txId: int, key: string, value: string) returns (record: WriteRequest)
      requires Valid() && CanPush(Model(), maxBatchSize)
      modifies this
      ensures Valid()
      ensures record == IntendedSetRequest(txId, key, value)
      ensures Model() == AfterPush(old(Model()), maxBatchSize, record)
    {
      record := Push(txId, Compute.SetCommandID, [key, value]);
    }

    method Del(txId: int, key: string) returns (record: WriteRequest)
      requires Valid() && CanPush(Model(), maxBatchSize)
      modifies this
      ensures Valid()
      ensures record == DelRequest(txId, key)
      ensures Model() == AfterPush(old(Model()), maxBatchSize, record)
    {
      record := Push(txId, Compute.DelCommandID, [key]);
    }

    /** flushBatch: swap the pending batch out for an empty one, then write it only if it is non-empty. */
    method FlushBatch()
      requires Valid()
      modifies this
      ensures Valid()
      ensures Model() == AfterFlush(old(Model()))
    {
      FlushPreserves(Model(), maxBatchSize);
      var swapped := batch;
      batch := [];
      if |swapped| != 0 {
        written := written + [swapped];
      }
    }

    /** Receive the queued batch and write it, as the flush loop's handoff case does. */
    method WriteHandedOff()
      requires Valid() && batches.Some?
      modifies this
      ensures Valid()
      ensures Model() == AfterHandoff(old(Model()))
    {
      HandoffPreserves(Model(), maxBatchSize);
      HandoffConserves(Model());
      var handedOff := batches.value;
      batches := None;
      written := written + [handedOff];
    }

    /**
     * One iteration of the loop in Start: on shutdown flush the pending batch
     * and stop; on a handoff write the queued batch; on a tick flush the pending batch.
     */
    method Step(event: Event) returns (stop: bool)
      requires Valid() && (event == Handoff ==> batches.Some?)
      modifies this
      ensures Valid()
      ensures stop <==> event == Done
      ensures Model() == AfterStep(old(Model()), event)
    {
      match event
      case Done =>
        FlushBatch();
        stop := true;
      case Handoff =>
        WriteHandedOff();
        stop := false;
      case Tick =>
        FlushBatch();
        stop := false;
    }

    /** The loop iteration with the queued batch written first on a tick and on shutdown. */
    method StepDraining(event: Event) returns (stop: bool)
      requires Valid() && (event == Handoff ==> batches.Some?)
      modifies this
      ensures Valid()
      ensures stop <==> event == Done
      ensures Model() == AfterStepDraining(old(Model()), event)
    {
      if event == Handoff {
        WriteHandedOff();
      } else {
        if batches.Some? {
          WriteHandedOff();
        }
        FlushBatch();
      }
      stop := event == Done;
    }
  }
}

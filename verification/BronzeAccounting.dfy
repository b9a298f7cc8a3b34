/**
 Counting what the writer ships. A process that never dies ships every polled message exactly
 once; a process that does may ship some again, but what is in the bucket and in the
 dead-letter topic, as sets, does not depend on it.
 */
module BronzeAccounting {
  import opened Base
  import opened Observations
  import Clock
  import opened BronzeProtocol

  ghost function AcceptedSerials(produced: seq<Message>): (r: set<nat>)
    ensures forall n: nat :: n in r <==> n < |produced| && Accepted(produced[n])
  {
    set n: nat | n in Below(|produced|) && Accepted(produced[n])
  }

  /** The identities of the contract-valid messages. */
  ghost function ValidIds(produced: seq<Message>): set<EventId> {
    set n: nat | n in AcceptedSerials(produced) :: produced[n].row.eventId
  }

  function RowTotal(objects: map<string, seq<Row>>, keys: seq<string>): nat
    requires forall k | k in keys :: k in objects
  {
    if keys == [] then 0
    else
      assert keys[|keys| - 1] in keys;
      RowTotal(objects, keys[..|keys| - 1]) + |objects[keys[|keys| - 1]]|
  }

  /** The contract-valid among these serials. */
  ghost function Chosen(produced: seq<Message>, serials: seq<nat>): set<nat> {
    set n | n in serials && n in AcceptedSerials(produced)
  }

  lemma ChosenSnoc(produced: seq<Message>, serials: seq<nat>)
    requires serials != [] && Within(serials, |produced|) && NoDup(serials)
    ensures var init, last := serials[..|serials| - 1], serials[|serials| - 1];
            && last !in Chosen(produced, init)
            && Chosen(produced, serials) == Chosen(produced, init) + if Accepted(produced[last]) then {last} else {}
  {
    var init, last := serials[..|serials| - 1], serials[|serials| - 1];
    assert serials == init + [last];
    assert last !in init;
  }

  lemma {:induction false} AcceptedRowsSize(produced: seq<Message>, serials: seq<nat>)
    requires Within(serials, |produced|) && NoDup(serials)
    ensures |AcceptedRows(produced, serials)| == |Chosen(produced, serials)|
  {
    if serials == [] {
      assert Chosen(produced, serials) == {};
    } else {
      AcceptedRowsSize(produced, serials[..|serials| - 1]);
      ChosenSnoc(produced, serials);
    }
  }

  lemma {:induction false} AcceptedRowsConcat(produced: seq<Message>, a: seq<nat>, b: seq<nat>)
    requires Within(a, |produced|) && Within(b, |produced|)
    ensures Within(a + b, |produced|)
    ensures AcceptedRows(produced, a + b) == AcceptedRows(produced, a) + AcceptedRows(produced, b)
  {
    if b == [] {
      assert a + b == a;
    } else {
      var init, last := b[..|b| - 1], b[|b| - 1];
      AcceptedRowsConcat(produced, a, init);
      assert (a + b)[..|a + b| - 1] == a + init;
    }
  }

  // ---- A process that never restarts ------------------------------------------------------

  /** Since the start, shipped messages are those below the floor, each once. */
  ghost predicate ShippedInv(s: Writer) {
    && NoDup(s.shipped) && Within(s.shipped, |s.produced|)
    && forall p, o: nat, n: nat | Holds(s.log, p, o, n) :: n in s.shipped <==> o < At(s.floor, p)
  }

  /** The batches in the bucket are those of this process, and hold what it shipped. */
  ghost predicate BatchesInv(s: Writer)
    requires Within(s.shipped, |s.produced|)
  {
    && NoDup(s.keys)
    && (forall k | k in s.keys :: k in s.objects)
    && (forall k | k in s.objects :: IsBatchKey(k) <==> k in s.keys)
    && RowTotal(s.objects, s.keys)
       == |AcceptedRows(s.produced, s.shipped)| + if s.phase.Buffering? then 0 else |s.records|
  }

  ghost predicate Account(s: Writer) {
    ShippedInv(s) && BatchesInv(s)
  }

  lemma {:induction false} RowTotalFrame(a: map<string, seq<Row>>, b: map<string, seq<Row>>, keys: seq<string>)
    requires forall k | k in keys :: k in a && k in b && a[k] == b[k]
    ensures RowTotal(a, keys) == RowTotal(b, keys)
  {
    if keys != [] {
      assert keys[|keys| - 1] in keys;
      RowTotalFrame(a, b, keys[..|keys| - 1]);
    }
  }

  lemma RowTotalSnoc(objects: map<string, seq<Row>>, keys: seq<string>, key: string)
    requires key in objects && forall k | k in keys :: k in objects
    ensures RowTotal(objects, keys + [key]) == RowTotal(objects, keys) + |objects[key]|
  {
    assert (keys + [key])[..|keys|] == keys;
  }

  lemma UploadKeepsBatches(s: Writer, t: Writer, key: string)
    requires Within(s.shipped, |s.produced|) && BatchesInv(s) && s.phase.Buffering?
    requires key !in s.objects && IsBatchKey(key)
    requires t.objects == s.objects[key := s.records] && t.keys == s.keys + [key]
    requires t.phase.Uploaded? && t.records == s.records && t.produced == s.produced && t.shipped == s.shipped
    ensures BatchesInv(t)
  {
    NoDupAppend(s.keys, key);
    RowTotalFrame(s.objects, t.objects, s.keys);
    RowTotalSnoc(t.objects, s.keys, key);
  }

  lemma UploadKeepsAccount(s: Writer, now: Clock.Utc, first: nat)
    requires Inv(s) && Account(s) && Enabled(s, Upload(now, first))
    ensures Account(Next(s, Upload(now, first)))
  {
    if s.records != [] {
      BatchKeyFormat(now, first);
      UploadIsFresh(s, now, first);
      UploadKeepsBatches(s, Next(s, Upload(now, first)), BatchKey(now, first));
    }
  }

  lemma ShippedNotPolled(s: Writer, n: nat)
    requires Inv(s) && ShippedInv(s) && n in s.shipped
    ensures n !in s.polled
  {
    assert Located(s.log, n);
    var p, o: nat :| Holds(s.log, p, o, n);
  }

  lemma NoDupConcat<T>(a: seq<T>, b: seq<T>)
    requires NoDup(a) && NoDup(b) && forall x | x in a :: x !in b
    ensures NoDup(a + b)
  {
    forall i, j | 0 <= i < j < |a + b|
      ensures (a + b)[i] != (a + b)[j]
    {
      if i < |a| <= j {
        assert a[i] in a && b[j - |a|] in b;
      }
    }
  }

  lemma ClearKeepsShipped(s: Writer)
    requires Inv(s) && ShippedInv(s) && Enabled(s, Clear)
    ensures ShippedInv(Next(s, Clear))
  {
    var t := Next(s, Clear);
    forall n | n in s.shipped
      ensures n !in s.polled
    {
      ShippedNotPolled(s, n);
    }
    NoDupConcat(s.shipped, s.polled);
    forall p, o: nat, n: nat | Holds(t.log, p, o, n)
      ensures n in t.shipped <==> o < At(t.floor, p)
    {
      assert Holds(s.log, p, o, n);
      assert n in t.shipped <==> n in s.shipped || n in s.polled;
    }
  }

  lemma ClearKeepsBatches(s: Writer)
    requires Within(s.shipped, |s.produced|) && Within(s.polled, |s.produced|)
    requires Within(s.shipped + s.polled, |s.produced|)
    requires s.phase.Committed? && BatchesInv(s) && s.records == AcceptedRows(s.produced, s.polled)
    ensures BatchesInv(Cleared(s))
  {
    AcceptedRowsConcat(s.produced, s.shipped, s.polled);
  }

  lemma ClearKeepsAccount(s: Writer)
    requires Inv(s) && Account(s) && Enabled(s, Clear)
    ensures Account(Next(s, Clear))
  {
    ClearKeepsShipped(s);
    ClearKeepsBatches(s);
  }

  lemma ProduceKeepsAccount(s: Writer, p: Partition, message: Message)
    requires Inv(s) && Account(s)
    ensures Account(Next(s, Produce(p, message)))
  {
    var t := Next(s, Produce(p, message));
    ProduceKeepsLog(s, p, message);
    AcceptedRowsExtend(s.produced, [message], s.shipped);
    forall q, o: nat, n: nat | Holds(t.log, q, o, n)
      ensures n in t.shipped <==> o < At(t.floor, q)
    {
      if !Holds(s.log, q, o, n) {
        assert n == |s.produced| && n !in s.shipped;
      }
    }
  }

  lemma StepKeepsAccount(s: Writer, step: Step)
    requires Inv(s) && Account(s) && Enabled(s, step) && !step.Restart?
    ensures Account(Next(s, step))
  {
    var t := Next(s, step);
    match step
    case Produce(p, message) => ProduceKeepsAccount(s, p, message);
    case Poll(p) =>
    case Upload(now, first) => UploadKeepsAccount(s, now, first);
    case Commit(_) =>
    case Clear => ClearKeepsAccount(s);
    case Put(key, rows) =>
      assert key !in s.keys;
      RowTotalFrame(s.objects, t.objects, s.keys);
  }

  ghost predicate NeverRestarts(steps: seq<Step>) {
    forall i | 0 <= i < |steps| :: !steps[i].Restart?
  }

  lemma {:induction false} RunKeepsAccount(s: Writer, steps: seq<Step>, end: Writer)
    requires Inv(s) && Account(s) && Behaviour(s, steps, end) && NeverRestarts(steps)
    ensures Inv(end) && Account(end)
    decreases |steps|
  {
    if steps != [] {
      StepKeepsInv(s, steps[0]);
      StepKeepsAccount(s, steps[0]);
      RunKeepsAccount(Next(s, steps[0]), steps[1..], end);
    }
  }

  // ---- Drained: every message was polled and flushed --------------------------------------

  ghost predicate Drained(s: Writer) {
    s.phase.Buffering? && forall p :: At(s.floor, p) == |Entries(s.log, p)|
  }

  /** A drained writer that never died shipped each contract-valid message exactly once. */
  lemma NoRestartShipsOnce(s: Writer, steps: seq<Step>, end: Writer)
    requires Init(s) && Behaviour(s, steps, end) && NeverRestarts(steps) && Drained(end)
    ensures NoDup(end.keys) && (forall k | k in end.keys :: k in end.objects)
    ensures forall k | k in end.objects :: IsBatchKey(k) <==> k in end.keys
    ensures RowTotal(end.objects, end.keys) == |AcceptedSerials(end.produced)|
  {
    InitInv(s);
    assert Account(s);
    RunKeepsAccount(s, steps, end);
    DrainedShipped(end);
    AcceptedRowsSize(end.produced, end.shipped);
  }

  lemma DrainedShipped(s: Writer)
    requires LogInv(s) && ShippedInv(s) && Drained(s)
    ensures Chosen(s.produced, s.shipped) == AcceptedSerials(s.produced)
  {
    forall n: nat | n < |s.produced|
      ensures n in s.shipped
    {
      assert Located(s.log, n);
      var p, o: nat :| Holds(s.log, p, o, n);
    }
  }

  /** With or without crashes, a drained writer has handed over exactly the invalid messages. */
  lemma DrainedDeadLetters(s: Writer)
    requires Reachable(s) && Drained(s)
    ensures forall n: nat :: n in s.dlq <==> n < |s.produced| && !Accepted(s.produced[n])
    ensures |s.dlq| == |s.produced| - |AcceptedSerials(s.produced)|
  {
    ReachableInv(s);
    forall n: nat | n < |s.produced|
      ensures n in s.dlq <==> !Accepted(s.produced[n])
    {
      assert Located(s.log, n);
      var p, o: nat :| Holds(s.log, p, o, n);
      assert Durable(s, n);
    }
    var all := Below(|s.produced|);
    assert s.dlq == all - AcceptedSerials(s.produced);
    assert AcceptedSerials(s.produced) <= all;
  }

  /** The identities in the uploaded batches. */
  ghost predicate InBatches(s: Writer, id: EventId) {
    exists k :: k in s.objects && IsBatchKey(k) && id in Ids(s.objects[k])
  }

  /** No batch ever holds an identity that is not a valid one of the log. */
  lemma BatchIdsAreValid(s: Writer, id: EventId)
    requires Reachable(s) && InBatches(s, id)
    ensures id in ValidIds(s.produced)
  {
    ReachableInv(s);
    var k :| k in s.objects && IsBatchKey(k) && id in Ids(s.objects[k]);
    var row :| row in s.objects[k] && row.eventId == id;
    assert ProducedRow(s, row);
    var n: nat :| n < |s.produced| && Accepted(s.produced[n]) && s.produced[n].row == row;
    assert n in AcceptedSerials(s.produced);
  }

  /** With or without crashes, a drained writer has uploaded every valid identity of the log. */
  lemma DrainedBatchIds(s: Writer, id: EventId)
    requires Reachable(s) && Drained(s) && id in ValidIds(s.produced)
    ensures InBatches(s, id)
  {
    ReachableInv(s);
    var n: nat :| n in AcceptedSerials(s.produced) && s.produced[n].row.eventId == id;
    assert Located(s.log, n);
    var p, o: nat :| Holds(s.log, p, o, n);
    assert Durable(s, n);
    var k :| k in s.objects && IsBatchKey(k) && s.produced[n].row in s.objects[k];
  }
}

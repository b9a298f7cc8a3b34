/**
 The Kafka-to-bronze writer as a protocol over runs: messages are produced and polled, batches
 are uploaded, then offsets are committed, then the buffer is cleared, and the process may die
 between any two of these steps and restart at the committed offsets.

 Messages carry serial numbers in the order the broker took them; a partition's log lists the
 serials it holds. `polled`, `floor`, `shipped`, `keys` and `instants` record history.
 */
module BronzeProtocol {
  import opened Base
  import opened Observations
  import opened Clock
  import opened Decimal
  import opened KeyFlattening

  datatype Partition = Partition(topic: string, number: nat)

  /** A message value that cannot be read as an event at all, or the event it decodes to. */
  datatype Message = Undecodable | Decoded(row: Row)

  predicate Accepted(m: Message) {
    m.Decoded? && Contract(m.row)
  }

  /** Buffering; after the upload; after the commit call returned. */
  datatype Phase = Buffering | Uploaded | Committed

  datatype Writer = Writer(
    // Broker and bucket
    produced: seq<Message>,
    log: map<Partition, seq<nat>>,
    committed: map<Partition, nat>,
    dlq: set<nat>,
    objects: map<string, seq<Row>>,
    // The process
    position: map<Partition, nat>,
    records: seq<Row>,
    pending: map<Partition, nat>,
    phase: Phase,
    // History
    polled: seq<nat>,            // serials polled since the last flush or restart
    floor: map<Partition, nat>,  // where polling stood then
    shipped: seq<nat>,           // serials flushed since the last restart
    keys: seq<string>,           // objects uploaded since the last restart
    instants: set<Utc>           // when batches were uploaded
  )

  function At(offsets: map<Partition, nat>, p: Partition): nat {
    if p in offsets then offsets[p] else 0
  }

  function Entries(log: map<Partition, seq<nat>>, p: Partition): seq<nat> {
    if p in log then log[p] else []
  }

  /** The message with serial n stands at offset o of partition p. */
  ghost predicate Holds(log: map<Partition, seq<nat>>, p: Partition, o: nat, n: nat) {
    o < |Entries(log, p)| && Entries(log, p)[o] == n
  }

  ghost predicate Located(log: map<Partition, seq<nat>>, n: nat) {
    exists p, o: nat :: Holds(log, p, o, n)
  }

  predicate Within(serials: seq<nat>, bound: nat) {
    forall i | 0 <= i < |serials| :: serials[i] < bound
  }

  /** The rows of the contract-valid messages among these serials, in their order. */
  function AcceptedRows(produced: seq<Message>, serials: seq<nat>): seq<Row>
    requires Within(serials, |produced|)
  {
    if serials == [] then []
    else
      var init, last := serials[..|serials| - 1], serials[|serials| - 1];
      AcceptedRows(produced, init) + if Accepted(produced[last]) then [produced[last].row] else []
  }

  // ---- Object names ---------------------------------------------------------------------

  const BATCH_PREFIX := "bronze/traffic_observations/"

  function BatchKey(now: Utc, first: nat): string
    requires Valid(now)
  {
    BATCH_PREFIX + "ingest_date=" + Date(now) + "/hour=" + Padded(now.hour, 2)
    + "/batch-" + MicroStamp(now) + "-" + Render(first) + ".parquet"
  }

  /** The key is one the writer can have built. */
  ghost predicate IsBatchKey(key: string) {
    exists t, f :: Valid(t) && key == BatchKey(t, f)
  }

  lemma BatchKeyFormat(now: Utc, first: nat)
    requires Valid(now)
    ensures IsBatchKey(BatchKey(now, first)) && BATCH_PREFIX <= BatchKey(now, first)
    ensures |BatchKey(now, first)| >= 87 && BatchKey(now, first)[65..87] == MicroStamp(now)
    ensures BatchKey(now, first)[50..56] == "/hour="
  {
    var head := BATCH_PREFIX + "ingest_date=" + Date(now) + "/hour=" + Padded(now.hour, 2) + "/batch-";
    assert |head| == 65;
    var tail := "-" + Render(first) + ".parquet";
    assert BatchKey(now, first) == head + MicroStamp(now) + tail;
    var start := BATCH_PREFIX + "ingest_date=" + Date(now);
    assert |start| == 50 && head == start + "/hour=" + Padded(now.hour, 2) + "/batch-";
  }

  /** A batch key tells the day and hour of its upload, the instant, and the first offset. */
  lemma BatchKeyReads(now: Utc, first: nat)
    requires Valid(now)
    ensures var key := BatchKey(now, first);
            && |key| > 96 && ShowsDay(key, 40, now) && Shows(key, 56, 58, now.hour)
            && key[65..87] == MicroStamp(now) && Shows(key, 88, |key| - 8, first)
  {
    var key := BatchKey(now, first);
    BatchKeyFormat(now, first);
    Powers();
    BatchKeyParts(now, first);
    DayShown(key, 40, now);
    Field(key, 56, 58, now.hour);
    RenderValue(first);
  }

  lemma BatchKeyParts(now: Utc, first: nat)
    requires Valid(now)
    ensures var key := BatchKey(now, first);
            && |key| == 96 + |Render(first)| && key[40..50] == Date(now) && key[56..58] == Padded(now.hour, 2)
            && key[88..|key| - 8] == Render(first)
  {
    var head := BATCH_PREFIX + "ingest_date=" + Date(now) + "/hour=" + Padded(now.hour, 2);
    assert |head| == 58 && head[40..50] == Date(now) && head[56..58] == Padded(now.hour, 2);
    BatchKeyEnds(head, MicroStamp(now), Render(first));
  }

  lemma BatchKeyEnds(head: string, stamp: string, number: string)
    requires |head| == 58 && |stamp| == 22
    ensures var key := head + "/batch-" + stamp + "-" + number + ".parquet";
            && |key| == 96 + |number| && key[40..50] == head[40..50] && key[56..58] == head[56..58]
            && key[88..|key| - 8] == number
  {
  }

  /** Objects with another prefix are no batches. */
  lemma OtherPrefix(key: string)
    ensures IsBatchKey(key) ==> BATCH_PREFIX <= key
  {
    if IsBatchKey(key) {
      var t, f :| Valid(t) && key == BatchKey(t, f);
      BatchKeyFormat(t, f);
    }
  }

  /** Batches uploaded at different microseconds never share a key. */
  lemma BatchKeyInstant(a: Utc, i: nat, b: Utc, j: nat)
    requires Valid(a) && Valid(b) && BatchKey(a, i) == BatchKey(b, j)
    ensures a == b
  {
    BatchKeyFormat(a, i);
    BatchKeyFormat(b, j);
    MicroStampInjective(a, b);
  }

  lemma PrefixClean()
    ensures Clean(BATCH_PREFIX + "ingest_date=")
  {
    var a, b, c := "bronze/traffic", "observations/ingest", "date=";
    CleanPlain(a);
    CleanPlain(b);
    CleanPlain(c);
    CleanJoin(a, b);
    CleanJoin(a + "_" + b, c);
    PrefixWords();
  }

  lemma PrefixWords()
    ensures BATCH_PREFIX + "ingest_date=" == "bronze/traffic" + "_" + "observations/ingest" + "_" + "date="
  {
  }

  function BatchKeyTail(now: Utc, first: nat): string
    requires Valid(now)
  {
    Date(now) + "/hour=" + Padded(now.hour, 2) + "/batch-" + MicroStamp(now) + "-" + Render(first) + ".parquet"
  }

  lemma BatchKeyTailPlain(now: Utc, first: nat)
    requires Valid(now)
    ensures Plain(BatchKeyTail(now, first))
  {
    var a := Date(now) + "/hour=" + Padded(now.hour, 2);
    assert Plain(a) by {
      PlainConcat(Date(now), "/hour=");
      PlainConcat(Date(now) + "/hour=", Padded(now.hour, 2));
    }
    PlainConcat(a, "/batch-");
    PlainConcat(a + "/batch-", MicroStamp(now));
    PlainConcat(a + "/batch-" + MicroStamp(now), "-");
    PlainConcat(a + "/batch-" + MicroStamp(now) + "-", Render(first));
    PlainConcat(a + "/batch-" + MicroStamp(now) + "-" + Render(first), ".parquet");
  }

  /** The only underscores of a batch key stand inside words. */
  lemma BatchKeyClean(now: Utc, first: nat)
    requires Valid(now)
    ensures Clean(BatchKey(now, first))
  {
    PrefixClean();
    BatchKeyTailPlain(now, first);
    CleanPlain(BatchKeyTail(now, first));
    CleanConcat(BATCH_PREFIX + "ingest_date=", BatchKeyTail(now, first));
    assert BatchKey(now, first) == BATCH_PREFIX + "ingest_date=" + BatchKeyTail(now, first);
  }

  // ---- Steps ----------------------------------------------------------------------------

  datatype Step =
    | Produce(p: Partition, message: Message)
    | Poll(p: Partition)
    | Upload(now: Utc, first: nat)
    | Commit(applied: set<Partition>)  // the broker may take the offsets of some partitions only
    | Clear
    | Restart
    | Put(key: string, rows: seq<Row>) // another process stores or replaces an object

  /** The least last-polled offset over the partitions of the batch. */
  ghost predicate IsFirstOffset(pending: map<Partition, nat>, first: nat) {
    && (exists p :: p in pending && pending[p] == first + 1)
    && forall p | p in pending :: first + 1 <= pending[p]
  }

  ghost predicate Enabled(s: Writer, step: Step) {
    match step
    case Produce(_, _) => true
    case Poll(p) => s.phase.Buffering? && At(s.position, p) < |Entries(s.log, p)|
    case Upload(now, first) =>
      && s.phase.Buffering? && s.pending != map[]
      && (s.records != [] ==> Valid(now) && now !in s.instants && IsFirstOffset(s.pending, first))
    case Commit(applied) => s.phase.Uploaded? && applied <= s.pending.Keys
    case Clear => s.phase.Committed?
    case Restart => true
    case Put(key, _) => !IsBatchKey(key)
  }

  function Max(a: int, b: int): int {
    if a >= b then a else b
  }

  /** The next offset to commit for a partition never falls. */
  function Tracked(pending: map<Partition, nat>, p: Partition, offset: nat): map<Partition, nat> {
    pending[p := Max(if p in pending then pending[p] else -1, offset + 1)]
  }

  function CommitOffsets(committed: map<Partition, nat>, pending: map<Partition, nat>,
                         applied: set<Partition>): map<Partition, nat>
    requires applied <= pending.Keys
  {
    map p | p in committed.Keys + applied :: if p in applied then pending[p] else committed[p]
  }

  ghost predicate Sane(s: Writer) {
    forall p :: Within(Entries(s.log, p), |s.produced|)
  }

  function Polled(s: Writer, p: Partition): Writer
    requires At(s.position, p) < |Entries(s.log, p)|
    requires Entries(s.log, p)[At(s.position, p)] < |s.produced|
  {
    var offset := At(s.position, p);
    var n := Entries(s.log, p)[offset];
    var message := s.produced[n];
    s.(position := s.position[p := offset + 1],
       pending := Tracked(s.pending, p, offset),
       records := if Accepted(message) then s.records + [message.row] else s.records,
       dlq := if Accepted(message) then s.dlq else s.dlq + {n},
       polled := s.polled + [n])
  }

  function Stored(s: Writer, now: Utc, first: nat): Writer
    requires s.records != [] ==> Valid(now)
  {
    if s.records == [] then s.(phase := Uploaded)
    else
      s.(objects := s.objects[BatchKey(now, first) := s.records],
         keys := s.keys + [BatchKey(now, first)],
         instants := s.instants + {now},
         phase := Uploaded)
  }

  function Cleared(s: Writer): Writer {
    s.(records := [], pending := map[], phase := Buffering,
       shipped := s.shipped + s.polled, polled := [], floor := s.position)
  }

  /** What a new process finds: nothing buffered, polling resumes at the committed offsets. */
  function Restarted(s: Writer): Writer {
    s.(position := s.committed, records := [], pending := map[], phase := Buffering,
       polled := [], floor := s.committed, shipped := [], keys := [])
  }

  ghost function Next(s: Writer, step: Step): Writer
    requires Sane(s) && Enabled(s, step)
  {
    match step
    case Produce(p, message) =>
      s.(produced := s.produced + [message], log := s.log[p := Entries(s.log, p) + [|s.produced|]])
    case Poll(p) => Polled(s, p)
    case Upload(now, first) => Stored(s, now, first)
    case Commit(applied) => s.(committed := CommitOffsets(s.committed, s.pending, applied), phase := Committed)
    case Clear => Cleared(s)
    case Restart => Restarted(s)
    case Put(key, rows) => s.(objects := s.objects[key := rows])
  }

  predicate Init(s: Writer) {
    s == Writer([], map[], map[], {}, map[], map[], [], map[], Buffering, [], map[], [], [], {})
  }

  ghost predicate Behaviour(s: Writer, steps: seq<Step>, end: Writer)
    decreases |steps|
  {
    if steps == [] then s == end
    else Sane(s) && Enabled(s, steps[0]) && Behaviour(Next(s, steps[0]), steps[1..], end)
  }

  // ---- The invariant --------------------------------------------------------------------

  /** Every message is in exactly one place of one partition. */
  ghost predicate LogInv(s: Writer) {
    && Sane(s)
    && (forall p, q, i: nat, j: nat, n: nat | Holds(s.log, p, i, n) && Holds(s.log, q, j, n) :: p == q && i == j)
    && forall n: nat | n < |s.produced| :: Located(s.log, n)
  }

  ghost predicate OffsetsInv(s: Writer) {
    && (forall p :: At(s.floor, p) <= At(s.position, p) <= |Entries(s.log, p)|)
    && (forall p :: At(s.committed, p) <= At(s.position, p))
    && (s.phase.Buffering? ==> forall p :: At(s.committed, p) <= At(s.floor, p))
    && (forall p :: p in s.pending <==> At(s.floor, p) < At(s.position, p))
    && (forall p | p in s.pending :: s.pending[p] == At(s.position, p))
  }

  /** The volatile buffer is exactly the accepted messages polled since the floor. */
  ghost predicate BufferInv(s: Writer) {
    && NoDup(s.polled)
    && Within(s.polled, |s.produced|)
    && (forall p, o: nat, n: nat | Holds(s.log, p, o, n) :: n in s.polled <==> At(s.floor, p) <= o < At(s.position, p))
    && s.records == AcceptedRows(s.produced, s.polled)
    && (forall n | n in s.polled && !Accepted(s.produced[n]) :: n in s.dlq)
  }

  /** The message is in an uploaded batch, or was handed to the dead-letter producer. */
  ghost predicate Durable(s: Writer, n: nat)
    requires n < |s.produced|
  {
    if Accepted(s.produced[n])
    then exists k :: k in s.objects && IsBatchKey(k) && s.produced[n].row in s.objects[k]
    else n in s.dlq
  }

  /** How far a partition's messages are durable. */
  ghost function Safe(s: Writer, p: Partition): nat {
    if s.phase.Buffering? then At(s.floor, p) else At(s.position, p)
  }

  ghost predicate DurableInv(s: Writer)
    requires Sane(s)
  {
    forall p, o: nat, n: nat | Holds(s.log, p, o, n) && o < Safe(s, p) :: Durable(s, n)
  }

  ghost predicate ProducedRow(s: Writer, row: Row) {
    exists n: nat :: n < |s.produced| && Accepted(s.produced[n]) && s.produced[n].row == row
  }

  ghost predicate KeyInv(instants: set<Utc>, k: string) {
    IsBatchKey(k) ==> exists t, f :: t in instants && Valid(t) && k == BatchKey(t, f)
  }

  ghost predicate StoreInv(s: Writer) {
    && (forall k | k in s.objects :: KeyInv(s.instants, k))
    && (forall k, row | k in s.objects && IsBatchKey(k) && row in s.objects[k] :: ProducedRow(s, row))
    && (forall n | n in s.dlq :: n < |s.produced| && !Accepted(s.produced[n]))
  }

  ghost predicate Inv(s: Writer) {
    LogInv(s) && OffsetsInv(s) && BufferInv(s) && DurableInv(s) && StoreInv(s)
  }

  lemma InitInv(s: Writer)
    requires Init(s)
    ensures Inv(s)
  {
  }

  lemma {:induction false} AcceptedRowsExtend(produced: seq<Message>, more: seq<Message>, serials: seq<nat>)
    requires Within(serials, |produced|)
    ensures AcceptedRows(produced + more, serials) == AcceptedRows(produced, serials)
  {
    if serials != [] {
      AcceptedRowsExtend(produced, more, serials[..|serials| - 1]);
    }
  }

  lemma {:induction false} AcceptedRowsMember(produced: seq<Message>, serials: seq<nat>, n: nat)
    requires Within(serials, |produced|)
    requires n in serials && Accepted(produced[n])
    ensures produced[n].row in AcceptedRows(produced, serials)
  {
    var init, last := serials[..|serials| - 1], serials[|serials| - 1];
    if n != last {
      assert n in init;
      AcceptedRowsMember(produced, init, n);
    }
  }

  lemma {:induction false} AcceptedRowsOrigin(produced: seq<Message>, serials: seq<nat>, row: Row) returns (n: nat)
    requires Within(serials, |produced|)
    requires row in AcceptedRows(produced, serials)
    ensures n in serials && Accepted(produced[n]) && produced[n].row == row
  {
    var init, last := serials[..|serials| - 1], serials[|serials| - 1];
    if Accepted(produced[last]) && produced[last].row == row {
      n := last;
    } else {
      n := AcceptedRowsOrigin(produced, init, row);
    }
  }

  /** The second log holds one more serial, n, at the end of partition p. */
  ghost predicate Extends(a: map<Partition, seq<nat>>, b: map<Partition, seq<nat>>, p: Partition, n: nat) {
    && (forall q, o: nat, m: nat :: Holds(b, q, o, m) <==>
          Holds(a, q, o, m) || (q == p && o == |Entries(a, p)| && m == n))
    && forall q :: |Entries(a, q)| <= |Entries(b, q)|
  }

  lemma ProduceExtends(s: Writer, p: Partition, message: Message)
    requires Sane(s)
    ensures Extends(s.log, Next(s, Produce(p, message)).log, p, |s.produced|) && Sane(Next(s, Produce(p, message)))
  {
    var t := Next(s, Produce(p, message));
    assert Entries(t.log, p) == Entries(s.log, p) + [|s.produced|];
    assert forall q | q != p :: Entries(t.log, q) == Entries(s.log, q);
    forall q
      ensures Within(Entries(t.log, q), |t.produced|)
    {
      assert Within(Entries(s.log, q), |s.produced|);
    }
  }

  lemma HeldBelow(s: Writer, p: Partition, o: nat, n: nat)
    requires Sane(s) && Holds(s.log, p, o, n)
    ensures n < |s.produced|
  {
    assert Within(Entries(s.log, p), |s.produced|);
  }

  lemma ProduceKeepsLog(s: Writer, p: Partition, message: Message)
    requires LogInv(s)
    ensures LogInv(Next(s, Produce(p, message)))
  {
    var t, serial := Next(s, Produce(p, message)), |s.produced|;
    ProduceExtends(s, p, message);
    forall q, r, i: nat, j: nat, n: nat | Holds(t.log, q, i, n) && Holds(t.log, r, j, n)
      ensures q == r && i == j
    {
      if Holds(s.log, q, i, n) {
        HeldBelow(s, q, i, n);
      }
      if Holds(s.log, r, j, n) {
        HeldBelow(s, r, j, n);
      }
    }
    forall n: nat | n < |t.produced|
      ensures Located(t.log, n)
    {
      if n < serial {
        assert Located(s.log, n);
        var q, o: nat :| Holds(s.log, q, o, n);
        assert Holds(t.log, q, o, n);
      } else {
        assert Holds(t.log, p, |Entries(s.log, p)|, n);
      }
    }
  }

  lemma ProduceKeepsOffsets(s: Writer, p: Partition, message: Message)
    requires Sane(s) && OffsetsInv(s)
    ensures OffsetsInv(Next(s, Produce(p, message)))
  {
    ProduceExtends(s, p, message);
  }

  lemma ProduceKeepsBuffer(s: Writer, p: Partition, message: Message)
    requires Sane(s) && OffsetsInv(s) && BufferInv(s)
    ensures BufferInv(Next(s, Produce(p, message)))
  {
    var t := Next(s, Produce(p, message));
    ProduceExtends(s, p, message);
    AcceptedRowsExtend(s.produced, [message], s.polled);
    forall q, o: nat, n: nat | Holds(t.log, q, o, n)
      ensures n in t.polled <==> At(t.floor, q) <= o < At(t.position, q)
    {
      if !Holds(s.log, q, o, n) {
        assert At(s.position, q) <= |Entries(s.log, q)| == o;
      }
    }
  }

  lemma ProduceKeepsDurable(s: Writer, p: Partition, message: Message)
    requires Sane(s) && OffsetsInv(s) && DurableInv(s)
    ensures Sane(Next(s, Produce(p, message))) && DurableInv(Next(s, Produce(p, message)))
  {
    var t := Next(s, Produce(p, message));
    ProduceExtends(s, p, message);
    forall q, o: nat, n: nat | Holds(t.log, q, o, n) && o < Safe(t, q)
      ensures Durable(t, n)
    {
      assert Safe(t, q) == Safe(s, q) <= |Entries(s.log, q)|;
      assert Holds(s.log, q, o, n);
      HeldBelow(s, q, o, n);
      assert Durable(s, n);
    }
  }

  lemma ProduceKeepsStore(s: Writer, p: Partition, message: Message)
    requires Sane(s) && StoreInv(s)
    ensures StoreInv(Next(s, Produce(p, message)))
  {
    var t := Next(s, Produce(p, message));
    forall k, row | k in t.objects && IsBatchKey(k) && row in t.objects[k]
      ensures ProducedRow(t, row)
    {
      assert ProducedRow(s, row);
      var n: nat :| n < |s.produced| && Accepted(s.produced[n]) && s.produced[n].row == row;
      assert t.produced[n] == s.produced[n];
    }
  }

  lemma ProduceKeepsInv(s: Writer, p: Partition, message: Message)
    requires Inv(s)
    ensures Inv(Next(s, Produce(p, message)))
  {
    ProduceKeepsLog(s, p, message);
    ProduceKeepsOffsets(s, p, message);
    ProduceKeepsBuffer(s, p, message);
    ProduceKeepsDurable(s, p, message);
    ProduceKeepsStore(s, p, message);
  }

  lemma PollMoves(s: Writer, p: Partition)
    requires Sane(s) && (p in s.pending ==> s.pending[p] == At(s.position, p)) && Enabled(s, Poll(p))
    ensures var t, offset := Next(s, Poll(p)), At(s.position, p);
            && t.position == s.position[p := offset + 1] && t.pending == s.pending[p := offset + 1]
            && t.floor == s.floor && t.committed == s.committed && t.log == s.log && t.phase == s.phase
  {
  }

  lemma PollKeepsOffsets(s: Writer, p: Partition)
    requires Sane(s) && OffsetsInv(s) && Enabled(s, Poll(p))
    ensures OffsetsInv(Next(s, Poll(p)))
  {
    PollMoves(s, p);
    OffsetsMove(s, Next(s, Poll(p)), p);
  }

  lemma OffsetsMove(s: Writer, t: Writer, p: Partition)
    requires OffsetsInv(s) && s.phase.Buffering? && At(s.position, p) < |Entries(s.log, p)|
    requires t.position == s.position[p := At(s.position, p) + 1] && t.pending == s.pending[p := At(s.position, p) + 1]
    requires t.floor == s.floor && t.committed == s.committed && t.log == s.log && t.phase == s.phase
    ensures OffsetsInv(t)
  {
    forall q
      ensures At(t.position, q) == if q == p then At(s.position, p) + 1 else At(s.position, q)
    {
    }
  }

  /** The message polled next stands at one place only, and was not polled since the floor. */
  lemma PollIsNew(s: Writer, p: Partition)
    requires LogInv(s) && BufferInv(s) && Enabled(s, Poll(p))
    ensures var offset := At(s.position, p);
            var n := Entries(s.log, p)[offset];
            && n !in s.polled && n < |s.produced|
            && forall q, o: nat :: Holds(s.log, q, o, n) <==> q == p && o == offset
  {
    var offset := At(s.position, p);
    var n := Entries(s.log, p)[offset];
    assert Holds(s.log, p, offset, n);
    HeldBelow(s, p, offset, n);
  }

  lemma PollKeepsWindow(s: Writer, p: Partition)
    requires LogInv(s) && OffsetsInv(s) && BufferInv(s) && Enabled(s, Poll(p))
    ensures var t := Next(s, Poll(p));
            && NoDup(t.polled)
            && forall q, o: nat, m: nat | Holds(t.log, q, o, m) ::
                 m in t.polled <==> At(t.floor, q) <= o < At(t.position, q)
  {
    var t, offset := Next(s, Poll(p)), At(s.position, p);
    var n := Entries(s.log, p)[offset];
    PollIsNew(s, p);
    NoDupAppend(s.polled, n);
    forall q, o: nat, m: nat | Holds(t.log, q, o, m)
      ensures m in t.polled <==> At(t.floor, q) <= o < At(t.position, q)
    {
      assert Holds(s.log, q, o, m);
      assert m in t.polled <==> m in s.polled || m == n;
      assert At(t.position, q) == if q == p then offset + 1 else At(s.position, q);
    }
  }

  lemma PollKeepsRecords(s: Writer, p: Partition)
    requires Sane(s) && BufferInv(s) && Enabled(s, Poll(p))
    ensures var t := Next(s, Poll(p));
            && Within(t.polled, |t.produced|) && t.records == AcceptedRows(t.produced, t.polled)
            && forall n | n in t.polled && !Accepted(t.produced[n]) :: n in t.dlq
  {
    var t := Next(s, Poll(p));
    assert Within(Entries(s.log, p), |s.produced|);
    assert t.polled[..|t.polled| - 1] == s.polled;
  }

  lemma PollKeepsBuffer(s: Writer, p: Partition)
    requires LogInv(s) && OffsetsInv(s) && BufferInv(s) && Enabled(s, Poll(p))
    ensures BufferInv(Next(s, Poll(p)))
  {
    PollKeepsWindow(s, p);
    PollKeepsRecords(s, p);
  }

  lemma PollKeepsDurable(s: Writer, p: Partition)
    requires Sane(s) && DurableInv(s) && Enabled(s, Poll(p))
    ensures DurableInv(Next(s, Poll(p)))
  {
    var t := Next(s, Poll(p));
    forall q, o: nat, n: nat | Holds(t.log, q, o, n) && o < Safe(t, q)
      ensures Durable(t, n)
    {
      assert Holds(s.log, q, o, n) && Durable(s, n);
    }
  }

  lemma PollKeepsStore(s: Writer, p: Partition)
    requires Sane(s) && StoreInv(s) && Enabled(s, Poll(p))
    ensures StoreInv(Next(s, Poll(p)))
  {
    var t := Next(s, Poll(p));
    assert Within(Entries(s.log, p), |s.produced|);
    assert forall row :: ProducedRow(s, row) ==> ProducedRow(t, row);
  }

  lemma PollKeepsInv(s: Writer, p: Partition)
    requires Inv(s) && Enabled(s, Poll(p))
    ensures Inv(Next(s, Poll(p)))
  {
    PollKeepsOffsets(s, p);
    PollKeepsBuffer(s, p);
    PollKeepsDurable(s, p);
    PollKeepsStore(s, p);
    LogStays(s, Next(s, Poll(p)));
  }

  /** What is said of the log depends on the log alone. */
  lemma LogStays(s: Writer, t: Writer)
    requires LogInv(s) && t.log == s.log && t.produced == s.produced
    ensures LogInv(t)
  {
  }

  /** A new batch overwrites nothing. */
  lemma UploadIsFresh(s: Writer, now: Utc, first: nat)
    requires StoreInv(s) && Valid(now) && now !in s.instants
    ensures BatchKey(now, first) !in s.objects
  {
    var key := BatchKey(now, first);
    if key in s.objects {
      BatchKeyFormat(now, first);
      assert KeyInv(s.instants, key);
      var t, f :| t in s.instants && Valid(t) && key == BatchKey(t, f);
      BatchKeyInstant(now, first, t, f);
      assert false;
    }
  }

  lemma UploadKeepsStore(s: Writer, now: Utc, first: nat)
    requires Inv(s) && Enabled(s, Upload(now, first)) && s.records != []
    ensures StoreInv(Next(s, Upload(now, first)))
  {
    var t := Next(s, Upload(now, first));
    var key := BatchKey(now, first);
    BatchKeyClean(now, first);
    forall k | k in t.objects
      ensures KeyInv(t.instants, k)
    {
      if k == key {
        assert now in t.instants && Valid(now) && k == BatchKey(now, first);
      } else {
        assert KeyInv(s.instants, k);
      }
    }
    forall k, row | k in t.objects && IsBatchKey(k) && row in t.objects[k]
      ensures ProducedRow(t, row)
    {
      if k == key {
        var n := AcceptedRowsOrigin(s.produced, s.polled, row);
      } else {
        assert ProducedRow(s, row);
      }
    }
  }

  /** Batches and dead letters of s are still there in t. */
  ghost predicate Retains(s: Writer, t: Writer) {
    && t.produced == s.produced && s.dlq <= t.dlq
    && forall k | k in s.objects && IsBatchKey(k) :: k in t.objects && t.objects[k] == s.objects[k]
  }

  lemma DurableStays(s: Writer, t: Writer, n: nat)
    requires Retains(s, t) && n < |s.produced| && Durable(s, n)
    ensures Durable(t, n)
  {
    if Accepted(s.produced[n]) {
      var k :| k in s.objects && IsBatchKey(k) && s.produced[n].row in s.objects[k];
      assert k in t.objects && s.produced[n].row in t.objects[k];
    }
  }

  /** An upload makes the whole buffer durable. */
  lemma UploadMakesDurable(s: Writer, now: Utc, first: nat, n: nat)
    requires BufferInv(s) && Enabled(s, Upload(now, first)) && n in s.polled
    ensures Durable(Stored(s, now, first), n)
  {
    if Accepted(s.produced[n]) {
      AcceptedRowsMember(s.produced, s.polled, n);
      StoredBatch(s, now, first);
    }
  }

  lemma StoredBatch(s: Writer, now: Utc, first: nat)
    requires s.records != [] && Valid(now)
    ensures var key, t := BatchKey(now, first), Stored(s, now, first);
            IsBatchKey(key) && key in t.objects && t.objects[key] == s.records
  {
    BatchKeyFormat(now, first);
  }

  lemma UploadRetains(s: Writer, now: Utc, first: nat)
    requires StoreInv(s) && Enabled(s, Upload(now, first))
    ensures Retains(s, Stored(s, now, first))
  {
    if s.records != [] {
      UploadIsFresh(s, now, first);
    }
  }

  lemma UploadKeepsDurable(s: Writer, now: Utc, first: nat)
    requires LogInv(s) && OffsetsInv(s) && BufferInv(s) && DurableInv(s) && StoreInv(s)
    requires Enabled(s, Upload(now, first))
    ensures Sane(Next(s, Upload(now, first))) && DurableInv(Next(s, Upload(now, first)))
  {
    var t := Stored(s, now, first);
    UploadRetains(s, now, first);
    forall p, o: nat, n: nat | Holds(t.log, p, o, n) && o < Safe(t, p)
      ensures Durable(t, n)
    {
      assert Holds(s.log, p, o, n);
      HeldBelow(s, p, o, n);
      if o < At(s.floor, p) {
        DurableStays(s, t, n);
      } else {
        UploadMakesDurable(s, now, first, n);
      }
    }
  }

  lemma UploadKeepsInv(s: Writer, now: Utc, first: nat)
    requires Inv(s) && Enabled(s, Upload(now, first))
    ensures Inv(Next(s, Upload(now, first)))
  {
    var t := Next(s, Upload(now, first));
    UploadKeepsDurable(s, now, first);
    LogStays(s, t);
    BufferStays(s, t);
    if s.records != [] {
      UploadKeepsStore(s, now, first);
    } else {
      StoreUnchanged(s, t);
    }
  }

  /** Steps that change neither messages nor bucket keep what is said of the bucket. */
  lemma StoreUnchanged(s: Writer, t: Writer)
    requires StoreInv(s)
    requires t.produced == s.produced && t.objects == s.objects && t.instants == s.instants && t.dlq == s.dlq
    ensures StoreInv(t)
    ensures forall n: nat | n < |s.produced| :: Durable(s, n) ==> Durable(t, n)
  {
    assert forall row :: ProducedRow(s, row) ==> ProducedRow(t, row);
  }

  /** Nothing is said of the buffer but by these fields. */
  lemma BufferStays(s: Writer, t: Writer)
    requires BufferInv(s) && t.log == s.log && t.produced == s.produced && t.dlq == s.dlq
    requires t.polled == s.polled && t.records == s.records && t.floor == s.floor && t.position == s.position
    ensures BufferInv(t)
  {
  }

  lemma CommitKeepsOffsets(s: Writer, applied: set<Partition>)
    requires Sane(s) && OffsetsInv(s) && Enabled(s, Commit(applied))
    ensures OffsetsInv(Next(s, Commit(applied)))
  {
    var t := Next(s, Commit(applied));
    forall p
      ensures At(t.committed, p) == if p in applied then s.pending[p] else At(s.committed, p)
    {
    }
  }

  lemma CommitKeepsInv(s: Writer, applied: set<Partition>)
    requires Inv(s) && Enabled(s, Commit(applied))
    ensures Inv(Next(s, Commit(applied)))
  {
    var t := Next(s, Commit(applied));
    LogStays(s, t);
    CommitKeepsOffsets(s, applied);
    BufferStays(s, t);
    StoreUnchanged(s, t);
    assert DurableInv(t);
  }

  lemma ClearKeepsInv(s: Writer)
    requires Inv(s) && Enabled(s, Clear)
    ensures Inv(Next(s, Clear))
  {
    var t := Next(s, Clear);
    StoreUnchanged(s, t);
    assert DurableInv(t);
    assert BufferInv(t);
  }

  lemma RestartKeepsInv(s: Writer)
    requires Inv(s)
    ensures Inv(Next(s, Restart))
  {
    var t := Next(s, Restart);
    StoreUnchanged(s, t);
    assert forall p :: Safe(t, p) <= Safe(s, p);
    assert BufferInv(t);
  }

  lemma PutKeepsStore(s: Writer, key: string, rows: seq<Row>)
    requires Inv(s) && Enabled(s, Put(key, rows))
    ensures StoreInv(Next(s, Put(key, rows)))
  {
    var t := Next(s, Put(key, rows));
    forall k | k in t.objects
      ensures KeyInv(t.instants, k)
    {
      if k != key {
        assert KeyInv(s.instants, k);
      }
    }
    forall k, row | k in t.objects && IsBatchKey(k) && row in t.objects[k]
      ensures ProducedRow(t, row)
    {
      assert ProducedRow(s, row);
    }
  }

  lemma PutKeepsDurable(s: Writer, key: string, rows: seq<Row>)
    requires Sane(s) && DurableInv(s) && Enabled(s, Put(key, rows))
    ensures DurableInv(Next(s, Put(key, rows)))
  {
    var t := Next(s, Put(key, rows));
    forall p, o: nat, n: nat | Holds(t.log, p, o, n) && o < Safe(t, p)
      ensures Durable(t, n)
    {
      assert Holds(s.log, p, o, n);
      DurableStays(s, t, n);
    }
  }

  /** Only a foreign write replaces an object. */
  lemma StepKeepsObjects(s: Writer, step: Step)
    requires StoreInv(s) && Sane(s) && Enabled(s, step)
    ensures forall k | k in s.objects ::
              && k in Next(s, step).objects
              && (!(step.Put? && step.key == k) ==> Next(s, step).objects[k] == s.objects[k])
  {
    if step.Upload? {
      UploadRetainsAll(s, step.now, step.first);
    }
  }

  /** What is in the bucket was there, is a foreign write, or is a batch. */
  lemma StepStores(s: Writer, step: Step, k: string)
    requires StoreInv(s) && Sane(s) && Enabled(s, step) && k in Next(s, step).objects
    ensures || (k in s.objects && Next(s, step).objects[k] == s.objects[k])
            || (step.Put? && step.key == k && Next(s, step).objects[k] == step.rows)
            || IsBatchKey(k)
  {
    if step.Upload? && s.records != [] {
      BatchKeyFormat(step.now, step.first);
    }
  }

  lemma UploadRetainsAll(s: Writer, now: Utc, first: nat)
    requires StoreInv(s) && Enabled(s, Upload(now, first))
    ensures forall k | k in s.objects ::
              k in Stored(s, now, first).objects && Stored(s, now, first).objects[k] == s.objects[k]
  {
    if s.records != [] {
      UploadIsFresh(s, now, first);
    }
  }

  /** What is said of log, offsets and buffer does not depend on the bucket. */
  lemma BucketOnly(s: Writer, t: Writer)
    requires LogInv(s) && OffsetsInv(s) && BufferInv(s)
    requires t == s.(objects := t.objects)
    ensures LogInv(t) && OffsetsInv(t) && BufferInv(t)
  {
  }

  lemma PutKeepsInv(s: Writer, key: string, rows: seq<Row>)
    requires Inv(s) && Enabled(s, Put(key, rows))
    ensures Inv(Next(s, Put(key, rows)))
  {
    var t := Next(s, Put(key, rows));
    BucketOnly(s, t);
    PutKeepsStore(s, key, rows);
    PutKeepsDurable(s, key, rows);
  }

  lemma StepKeepsInv(s: Writer, step: Step)
    requires Inv(s) && Enabled(s, step)
    ensures Inv(Next(s, step))
  {
    match step
    case Produce(p, message) => ProduceKeepsInv(s, p, message);
    case Poll(p) => PollKeepsInv(s, p);
    case Upload(now, first) => UploadKeepsInv(s, now, first);
    case Commit(applied) => CommitKeepsInv(s, applied);
    case Clear => ClearKeepsInv(s);
    case Restart => RestartKeepsInv(s);
    case Put(key, rows) => PutKeepsInv(s, key, rows);
  }

  lemma {:induction false} BehaviourKeepsInv(s: Writer, steps: seq<Step>, end: Writer)
    requires Inv(s) && Behaviour(s, steps, end)
    ensures Inv(end)
    decreases |steps|
  {
    if steps != [] {
      StepKeepsInv(s, steps[0]);
      BehaviourKeepsInv(Next(s, steps[0]), steps[1..], end);
    }
  }

  /** The states a run can reach. */
  ghost predicate Reachable(s: Writer) {
    exists w, steps :: Init(w) && Behaviour(w, steps, s)
  }

  lemma ReachableInv(s: Writer)
    requires Reachable(s)
    ensures Inv(s)
  {
    var w, steps :| Init(w) && Behaviour(w, steps, s);
    InitInv(w);
    BehaviourKeepsInv(w, steps, s);
  }

  // ---- Results over whole runs ----------------------------------------------------------

  /**
   No committed message is ever lost: in every state any run can reach, each message below a
   partition's committed offset is a row of an uploaded batch if it meets the contract, and was
   handed to the dead-letter producer if it does not.
   */
  lemma CommittedIsDurable(s: Writer, p: Partition, o: nat)
    requires Reachable(s)
    requires o < At(s.committed, p)
    ensures o < |Entries(s.log, p)| && Entries(s.log, p)[o] < |s.produced|
    ensures Durable(s, Entries(s.log, p)[o])
  {
    ReachableInv(s);
    assert Holds(s.log, p, o, Entries(s.log, p)[o]);
  }

  /**
   The volatile buffer never strays: it holds exactly the contract-valid messages polled since
   the last flush or restart, each once and in polling order.
   */
  lemma BufferIsWhatWasPolled(s: Writer)
    requires Reachable(s)
    ensures Within(s.polled, |s.produced|) && s.records == AcceptedRows(s.produced, s.polled)
    ensures NoDup(s.polled)
    ensures forall p, o: nat, n: nat | Holds(s.log, p, o, n) ::
              n in s.polled <==> At(s.floor, p) <= o < At(s.position, p)
  {
    ReachableInv(s);
  }

  /** Rows are buffered only while offsets are pending, and a pending offset is the next to poll. */
  lemma BufferedMeansPending(s: Writer)
    requires Reachable(s)
    ensures s.records != [] ==> s.pending != map[]
    ensures forall p | p in s.pending :: s.pending[p] == At(s.position, p) > At(s.floor, p)
  {
    ReachableInv(s);
    if s.records != [] {
      var n := AcceptedRowsOrigin(s.produced, s.polled, s.records[0]);
      assert Located(s.log, n);
      var p, o: nat :| Holds(s.log, p, o, n);
      assert p in s.pending;
    }
  }

  /** Committed offsets never move backwards and never pass what was polled. */
  lemma CommittedOffsetsAdvance(s: Writer, step: Step, p: Partition)
    requires Reachable(s) && Sane(s) && Enabled(s, step)
    ensures At(s.committed, p) <= At(Next(s, step).committed, p) <= At(Next(s, step).position, p)
    ensures At(Next(s, step).position, p) <= |Entries(Next(s, step).log, p)|
  {
    ReachableInv(s);
    StepKeepsInv(s, step);
  }

  // ---- Composing runs -------------------------------------------------------------------

  /** Some run leads from one state to the other. */
  ghost predicate Reaches(s: Writer, t: Writer) {
    exists steps :: Behaviour(s, steps, t)
  }

  lemma ReachesItself(s: Writer)
    ensures Reaches(s, s)
  {
    assert Behaviour(s, [], s);
  }

  lemma {:induction false} Chain(s: Writer, first: seq<Step>, t: Writer, second: seq<Step>, u: Writer)
    requires Behaviour(s, first, t) && Behaviour(t, second, u)
    ensures Behaviour(s, first + second, u)
    decreases |first|
  {
    if first == [] {
      assert first + second == second;
    } else {
      Chain(Next(s, first[0]), first[1..], t, second, u);
      assert (first + second)[1..] == first[1..] + second;
    }
  }

  lemma ReachesTransitive(s: Writer, t: Writer, u: Writer)
    requires Reaches(s, t) && Reaches(t, u)
    ensures Reaches(s, u)
  {
    var first :| Behaviour(s, first, t);
    var second :| Behaviour(t, second, u);
    Chain(s, first, t, second, u);
  }

  lemma ReachableReaches(s: Writer, t: Writer)
    requires Reachable(s) && Reaches(s, t)
    ensures Reachable(t)
  {
    var w, first :| Init(w) && Behaviour(w, first, s);
    var second :| Behaviour(s, second, t);
    Chain(w, first, s, second, t);
  }

  lemma ReachesNext(s: Writer, step: Step)
    requires Sane(s) && Enabled(s, step)
    ensures Reaches(s, Next(s, step))
  {
    assert [step][1..] == [];
    assert Behaviour(Next(s, step), [], Next(s, step));
    assert Behaviour(s, [step], Next(s, step));
  }
}

/**
 The writer process itself: the class with its mutable buffer and the two services it calls.
 Every method is tied to the steps of BronzeProtocol, so what is proved of the protocol's runs
 holds of every execution of `Run`.
 */
module BronzeWriterProcess {
  import opened Base
  import Observations
  import opened Clock
  import opened BronzeProtocol
  import B = BronzeProtocol
  import ObjectStorage

  /** The broker: topics, committed offsets of the consumer group, dead-letter topic. */
  class Broker {
    var produced: seq<Message>
    var log: map<Partition, seq<nat>>
    var committed: map<Partition, nat>
    var dlq: set<nat>

    method Take(p: Partition, message: Message)
      modifies this`produced, this`log
      ensures produced == old(produced) + [message]
      ensures log == old(log)[p := Entries(old(log), p) + [|old(produced)|]]
    {
      log := log[p := Entries(log, p) + [|produced|]];
      produced := produced + [message];
    }
  }

  /** What happens to the calls of one flush, and the monotonic clock when it is done. */
  datatype Weather = Weather(uploadFails: bool, applied: set<Partition>, commitRaises: bool, doneAt: real)

  /** What others do meanwhile: a producer sends a message, another process stores an object. */
  datatype Arrival = Sent(p: Partition, message: Message) | Stored(key: string, rows: seq<Observations.Row>)

  /**
   One iteration of the main loop: what others did before it, what poll returns, what the monotonic clock
   and the clock of the day show, and what the services do. What others do between poll and flush may be
   told at the next iteration: neither reads the other's writes.
   */
  datatype Tick = Tick(
    arrivals: seq<Arrival>, polled: Option<Partition>, clock: real, now: Utc, weather: Weather, stopped: bool)

  function AsStep(a: Arrival): Step {
    match a
    case Sent(p, message) => Produce(p, message)
    case Stored(key, rows) => Put(key, rows)
  }

  /** Others store under any key but a batch's. */
  ghost predicate Foreign(arrivals: seq<Arrival>) {
    forall a | a in arrivals && a.Stored? :: !IsBatchKey(a.key)
  }

  ghost function Arrive(s: Writer, a: Arrival): Writer {
    match a
    case Sent(p, message) =>
      s.(produced := s.produced + [message], log := s.log[p := Entries(s.log, p) + [|s.produced|]])
    case Stored(key, rows) => s.(objects := s.objects[key := rows])
  }

  /** The state after these arrivals. */
  ghost function Arrived(s: Writer, arrivals: seq<Arrival>): Writer {
    if arrivals == [] then s
    else Arrive(Arrived(s, arrivals[..|arrivals| - 1]), arrivals[|arrivals| - 1])
  }

  /** They are steps of the protocol that leave the process and its batches alone. */
  lemma {:induction false} ArrivalsReach(s: Writer, arrivals: seq<Arrival>)
    requires Reachable(s) && Foreign(arrivals)
    ensures Reaches(s, Arrived(s, arrivals)) && Reachable(Arrived(s, arrivals))
  {
    if arrivals == [] {
      ReachesItself(s);
    } else {
      var init, last := arrivals[..|arrivals| - 1], arrivals[|arrivals| - 1];
      var here := Arrived(s, init);
      assert last in arrivals;
      ArrivalsReach(s, init);
      TakesStep(here, AsStep(last));
      ReachesTransitive(s, here, Next(here, AsStep(last)));
    }
  }

  /** The batches of two buckets are the same. */
  ghost predicate SameBatches(before: map<string, seq<Observations.Row>>, after: map<string, seq<Observations.Row>>) {
    forall k | IsBatchKey(k) :: (k in before <==> k in after) && (k in before ==> after[k] == before[k])
  }

  /** The process is as it was. */
  ghost predicate SameProcess(s: Writer, t: Writer) {
    t == s.(produced := t.produced, log := t.log, objects := t.objects)
  }

  lemma ArrivalSpares(s: Writer, a: Arrival)
    requires Foreign([a])
    ensures SameBatches(s.objects, Arrive(s, a).objects) && SameProcess(s, Arrive(s, a))
  {
    assert a in [a];
  }

  lemma {:induction false} ArrivalsSpare(s: Writer, arrivals: seq<Arrival>)
    requires Foreign(arrivals)
    ensures SameBatches(s.objects, Arrived(s, arrivals).objects) && SameProcess(s, Arrived(s, arrivals))
  {
    if arrivals != [] {
      var init, last := arrivals[..|arrivals| - 1], arrivals[|arrivals| - 1];
      assert last in arrivals;
      ArrivalsSpare(s, init);
      ArrivalSpares(Arrived(s, init), last);
    }
  }

  class BronzeWriter {
    const broker: Broker
    const store: ObjectStorage.ObjectStore
    const batchSize: nat
    const flushSeconds: real
    var position: map<Partition, nat>
    var records: seq<Observations.Row>
    var pendingOffsets: map<Partition, nat>
    var lastFlush: real
    var running: bool
    ghost var phase: Phase
    ghost var polled: seq<nat>
    ghost var floor: map<Partition, nat>
    ghost var shipped: seq<nat>
    ghost var keys: seq<string>

    ghost function State(): Writer
      reads this, broker, store
    {
      Writer(broker.produced, broker.log, broker.committed, broker.dlq, store.objects,
             position, records, pendingOffsets, phase, polled, floor, shipped, keys, store.instants)
    }

    /** A started process; the one before it, if any, is dead. */
    constructor (broker: Broker, store: ObjectStorage.ObjectStore, batchSize: nat, flushSeconds: real, clock: real)
      ensures this.broker == broker && this.store == store && this.batchSize == batchSize
      ensures this.flushSeconds == flushSeconds && lastFlush == clock && running
      ensures State() == Writer(broker.produced, broker.log, broker.committed, broker.dlq, store.objects,
                                broker.committed, [], map[], Buffering, [], broker.committed, [], [],
                                store.instants)
    {
      this.broker, this.store, this.batchSize, this.flushSeconds := broker, store, batchSize, flushSeconds;
      lastFlush := clock;
      position, records, pendingOffsets, running := broker.committed, [], map[], true;
      phase, polled, floor, shipped, keys := Buffering, [], broker.committed, [], [];
    }

    method Stop()
      modifies this`running
      ensures !running
    {
      running := false;
    }

    /** Pending offsets never fall, cover the message, and stay where they were elsewhere. */
    method TrackOffset(p: Partition, offset: nat)
      modifies this`pendingOffsets
      ensures pendingOffsets.Keys == old(pendingOffsets.Keys) + {p}
      ensures offset < pendingOffsets[p]
      ensures forall q | q in old(pendingOffsets) ::
                old(pendingOffsets)[q] <= pendingOffsets[q] && (q != p ==> pendingOffsets[q] == old(pendingOffsets)[q])
      ensures pendingOffsets[p] == offset + 1
              || (p in old(pendingOffsets) && pendingOffsets[p] == old(pendingOffsets)[p])
      ensures pendingOffsets == Tracked(old(pendingOffsets), p, offset)
    {
      var known: int := if p in pendingOffsets then pendingOffsets[p] else -1;
      pendingOffsets := pendingOffsets[p := Max(known, offset + 1)];
    }

    method RouteToDlq(serial: nat)
      modifies broker`dlq
      ensures broker.dlq == old(broker.dlq) + {serial}
    {
      broker.dlq := broker.dlq + {serial};
    }

    /** A valid message is buffered, any other goes to the dead letters; either way its offset is tracked. */
    method Handle(p: Partition, offset: nat, serial: nat, message: Message)
      modifies this`pendingOffsets, this`records, broker`dlq
      ensures pendingOffsets == Tracked(old(pendingOffsets), p, offset)
      ensures if Accepted(message)
              then records == old(records) + [message.row] && broker.dlq == old(broker.dlq)
              else records == old(records) && broker.dlq == old(broker.dlq) + {serial}
    {
      TrackOffset(p, offset);
      if !Accepted(message) {
        RouteToDlq(serial);
        return;
      }
      records := records + [message.row];
    }

    /** Polls partition p and handles the message. */
    method PollAndHandle(p: Partition)
      requires Sane(State()) && Enabled(State(), Poll(p))
      modifies this, broker`dlq
      ensures State() == Next(old(State()), Poll(p))
      ensures running == old(running) && lastFlush == old(lastFlush)
    {
      var offset := At(position, p);
      var serial := Entries(broker.log, p)[offset];
      assert Within(Entries(broker.log, p), |broker.produced|);
      position := position[p := offset + 1];
      polled := polled + [serial];
      Handle(p, offset, serial, broker.produced[serial]);
    }

    predicate ShouldFlush(clock: real)
      reads this
    {
      pendingOffsets != map[] && (|records| >= batchSize || clock - lastFlush >= flushSeconds)
    }

    method FirstOffset() returns (first: nat)
      requires pendingOffsets != map[]
      requires PendingAbove(pendingOffsets)
      ensures IsFirstOffset(pendingOffsets, first)
    {
      var p0 :| p0 in pendingOffsets;
      first := pendingOffsets[p0] - 1;
      var left := pendingOffsets.Keys - {p0};
      while left != {}
        invariant left <= pendingOffsets.Keys
        invariant exists p :: p in pendingOffsets && pendingOffsets[p] == first + 1
        invariant forall p | p in pendingOffsets && p !in left :: first + 1 <= pendingOffsets[p]
        decreases left
      {
        var p :| p in left;
        if pendingOffsets[p] - 1 < first {
          first := pendingOffsets[p] - 1;
        }
        left := left - {p};
      }
    }

    /** The batch may be uploaded at this instant: no other batch was. */
    ghost predicate Fresh(now: Utc)
      reads store`instants
    {
      Valid(now) && now !in store.instants
    }

    /** The upload of a flush: the buffer becomes one new object; nothing changes if it raises. */
    method UploadBatch(now: Utc, first: nat, fails: bool) returns (ok: bool)
      requires Valid(now)
      modifies this`phase, this`keys, store
      ensures ok <==> records == [] || !fails
      ensures phase == if ok then Uploaded else old(phase)
      ensures if ok && records != []
              then && store.objects == old(store.objects)[BatchKey(now, first) := records]
                   && store.instants == old(store.instants) + {now} && keys == old(keys) + [BatchKey(now, first)]
              else store.objects == old(store.objects) && store.instants == old(store.instants) && keys == old(keys)
      ensures State() == if ok then B.Stored(old(State()), now, first) else old(State())
    {
      if records != [] && fails {
        return false;
      }
      if records != [] {
        var key := BatchKey(now, first);
        store.objects := store.objects[key := records];
        store.instants := store.instants + {now};
        keys := keys + [key];
      }
      phase := Uploaded;
      return true;
    }

    /**
     Commits the pending offsets, of which the broker may take those of some partitions only; the
     buffer is cleared only if the call returns.
     */
    method CommitAndClear(weather: Weather) returns (ok: bool)
      modifies this`records, this`pendingOffsets, this`phase, this`shipped, this`polled, this`floor, this`lastFlush,
               broker`committed
      ensures ok == !weather.commitRaises
      ensures broker.committed == CommitOffsets(old(broker.committed), old(pendingOffsets),
                                                weather.applied * old(pendingOffsets.Keys))
      ensures if ok
              then records == [] && pendingOffsets == map[] && phase == Buffering && polled == []
                   && shipped == old(shipped) + old(polled) && floor == position
              else records == old(records) && pendingOffsets == old(pendingOffsets) && phase == Committed
                   && polled == old(polled) && shipped == old(shipped) && floor == old(floor)
      ensures State() == AfterCommit(old(State()), weather)
      ensures lastFlush == if ok then weather.doneAt else old(lastFlush)
    {
      broker.committed := CommitOffsets(broker.committed, pendingOffsets, weather.applied * pendingOffsets.Keys);
      phase := Committed;
      if weather.commitRaises {
        return false;
      }
      records, pendingOffsets, lastFlush := [], map[], weather.doneAt;
      phase, shipped, polled, floor := Buffering, shipped + polled, [], position;
      return true;
    }

    /**
     One flush: upload, commit, clear. It returns unless a call raises. If the upload raises,
     nothing has changed; if the commit does, the batch is stored and offsets may be committed,
     the buffer is as it was, and the process is about to die.
     */
    method Flush(now: Utc, weather: Weather) returns (ok: bool)
      requires Valid(now) && PendingAbove(pendingOffsets)
      requires phase == Buffering
      modifies this, broker`committed, store
      ensures running == old(running)
      ensures FlushOutcome(old(State()), now, weather, ok, State())
      ensures lastFlush == if ok && old(pendingOffsets) != map[] then weather.doneAt else old(lastFlush)
    {
      if pendingOffsets == map[] {
        return true;
      }
      var first := FirstOffset();
      ok := UploadBatch(now, first, weather.uploadFails);
      if !ok {
        return;
      }
      ok := CommitAndClear(weather);
    }

    /** What others do before a poll. */
    method Meanwhile(arrivals: seq<Arrival>)
      modifies broker`produced, broker`log, store`objects
      ensures State() == Arrived(old(State()), arrivals)
    {
      for i := 0 to |arrivals|
        invariant State() == Arrived(old(State()), arrivals[..i])
        invariant store.instants == old(store.instants)
      {
        assert arrivals[..i + 1][..i] == arrivals[..i];
        match arrivals[i]
        case Sent(p, message) => broker.Take(p, message);
        case Stored(key, rows) => store.UploadRows(key, rows);
      }
      assert arrivals[..|arrivals|] == arrivals;
    }

    /** consumer.poll and handle, if a message is there. */
    method PollOnce(polledFrom: Option<Partition>)
      requires Reachable(State()) && phase.Buffering?
      modifies this, broker`dlq
      ensures Reachable(State()) && Reaches(old(State()), State()) && phase.Buffering?
      ensures |records| == BufferedAfter(old(State()), polledFrom)
      ensures running == old(running) && lastFlush == old(lastFlush)
      ensures position == if polledFrom.Some? then Advanced(old(position), broker.log, polledFrom.value)
                          else old(position)
    {
      ghost var start := State();
      if polledFrom.Some? && At(position, polledFrom.value) < |Entries(broker.log, polledFrom.value)| {
        TakesStep(start, Poll(polledFrom.value));
        PollGrows(start, polledFrom.value);
        PollAndHandle(polledFrom.value);
      } else {
        ReachesItself(start);
      }
    }

    /** The flush interval has passed by this clock. */
    predicate Due(clock: real)
      reads this`lastFlush
    {
      clock - lastFlush >= flushSeconds
    }

    /** Flushes if it is time, and only then. */
    method FlushIfDue(tick: Tick) returns (ok: bool)
      requires Reachable(State()) && phase.Buffering? && 1 <= batchSize && |records| <= batchSize && Fresh(tick.now)
      modifies this, broker`committed, store
      ensures Reachable(State()) && Reaches(old(State()), State())
      ensures ok ==> phase.Buffering? && |records| < batchSize
      ensures ok && old(Due(tick.clock)) ==> records == [] && pendingOffsets == map[]
      ensures |old(records)| < batchSize && !old(Due(tick.clock)) ==>
                ok && State() == old(State()) && lastFlush == old(lastFlush)
      ensures position == old(position) && running == old(running)
      ensures StoresOnly(old(store.objects), store.objects, tick.now, old(records))
      ensures MarkMoves(old(store.objects), store.objects, old(lastFlush), lastFlush, ok, tick.weather.doneAt)
      ensures store.instants <= old(store.instants) + {tick.now}
    {
      ghost var here := State();
      LoopHead(here);
      if !ShouldFlush(tick.clock) {
        ReachesItself(here);
        return true;
      }
      ok := Flush(tick.now, tick.weather);
      FlushFacts(here, tick.now, tick.weather, ok, State());
      FlushStores(here, tick.now, tick.weather, ok, State());
      FlushReaches(here, tick.now, tick.weather, ok, State());
    }

    /** One turn of the main loop. */
    method Turn(tick: Tick) returns (ok: bool)
      requires Reachable(State()) && phase.Buffering? && 1 <= batchSize && |records| < batchSize
      requires Fresh(tick.now) && Foreign(tick.arrivals)
      modifies this, broker, store
      ensures Reachable(State()) && Reaches(old(State()), State())
      ensures ok ==> phase.Buffering? && |records| < batchSize
      ensures ok && old(Due(tick.clock)) ==> records == [] && pendingOffsets == map[]
      // Nothing is uploaded or committed unless the buffer is full or the interval has passed.
      ensures BufferedAfter(Arrived(old(State()), tick.arrivals), tick.polled) < batchSize && !old(Due(tick.clock)) ==>
                && ok && SameBatches(old(store.objects), store.objects) && store.instants == old(store.instants)
                && broker.committed == old(broker.committed) && lastFlush == old(lastFlush)
      ensures position == if tick.polled.Some? then Advanced(old(position), broker.log, tick.polled.value)
                          else old(position)
      ensures broker.log == Arrived(old(State()), tick.arrivals).log
      ensures running == (old(running) && !tick.stopped)
      ensures TurnStores(old(store.objects), store.objects, tick.now, batchSize, old(Due(tick.clock)))
      ensures MarkMoves(old(store.objects), store.objects, old(lastFlush), lastFlush, ok, tick.weather.doneAt)
      ensures store.instants <= old(store.instants) + {tick.now}
    {
      ghost var start := State();
      ArrivalsReach(start, tick.arrivals);
      ArrivalsSpare(start, tick.arrivals);
      Meanwhile(tick.arrivals);
      ghost var ready := State();
      BufferedBound(ready, tick.polled);
      PollOnce(tick.polled);
      ghost var here := State();
      ReachesTransitive(start, ready, here);
      ok := FlushIfDue(tick);
      ReachesTransitive(start, here, State());
      if tick.stopped {
        Stop();
      }
    }

    /**
     The main loop over what the world does at each turn, and the flush on the way out. Messages may
     arrive and other processes store at any turn. Every execution is a run of the protocol; at the
     head of the loop the buffer is below the batch size. Each batch stored is full, or was stored when
     the flush interval had passed since the last completed flush (`marks` tells when that was at the
     head of each turn), or is the last.
     */
    method Run(script: seq<Tick>, last: Tick) returns (ok: bool, ghost turns: nat, ghost marks: seq<real>)
      requires Reachable(State()) && phase.Buffering? && 1 <= batchSize && |records| < batchSize
      requires FreshScript(script, last, store.instants)
      modifies this, broker, store
      ensures Reachable(State()) && Reaches(old(State()), State())
      ensures turns <= |script| && AreMarks(script, turns, marks, old(lastFlush))
      ensures TurnsUntilStopped(script, turns, old(running)) && (ok ==> NothingLeft(script, turns, old(running)))
      ensures forall k | k in old(store.objects) && IsBatchKey(k) ::
                k in store.objects && store.objects[k] == old(store.objects)[k]
      ensures forall k | k in store.objects && IsBatchKey(k) && k !in old(store.objects) ::
                WellTimed(k, store.objects[k], script, turns, marks, batchSize, flushSeconds)
                || (StoredAt(k, last.now) && |store.objects[k]| < batchSize)
      ensures ok ==> records == [] && pendingOffsets == map[]
    {
      ok, turns, marks := Loop(script, last);
      if ok {
        ghost var here := State();
        ok := LastFlush(last);
        ReachesTransitive(old(State()), here, State());
      }
    }

    /** One turn of a loop that began in another state. */
    method TurnAt(script: seq<Tick>, i: nat, last: Tick, ghost start: Writer, ghost mark: real, ghost marks: seq<real>,
                  ghost wasRunning: bool)
      returns (ok: bool, ghost more: seq<real>)
      requires running && 1 <= batchSize && i < |script|
      requires InLoop(start, State(), script, i, marks, mark, batchSize, flushSeconds, wasRunning)
      requires AtHead(State(), script, i, last, marks, batchSize, wasRunning, running, lastFlush)
      modifies this, broker, store
      ensures InLoop(start, State(), script, i + 1, more, mark, batchSize, flushSeconds, wasRunning)
      ensures ok ==> AtHead(State(), script, i + 1, last, more, batchSize, wasRunning, running, lastFlush)
    {
      ghost var here := State();
      FreshRest(script, i, last, store.instants);
      ok := Turn(script[i]);
      FreshStays(script[i + 1..], last, here.instants + {script[i].now}, store.instants);
      ReachesTransitive(start, here, State());
      TimedTurn(script, marks, mark, start.objects, here.objects, store.objects, batchSize, flushSeconds, lastFlush,
                ok);
      more := if ok then marks + [lastFlush] else marks;
    }

    method Loop(script: seq<Tick>, last: Tick) returns (ok: bool, ghost turns: nat, ghost marks: seq<real>)
      requires Reachable(State()) && phase.Buffering? && 1 <= batchSize && |records| < batchSize
      requires FreshScript(script, last, store.instants)
      modifies this, broker, store
      ensures turns <= |script|
      ensures InLoop(old(State()), State(), script, turns, marks, old(lastFlush), batchSize, flushSeconds, old(running))
      ensures ok ==> AfterLoop(State(), script, turns, last, batchSize, old(running))
    {
      ghost var start, mark := State(), lastFlush;
      LoopBegins(start, script, last, mark, batchSize, flushSeconds, running);
      ok, marks := true, [mark];
      var i := 0;
      while ok && running && i < |script|
        invariant 0 <= i <= |script|
        invariant InLoop(start, State(), script, i, marks, mark, batchSize, flushSeconds, old(running))
        invariant ok ==> AtHead(State(), script, i, last, marks, batchSize, old(running), running, lastFlush)
        decreases |script| - i
      {
        ok, marks := TurnAt(script, i, last, start, mark, marks, old(running));
        i := i + 1;
      }
      turns := i;
      if ok {
        LoopEnds(State(), script, i, last, marks, batchSize, old(running), running, lastFlush);
      }
    }

    /** The flush on the way out. */
    method LastFlush(last: Tick) returns (ok: bool)
      requires Reachable(State()) && phase.Buffering? && |records| < batchSize
      requires FreshScript([], last, store.instants)
      modifies this, broker, store
      ensures Reachable(State()) && Reaches(old(State()), State())
      ensures ok ==> records == [] && pendingOffsets == map[]
      ensures StoresOnly(old(store.objects), store.objects, last.now, old(records))
    {
      ghost var start := State();
      ArrivalsReach(start, last.arrivals);
      ArrivalsSpare(start, last.arrivals);
      Meanwhile(last.arrivals);
      ghost var here := State();
      LoopHead(here);
      ok := Flush(last.now, last.weather);
      FlushFacts(here, last.now, last.weather, ok, State());
      FlushStores(here, last.now, last.weather, ok, State());
      FlushReaches(here, last.now, last.weather, ok, State());
      ReachesTransitive(start, here, State());
    }
  }

  /** Flushes happen at instants that differ from each other and from those of earlier batches. */
  ghost predicate FreshScript(script: seq<Tick>, last: Tick, instants: set<Utc>) {
    && (forall i | 0 <= i < |script| ::
          && Valid(script[i].now) && script[i].now !in instants && script[i].now != last.now
          && Foreign(script[i].arrivals))
    && (forall i, j | 0 <= i < j < |script| :: script[i].now != script[j].now)
    && Valid(last.now) && last.now !in instants && Foreign(last.arrivals)
  }

  lemma FreshRest(script: seq<Tick>, i: nat, last: Tick, instants: set<Utc>)
    requires i < |script| && FreshScript(script[i..], last, instants)
    ensures Valid(script[i].now) && script[i].now !in instants && Foreign(script[i].arrivals)
    ensures FreshScript(script[i + 1..], last, instants + {script[i].now})
  {
    assert script[i..][0] == script[i] && script[i..][1..] == script[i + 1..];
  }

  lemma FreshStays(script: seq<Tick>, last: Tick, instants: set<Utc>, fewer: set<Utc>)
    requires FreshScript(script, last, instants) && fewer <= instants
    ensures FreshScript(script, last, fewer)
  {
  }

  /** Nothing has stopped the process before this turn. */
  ghost predicate StillRunning(script: seq<Tick>, turn: nat, running: bool) {
    running && forall i | 0 <= i < turn && i < |script| :: !script[i].stopped
  }

  /** No turn follows the one at which the process is stopped. */
  ghost predicate TurnsUntilStopped(script: seq<Tick>, turns: nat, running: bool) {
    turns <= |script| && (turns == 0 || StillRunning(script, turns - 1, running))
  }

  /** The loop went on until it was stopped. */
  ghost predicate NothingLeft(script: seq<Tick>, turns: nat, running: bool) {
    turns == |script| || !StillRunning(script, turns, running)
  }

  /** What every state of a loop that began in state s keeps. */
  ghost predicate InLoop(s: Writer, t: Writer, script: seq<Tick>, turns: nat, marks: seq<real>, mark: real, size: nat,
                         seconds: real, wasRunning: bool) {
    && Reachable(t) && Reaches(s, t) && TurnsUntilStopped(script, turns, wasRunning)
    && Timing(script, turns, marks, mark, s.objects, t.objects, size, seconds)
  }

  /** What holds at the head of the loop. */
  ghost predicate AtHead(t: Writer, script: seq<Tick>, i: nat, last: Tick, marks: seq<real>, size: nat,
                         wasRunning: bool, running: bool, flushed: real)
    requires i <= |script|
  {
    && t.phase.Buffering? && |t.records| < size && FreshScript(script[i..], last, t.instants)
    && |marks| == i + 1 && marks[i] == flushed && running == StillRunning(script, i, wasRunning)
  }

  /** What holds after a loop in which nothing raised. */
  ghost predicate AfterLoop(t: Writer, script: seq<Tick>, turns: nat, last: Tick, size: nat, wasRunning: bool) {
    && NothingLeft(script, turns, wasRunning)
    && t.phase.Buffering? && |t.records| < size && FreshScript([], last, t.instants)
  }

  lemma LoopBegins(s: Writer, script: seq<Tick>, last: Tick, mark: real, size: nat, seconds: real, running: bool)
    requires Reachable(s) && s.phase.Buffering? && |s.records| < size && FreshScript(script, last, s.instants)
    ensures InLoop(s, s, script, 0, [mark], mark, size, seconds, running)
    ensures AtHead(s, script, 0, last, [mark], size, running, running, mark)
  {
    ReachesItself(s);
    assert script[0..] == script;
  }

  lemma LoopEnds(t: Writer, script: seq<Tick>, i: nat, last: Tick, marks: seq<real>, size: nat, wasRunning: bool,
                 running: bool, flushed: real)
    requires i <= |script| && AtHead(t, script, i, last, marks, size, wasRunning, running, flushed)
    requires i == |script| || !running
    ensures AfterLoop(t, script, i, last, size, wasRunning)
  {
  }

  // ---- What a flush stores, and when --------------------------------------------------------

  /** How many rows are buffered after asking this partition for a message. */
  ghost function BufferedAfter(s: Writer, from: Option<Partition>): nat {
    |s.records| + if from.Some? && TakesRow(s, from.value) then 1 else 0
  }

  /** A message is there and is accepted. */
  ghost predicate TakesRow(s: Writer, p: Partition) {
    && At(s.position, p) < |Entries(s.log, p)|
    && Entries(s.log, p)[At(s.position, p)] < |s.produced|
    && Accepted(s.produced[Entries(s.log, p)[At(s.position, p)]])
  }

  lemma BufferedBound(s: Writer, from: Option<Partition>)
    ensures |s.records| <= BufferedAfter(s, from) <= |s.records| + 1
  {
  }

  ghost predicate StoredAt(key: string, now: Utc) {
    Valid(now) && exists f :: key == BatchKey(now, f)
  }

  /** Batches that were there stay; a new one holds the whole buffer and bears this instant. */
  ghost predicate StoresOnly(before: map<string, seq<Observations.Row>>, after: map<string, seq<Observations.Row>>,
                             now: Utc, rows: seq<Observations.Row>) {
    && (forall k | k in before && IsBatchKey(k) :: k in after && after[k] == before[k])
    && forall k | k in after && IsBatchKey(k) && k !in before :: after[k] == rows && StoredAt(k, now)
  }

  /** A new batch bears this instant and is full, unless the interval had passed. */
  ghost predicate TurnStores(before: map<string, seq<Observations.Row>>, after: map<string, seq<Observations.Row>>,
                             now: Utc, size: nat, due: bool) {
    && (forall k | k in before && IsBatchKey(k) :: k in after && after[k] == before[k])
    && forall k | k in after && IsBatchKey(k) && k !in before ::
         StoredAt(k, now) && |after[k]| <= size && (|after[k]| == size || due)
  }

  /** The time of the last completed flush moves only to this one, and does if a batch was stored. */
  ghost predicate MarkMoves(before: map<string, seq<Observations.Row>>, after: map<string, seq<Observations.Row>>,
                            mark: real, moved: real, ok: bool, doneAt: real) {
    && (moved == mark || moved == doneAt)
    && ((exists k :: k in after && IsBatchKey(k) && k !in before) && ok ==> moved == doneAt)
  }

  /** One mark for the head of each turn begun; they start where the loop did and move only to the ends of flushes. */
  ghost predicate AreMarks(script: seq<Tick>, turns: nat, marks: seq<real>, start: real)
    requires turns <= |script|
  {
    && turns <= |marks| <= turns + 1 && (marks != [] ==> marks[0] == start)
    && forall i | 0 <= i < |marks| - 1 :: marks[i + 1] == marks[i] || marks[i + 1] == script[i].weather.doneAt
  }

  /**
   The batch was stored at one of these turns, as a full one or after the flush interval; a turn that
   returned after storing it moved the mark.
   */
  ghost predicate WellTimed(k: string, rows: seq<Observations.Row>, script: seq<Tick>, turns: nat, marks: seq<real>,
                            size: nat, seconds: real)
    requires turns <= |script| && turns <= |marks|
  {
    |rows| <= size && exists i :: 0 <= i < turns && TimedAt(k, rows, script, marks, i, size, seconds)
  }

  ghost predicate TimedAt(k: string, rows: seq<Observations.Row>, script: seq<Tick>, marks: seq<real>, i: nat,
                          size: nat, seconds: real)
    requires i < |marks| && i < |script|
  {
    && StoredAt(k, script[i].now)
    && (|rows| == size || script[i].clock - marks[i] >= seconds)
    && (i + 1 < |marks| ==> marks[i + 1] == script[i].weather.doneAt)
  }

  ghost predicate AllTimed(before: map<string, seq<Observations.Row>>, after: map<string, seq<Observations.Row>>,
                           script: seq<Tick>, turns: nat, marks: seq<real>, size: nat, seconds: real)
    requires turns <= |script| && turns <= |marks|
  {
    && (forall k | k in before && IsBatchKey(k) :: k in after && after[k] == before[k])
    && forall k | k in after && IsBatchKey(k) && k !in before ::
         WellTimed(k, after[k], script, turns, marks, size, seconds)
  }

  ghost predicate Timing(script: seq<Tick>, turns: nat, marks: seq<real>, start: real,
                         before: map<string, seq<Observations.Row>>, after: map<string, seq<Observations.Row>>,
                         size: nat, seconds: real) {
    && turns <= |script| && AreMarks(script, turns, marks, start)
    && AllTimed(before, after, script, turns, marks, size, seconds)
  }

  /** One more turn. */
  lemma TimedTurn(script: seq<Tick>, marks: seq<real>, start: real, before: map<string, seq<Observations.Row>>,
                  here: map<string, seq<Observations.Row>>, after: map<string, seq<Observations.Row>>,
                  size: nat, seconds: real, moved: real, ok: bool)
    requires 0 < |marks| <= |script| && Timing(script, |marks| - 1, marks, start, before, here, size, seconds)
    requires var n := |marks| - 1;
             && TurnStores(here, after, script[n].now, size, script[n].clock - marks[n] >= seconds)
             && MarkMoves(here, after, marks[n], moved, ok, script[n].weather.doneAt)
    ensures Timing(script, |marks|, if ok then marks + [moved] else marks, start, before, after, size, seconds)
  {
    var n, more := |marks| - 1, if ok then marks + [moved] else marks;
    forall k | k in after && IsBatchKey(k) && k !in before
      ensures WellTimed(k, after[k], script, |marks|, more, size, seconds)
    {
      if k in here {
        var i :| 0 <= i < n && TimedAt(k, here[k], script, marks, i, size, seconds);
        assert TimedAt(k, after[k], script, more, i, size, seconds);
      } else {
        assert TimedAt(k, after[k], script, more, n, size, seconds);
      }
    }
  }

  /** Where polling stands after asking partition p for a message. */
  function Advanced(position: map<Partition, nat>, log: map<Partition, seq<nat>>, p: Partition): map<Partition, nat> {
    if At(position, p) < |Entries(log, p)| then position[p := At(position, p) + 1] else position
  }

  ghost predicate PendingAbove(pending: map<Partition, nat>) {
    forall p | p in pending :: pending[p] > 0
  }

  /** The state after committing, and clearing unless the commit raised. */
  ghost function AfterCommit(s: Writer, weather: Weather): Writer {
    var committed := s.(committed := CommitOffsets(s.committed, s.pending, weather.applied * s.pending.Keys),
                        phase := Committed);
    if weather.commitRaises then committed else Cleared(committed)
  }

  /** The state after a flush whose upload went through. */
  ghost function AfterFlush(s: Writer, now: Utc, first: nat, weather: Weather): Writer
    requires Valid(now)
  {
    AfterCommit(B.Stored(s, now, first), weather)
  }

  /** How a flush may end, and where it leaves the writer. */
  ghost predicate FlushOutcome(s: Writer, now: Utc, weather: Weather, ok: bool, t: Writer)
    requires Valid(now)
  {
    if s.pending == map[] then ok && t == s
    else if s.records != [] && weather.uploadFails then !ok && t == s
    else ok == !weather.commitRaises
         && exists first :: IsFirstOffset(s.pending, first) && t == AfterFlush(s, now, first, weather)
  }

  /** Every object is an old one untouched, or the whole buffer. */
  ghost predicate OnlyBufferStored(s: Writer, t: Writer) {
    forall k | k in t.objects :: (k in s.objects && t.objects[k] == s.objects[k]) || t.objects[k] == s.records
  }

  ghost predicate BufferStored(s: Writer, t: Writer) {
    exists k :: k in t.objects && IsBatchKey(k) && t.objects[k] == s.records
  }

  lemma StoredFacts(s: Writer, now: Utc, first: nat)
    requires Valid(now)
    ensures var t := B.Stored(s, now, first);
            && OnlyBufferStored(s, t) && (s.records != [] ==> BufferStored(s, t))
            && t.instants <= s.instants + {now}
            && t == s.(objects := t.objects, keys := t.keys, instants := t.instants, phase := Uploaded)
  {
    var key := BatchKey(now, first);
    if s.records != [] {
      BatchKeyFormat(now, first);
      assert B.Stored(s, now, first).objects == s.objects[key := s.records];
      assert s.objects[key := s.records][key] == s.records;
    }
  }

  lemma CommitFacts(s: Writer, weather: Weather)
    ensures var t := AfterCommit(s, weather);
            && t.objects == s.objects && t.instants == s.instants && t.position == s.position
            && if weather.commitRaises then t.records == s.records && t.pending == s.pending
               else t.records == [] && t.pending == map[] && t.phase.Buffering?
  {
  }

  lemma AfterFlushFacts(s: Writer, now: Utc, first: nat, weather: Weather)
    requires Valid(now)
    ensures OnlyBufferStored(s, AfterFlush(s, now, first, weather))
    ensures s.records != [] ==> BufferStored(s, AfterFlush(s, now, first, weather))
    ensures AfterFlush(s, now, first, weather).instants <= s.instants + {now}
    ensures var t := AfterFlush(s, now, first, weather);
            && t.position == s.position
            && if weather.commitRaises then t.records == s.records && t.pending == s.pending
               else t.records == [] && t.pending == map[] && t.phase.Buffering?
  {
    StoredFacts(s, now, first);
    CommitFacts(B.Stored(s, now, first), weather);
  }

  /**
   A flush that returns leaves nothing buffered or pending, one that does not keeps the buffer. Its
   object holds the whole buffer, and offsets are committed only after the rows they cover are stored.
   */
  lemma FlushFacts(s: Writer, now: Utc, weather: Weather, ok: bool, t: Writer)
    requires s.phase.Buffering? && (s.records != [] ==> s.pending != map[])
    requires Valid(now) && FlushOutcome(s, now, weather, ok, t)
    ensures ok ==> t.records == [] && t.pending == map[] && t.phase.Buffering?
    ensures !ok ==> t.records == s.records && t.pending == s.pending
    ensures t.position == s.position && t.instants <= s.instants + {now}
    ensures OnlyBufferStored(s, t)
    ensures t.committed != s.committed && s.records != [] ==> BufferStored(s, t)
  {
    if t != s {
      var first :| IsFirstOffset(s.pending, first) && t == AfterFlush(s, now, first, weather);
      AfterFlushFacts(s, now, first, weather);
    }
  }

  /** The one batch a flush may add is new, bears its instant and holds the whole buffer. */
  lemma FlushStores(s: Writer, now: Utc, weather: Weather, ok: bool, t: Writer)
    requires Reachable(s) && Valid(now) && now !in s.instants && FlushOutcome(s, now, weather, ok, t)
    ensures StoresOnly(s.objects, t.objects, now, s.records)
    ensures s.pending == map[] ==> t.objects == s.objects
  {
    if t != s {
      var first :| IsFirstOffset(s.pending, first) && t == AfterFlush(s, now, first, weather);
      ReachableInv(s);
      UploadIsFresh(s, now, first);
      CommitFacts(B.Stored(s, now, first), weather);
      AddedBatch(s, now, first);
    }
  }

  lemma AddedBatch(s: Writer, now: Utc, first: nat)
    requires Valid(now) && BatchKey(now, first) !in s.objects
    ensures StoresOnly(s.objects, B.Stored(s, now, first).objects, now, s.records)
  {
    var key := BatchKey(now, first);
    AddedObject(s.objects, key, s.records, now);
    assert B.Stored(s, now, first).objects == if s.records == [] then s.objects else s.objects[key := s.records];
  }

  lemma AddedObject(before: map<string, seq<Observations.Row>>, key: string, rows: seq<Observations.Row>, now: Utc)
    requires key !in before && StoredAt(key, now)
    ensures StoresOnly(before, before, now, rows) && StoresOnly(before, before[key := rows], now, rows)
  {
  }

  /** A flush is a run of the protocol. */
  lemma FlushReaches(s: Writer, now: Utc, weather: Weather, ok: bool, t: Writer)
    requires Reachable(s) && s.phase.Buffering? && Valid(now) && now !in s.instants
    requires FlushOutcome(s, now, weather, ok, t)
    ensures Reaches(s, t) && Reachable(t)
  {
    ReachesItself(s);
    if t != s {
      var first :| IsFirstOffset(s.pending, first) && t == AfterFlush(s, now, first, weather);
      FlushSteps(s, now, first, weather);
    }
  }

  lemma CommitSteps(s: Writer, weather: Weather)
    requires Reachable(s) && s.phase.Uploaded?
    ensures Reaches(s, AfterCommit(s, weather)) && Reachable(AfterCommit(s, weather))
  {
    var commit := Commit(weather.applied * s.pending.Keys);
    TakesStep(s, commit);
    if !weather.commitRaises {
      var committed := Next(s, commit);
      TakesStep(committed, Clear);
      ReachesTransitive(s, committed, Next(committed, Clear));
    }
  }

  lemma FlushSteps(s: Writer, now: Utc, first: nat, weather: Weather)
    requires Reachable(s) && Enabled(s, Upload(now, first)) && Valid(now)
    ensures Reaches(s, AfterFlush(s, now, first, weather)) && Reachable(AfterFlush(s, now, first, weather))
  {
    TakesStep(s, Upload(now, first));
    var stored := B.Stored(s, now, first);
    CommitSteps(stored, weather);
    ReachesTransitive(s, stored, AfterCommit(stored, weather));
  }

  lemma TakesStep(s: Writer, step: Step)
    requires Reachable(s) && Enabled(s, step)
    ensures Sane(s) && Reaches(s, Next(s, step)) && Reachable(Next(s, step))
  {
    ReachableInv(s);
    ReachesNext(s, step);
    ReachableReaches(s, Next(s, step));
  }

  lemma PollGrows(s: Writer, p: Partition)
    requires Sane(s) && Enabled(s, Poll(p))
    ensures var t := Next(s, Poll(p));
            && |t.records| == BufferedAfter(s, Some(p)) && t.phase == s.phase
            && t.position == Advanced(s.position, s.log, p)
  {
    assert Within(Entries(s.log, p), |s.produced|);
  }

  /** What the head of the loop may rely on. */
  lemma LoopHead(s: Writer)
    requires Reachable(s)
    ensures Sane(s) && PendingAbove(s.pending) && (s.records != [] ==> s.pending != map[])
  {
    ReachableInv(s);
    BufferedMeansPending(s);
  }
}

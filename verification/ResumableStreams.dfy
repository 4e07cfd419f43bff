/** The resumable SSE protocol of app/services/resumable_streams.py.

    Producers (`capture`) and readers (`resume`) share one Redis server. Every Redis call, every
    chunk the source produces, every chunk handed to a consumer and every cancellation is one
    atomic step; a run is any finite sequence of steps of any number of producers and readers. */
module ResumableStreams {
  import opened Wrappers

  // Opaque identifiers: only equality is ever used.
  type ChatId = nat
  type StreamId = nat
  type ReaderId = nat
  type Chunk = string

  /** The three key families: active:{chat}, chunks:{stream} and done:{stream}. */
  datatype Redis = Redis(
    active: map<ChatId, StreamId>,
    chunks: map<StreamId, seq<Chunk>>,
    done: set<StreamId>)
  {
    function Buffer(stream: StreamId): seq<Chunk> {
      if stream in chunks then chunks[stream] else []
    }

    /** LRANGE chunks:{stream} index -1. */
    function Range(stream: StreamId, index: nat): seq<Chunk> {
      var buffer := Buffer(stream);
      if index <= |buffer| then buffer[index..] else []
    }

    function Push(stream: StreamId, chunk: Chunk): Redis {
      this.(chunks := chunks[stream := Buffer(stream) + [chunk]])
    }

    function Activate(chat: ChatId, stream: StreamId): Redis {
      this.(active := active[chat := stream])
    }

    function MarkDone(stream: StreamId): Redis {
      this.(done := done + {stream})
    }

    function Delete(stream: StreamId): Redis {
      this.(chunks := chunks - {stream}, done := done - {stream})
    }
  }

  /** A Redis call succeeds, or raises with or without having taken effect. */
  datatype Reply = Succeeded | FailedUnapplied | FailedApplied {
    predicate Applied() { !FailedUnapplied? }
  }

  // ---- Producers ----

  /** Where a `capture` generator is suspended. */
  datatype ProducerPc =
    | Deleting                 // _start: DEL chunks, done
    | Activating               // _start: SET active
    | Pulling                  // waiting for the source
    | Pushing(chunk: Chunk)    // _append: RPUSH
    | Expiring(chunk: Chunk)   // _append: EXPIRE
    | Yielding(chunk: Chunk)   // about to hand the chunk to its own consumer
    | SettingDone              // _finish: SET done
    | CheckingActive           // _finish: GET active
    | RefreshingActive         // _finish: EXPIRE active
    | Closed

  /** `produced` is everything the source has produced, `yielded` everything capture has handed on;
      `exhausted` says the source ended by itself. */
  datatype Producer = Producer(
    chat: ChatId,
    pc: ProducerPc,
    produced: seq<Chunk>,
    yielded: seq<Chunk>,
    started: bool,
    persisted: bool,
    exhausted: bool)
  {
    /** The finally block: _finish runs only if _start succeeded. */
    function Finishing(): Producer {
      this.(pc := if started then SettingDone else Closed)
    }

    predicate PastAppends() {
      pc.CheckingActive? || pc.RefreshingActive? || pc.Closed?
    }
  }

  // ---- Readers ----

  datatype StopReason = Superseded | RedisFailed | SawDone | Abandoned

  /** Where a `resume` generator is suspended. */
  datatype ReaderPc =
    | PollActive                               // GET active
    | PollDone                                 // EXISTS done
    | PollChunks(sawDone: bool)                // LRANGE
    | Handing(sawDone: bool, batch: seq<Chunk>)
    | Stopped(reason: StopReason)

  datatype Reader = Reader(
    chat: ChatId,
    stream: StreamId,
    pc: ReaderPc,
    index: nat,
    yielded: seq<Chunk>)

  datatype State = State(
    redis: Redis,
    producers: map<StreamId, Producer>,
    readers: map<ReaderId, Reader>)

  const Initial: State := State(Redis(map[], map[], {}), map[], map[])

  datatype Step =
    | Open(stream: StreamId, chat: ChatId)          // capture starts under a fresh stream id
    | ProducerCall(stream: StreamId, reply: Reply)  // the producer's pending Redis call returns
    | Produce(stream: StreamId, chunk: Chunk)       // the source produces a chunk
    | Exhaust(stream: StreamId)                     // the source ends
    | Deliver(stream: StreamId)                     // capture yields its chunk
    | Abort(stream: StreamId, landed: bool)         // cancellation, a raising source or a closed generator
    | Follow(reader: ReaderId, chat: ChatId, target: StreamId)
    | ReaderCall(reader: ReaderId, failed: bool)    // the reader's pending Redis call returns
    | Hand(reader: ReaderId)                        // resume yields the next chunk of its batch
    | EndPoll(reader: ReaderId)                     // the batch is used up: stop or sleep
    | Leave(reader: ReaderId)                       // the reader's consumer goes away

  /** The effect of the producer's pending call on Redis, when it is applied. */
  function CallEffect(redis: Redis, stream: StreamId, p: Producer): Redis {
    match p.pc
    case Deleting => redis.Delete(stream)
    case Activating => redis.Activate(p.chat, stream)
    case Pushing(chunk) => redis.Push(stream, chunk)
    case SettingDone => redis.MarkDone(stream)
    case _ => redis
  }

  /** How the producer continues after its pending call. */
  function AfterCall(redis: Redis, stream: StreamId, p: Producer, ok: bool): Producer {
    match p.pc
    case Deleting =>
      if ok then p.(pc := Activating) else p.(pc := Pulling)
    case Activating =>
      p.(pc := Pulling, started := ok, persisted := ok)
    case Pushing(chunk) =>
      if ok then p.(pc := Expiring(chunk)) else p.(pc := Yielding(chunk), persisted := false)
    case Expiring(chunk) =>
      p.(pc := Yielding(chunk), persisted := ok)
    case SettingDone =>
      p.(pc := if ok then CheckingActive else Closed)
    case CheckingActive =>
      p.(pc := if ok && p.chat in redis.active && redis.active[p.chat] == stream
               then RefreshingActive else Closed)
    case RefreshingActive =>
      p.(pc := Closed)
    case _ => p
  }

  /** An exception that is not a RedisError: before the try block it ends the generator, inside it
      the finally block runs, inside _finish it ends the generator. */
  function AfterAbort(p: Producer): Producer {
    match p.pc
    case Pulling => p.Finishing()
    case Pushing(_) => p.Finishing()
    case Expiring(_) => p.Finishing()
    case Yielding(_) => p.Finishing()
    case _ => p.(pc := Closed)
  }

  function AfterReaderCall(redis: Redis, r: Reader): Reader {
    match r.pc
    case PollActive =>
      if r.chat in redis.active && redis.active[r.chat] == r.stream
      then r.(pc := PollDone)
      else r.(pc := Stopped(Superseded))
    case PollDone =>
      r.(pc := PollChunks(r.stream in redis.done))
    case PollChunks(sawDone) =>
      r.(pc := Handing(sawDone, redis.Range(r.stream, r.index)))
    case _ => r
  }

  predicate Calling(pc: ReaderPc) { pc.PollActive? || pc.PollDone? || pc.PollChunks? }

  /** One step of a reader; a step its pc does not allow changes nothing. */
  function ReaderStep(redis: Redis, r: Reader, step: Step): Reader
    requires step.ReaderCall? || step.Hand? || step.EndPoll? || step.Leave?
  {
    match step
    case ReaderCall(_, failed) =>
      if !Calling(r.pc) then r
      else if failed then r.(pc := Stopped(RedisFailed))
      else AfterReaderCall(redis, r)
    case Hand(_) =>
      if !r.pc.Handing? || r.pc.batch == [] then r
      else r.(pc := Handing(r.pc.sawDone, r.pc.batch[1..]),
              index := r.index + 1,
              yielded := r.yielded + [r.pc.batch[0]])
    case EndPoll(_) =>
      if !r.pc.Handing? || r.pc.batch != [] then r
      else r.(pc := if r.pc.sawDone then Stopped(SawDone) else PollActive)
    case Leave(_) =>
      if r.pc.Stopped? then r else r.(pc := Stopped(Abandoned))
  }

  function Next(st: State, step: Step): State {
    match step
    case Open(stream, chat) =>
      if stream in st.producers then st
      else st.(producers := st.producers[
                 stream := Producer(chat, Deleting, [], [], false, false, false)])
    case ProducerCall(stream, reply) =>
      if stream !in st.producers then st
      else
        var p := st.producers[stream];
        State(
          if reply.Applied() then CallEffect(st.redis, stream, p) else st.redis,
          st.producers[stream := AfterCall(st.redis, stream, p, reply.Succeeded?)],
          st.readers)
    case Produce(stream, chunk) =>
      if stream !in st.producers || !st.producers[stream].pc.Pulling? then st
      else
        var p := st.producers[stream];
        st.(producers := st.producers[stream := p.(
              pc := if p.persisted then Pushing(chunk) else Yielding(chunk),
              produced := p.produced + [chunk])])
    case Exhaust(stream) =>
      if stream !in st.producers || !st.producers[stream].pc.Pulling? then st
      else
        var p := st.producers[stream];
        st.(producers := st.producers[stream := p.(exhausted := true).Finishing()])
    case Deliver(stream) =>
      if stream !in st.producers || !st.producers[stream].pc.Yielding? then st
      else
        var p := st.producers[stream];
        st.(producers := st.producers[stream := p.(
              pc := Pulling, yielded := p.yielded + [p.pc.chunk])])
    case Abort(stream, landed) =>
      if stream !in st.producers then st
      else
        var p := st.producers[stream];
        State(
          if landed then CallEffect(st.redis, stream, p) else st.redis,
          st.producers[stream := AfterAbort(p)],
          st.readers)
    case Follow(reader, chat, target) =>
      if reader in st.readers then st
      else st.(readers := st.readers[reader := Reader(chat, target, PollActive, 0, [])])
    case _ =>
      if step.reader !in st.readers then st
      else st.(readers := st.readers[
                 step.reader := ReaderStep(st.redis, st.readers[step.reader], step)])
  }

  function Run(st: State, steps: seq<Step>): State
    decreases steps
  {
    if steps == [] then st else Run(Next(st, steps[0]), steps[1..])
  }

  // ---- The invariant ----

  ghost predicate ProducerInv(redis: Redis, stream: StreamId, p: Producer) {
    var buffer := redis.Buffer(stream);
    && buffer <= p.produced
    && (p.persisted ==> p.started)
    && (stream in redis.done ==> p.PastAppends())
    && match p.pc
       case Deleting => p.produced == p.yielded == [] && !p.started
       case Activating => p.produced == p.yielded == [] && !p.started
       case Pulling => p.yielded == p.produced && (p.persisted ==> buffer == p.produced)
       case Pushing(chunk) => p.produced == p.yielded + [chunk] && p.persisted && buffer == p.yielded
       case Expiring(chunk) => p.produced == p.yielded + [chunk] && p.persisted && buffer == p.produced
       case Yielding(chunk) =>
         p.produced == p.yielded + [chunk] && (p.persisted ==> buffer == p.produced)
       case _ =>
         && p.yielded <= p.produced
         && |p.produced| <= |p.yielded| + 1
         && (p.exhausted ==> p.yielded == p.produced)
         && (p.exhausted && p.persisted ==> buffer == p.produced)
  }

  ghost predicate ReaderInv(redis: Redis, r: Reader) {
    var buffer := redis.Buffer(r.stream);
    && r.index == |r.yielded|
    && r.yielded <= buffer
    && match r.pc
       case PollChunks(sawDone) => sawDone ==> r.stream in redis.done
       case Handing(sawDone, batch) =>
         && r.yielded + batch <= buffer
         && (sawDone ==> r.stream in redis.done && r.yielded + batch == buffer)
       case Stopped(SawDone) => r.stream in redis.done && r.yielded == buffer
       case _ => true
  }

  ghost predicate Inv(st: State) {
    && (forall s <- st.producers :: ProducerInv(st.redis, s, st.producers[s]))
    && (forall r <- st.readers :: ReaderInv(st.redis, st.readers[r]))
    && st.redis.chunks.Keys <= st.producers.Keys
    && st.redis.done <= st.producers.Keys
    && (forall s <- st.producers :: !st.producers[s].exhausted || Ending(st.producers[s].pc))
  }

  predicate Ending(pc: ProducerPc) {
    pc.SettingDone? || pc.CheckingActive? || pc.RefreshingActive? || pc.Closed?
  }

  /** What a step of one stream's producer may do to that stream's keys: append only, and nothing
      at all once `done` is set. */
  ghost predicate Grows(before: Redis, after: Redis, stream: StreamId) {
    && before.Buffer(stream) <= after.Buffer(stream)
    && (stream in before.done ==>
          stream in after.done && after.Buffer(stream) == before.Buffer(stream))
  }

  lemma ReaderInvGrows(before: Redis, after: Redis, r: Reader)
    requires ReaderInv(before, r) && Grows(before, after, r.stream)
    ensures ReaderInv(after, r)
  {
  }

  lemma AppliedCallKeepsProducer(redis: Redis, stream: StreamId, p: Producer, ok: bool)
    requires ProducerInv(redis, stream, p)
    requires p.pc.Deleting? || p.pc.Activating? ==> stream !in redis.done
    requires !p.exhausted || Ending(p.pc)
    ensures var redis', p' := CallEffect(redis, stream, p), AfterCall(redis, stream, p, ok);
            ProducerInv(redis', stream, p') && Grows(redis, redis', stream) && (!p'.exhausted || Ending(p'.pc))
  {
    if p.pc.Pushing? {
      hide ProducerInv, AfterCall, CallEffect, Grows;
    }
  }

  lemma LostCallKeepsProducer(redis: Redis, stream: StreamId, p: Producer)
    requires ProducerInv(redis, stream, p) && (!p.exhausted || Ending(p.pc))
    ensures var p' := AfterCall(redis, stream, p, false);
            ProducerInv(redis, stream, p') && (!p'.exhausted || Ending(p'.pc))
  {
  }

  lemma CallKeepsProducer(redis: Redis, stream: StreamId, p: Producer, reply: Reply)
    requires ProducerInv(redis, stream, p)
    requires p.pc.Deleting? || p.pc.Activating? ==> stream !in redis.done
    requires !p.exhausted || Ending(p.pc)
    ensures var redis' := if reply.Applied() then CallEffect(redis, stream, p) else redis;
            var p' := AfterCall(redis, stream, p, reply.Succeeded?);
            && ProducerInv(redis', stream, p')
            && Grows(redis, redis', stream)
            && (!p'.exhausted || Ending(p'.pc))
  {
    hide ProducerInv, AfterCall, CallEffect;
    if reply.Applied() {
      AppliedCallKeepsProducer(redis, stream, p, reply.Succeeded?);
    } else {
      LostCallKeepsProducer(redis, stream, p);
    }
  }

  lemma AbortKeepsProducer(redis: Redis, stream: StreamId, p: Producer, landed: bool)
    requires ProducerInv(redis, stream, p)
    requires !p.exhausted || Ending(p.pc)
    ensures var redis' := if landed then CallEffect(redis, stream, p) else redis;
            var p' := AfterAbort(p);
            && ProducerInv(redis', stream, p')
            && Grows(redis, redis', stream)
            && (!p'.exhausted || Ending(p'.pc))
  {
  }

  /** A producer's call touches no other stream's buffer or done mark. */
  lemma CallIsLocal(redis: Redis, stream: StreamId, p: Producer, other: StreamId)
    requires other != stream
    ensures CallEffect(redis, stream, p).Buffer(other) == redis.Buffer(other)
    ensures other in CallEffect(redis, stream, p).done <==> other in redis.done
  {
  }

  lemma ProducerInvLocal(redis: Redis, redis': Redis, stream: StreamId, p: Producer)
    requires ProducerInv(redis, stream, p) && redis'.Buffer(stream) == redis.Buffer(stream)
    requires stream in redis'.done <==> stream in redis.done
    ensures ProducerInv(redis', stream, p)
  {
  }

  lemma CallKeys(redis: Redis, stream: StreamId, p: Producer)
    ensures CallEffect(redis, stream, p).chunks.Keys <= redis.chunks.Keys + {stream}
    ensures CallEffect(redis, stream, p).done <= redis.done + {stream}
  {
  }

  lemma ProducerStepKeepsInv(st: State, stream: StreamId, redis': Redis, p': Producer)
    requires Inv(st) && stream in st.producers
    requires redis' == st.redis || redis' == CallEffect(st.redis, stream, st.producers[stream])
    requires ProducerInv(redis', stream, p') && Grows(st.redis, redis', stream)
    requires !p'.exhausted || Ending(p'.pc)
    ensures Inv(State(redis', st.producers[stream := p'], st.readers))
    ensures forall s :: Grows(st.redis, redis', s)
  {
    hide ProducerInv, ReaderInv, CallEffect;
    var p := st.producers[stream];
    CallKeys(st.redis, stream, p);
    forall s ensures Grows(st.redis, redis', s) {
      if s != stream { CallIsLocal(st.redis, stream, p, s); }
    }
    var st' := State(redis', st.producers[stream := p'], st.readers);
    forall s | s in st'.producers ensures ProducerInv(redis', s, st'.producers[s]) {
      if s != stream {
        CallIsLocal(st.redis, stream, p, s);
        ProducerInvLocal(st.redis, redis', s, st.producers[s]);
      }
    }
    forall r | r in st'.readers ensures ReaderInv(redis', st'.readers[r]) {
      ReaderInvGrows(st.redis, redis', st.readers[r]);
    }
  }

  lemma ReaderStepKeepsInv(st: State, reader: ReaderId, r': Reader)
    requires Inv(st) && ReaderInv(st.redis, r')
    ensures Inv(st.(readers := st.readers[reader := r']))
  {
  }

  lemma ReaderStepKeepsReader(redis: Redis, r: Reader, step: Step)
    requires ReaderInv(redis, r)
    requires IsReaderStep(step)
    ensures ReaderInv(redis, ReaderStep(redis, r, step))
  {
    if r.pc.Handing? {
      if r.pc.batch == [] {
        assert r.yielded + r.pc.batch == r.yielded;
      } else {
        assert r.yielded + [r.pc.batch[0]] + r.pc.batch[1..] == r.yielded + r.pc.batch;
      }
    }
  }

  predicate IsReaderStep(step: Step) {
    step.ReaderCall? || step.Hand? || step.EndPoll? || step.Leave?
  }

  lemma ProducerMovesKeepInv(st: State, step: Step)
    requires Inv(st)
    requires step.Produce? || step.Exhaust? || step.Deliver?
    ensures Inv(Next(st, step)) && Next(st, step).redis == st.redis
  {
    if step.stream in st.producers {
      var p := st.producers[step.stream];
      assert ProducerInv(st.redis, step.stream, p);
      if if step.Deliver? then p.pc.Yielding? else p.pc.Pulling? {
        ProducerStepKeepsInv(st, step.stream, st.redis, Next(st, step).producers[step.stream]);
      }
    }
  }

  lemma ProducerCallsKeepInv(st: State, step: Step)
    requires Inv(st)
    requires step.ProducerCall? || step.Abort?
    ensures Inv(Next(st, step))
    ensures forall s :: Grows(st.redis, Next(st, step).redis, s)
  {
    if step.stream in st.producers {
      var p := st.producers[step.stream];
      assert ProducerInv(st.redis, step.stream, p);
      var st' := Next(st, step);
      if step.ProducerCall? {
        CallKeepsProducer(st.redis, step.stream, p, step.reply);
      } else {
        AbortKeepsProducer(st.redis, step.stream, p, step.landed);
      }
      ProducerStepKeepsInv(st, step.stream, st'.redis, st'.producers[step.stream]);
    }
  }

  /** Every step keeps the invariant, and no step of anybody shortens a buffer or changes it after done. */
  lemma StepKeepsInv(st: State, step: Step)
    requires Inv(st)
    ensures Inv(Next(st, step))
    ensures forall s :: Grows(st.redis, Next(st, step).redis, s)
  {
    match step
    case Open(stream, chat) =>
    case ProducerCall(_, _) => ProducerCallsKeepInv(st, step);
    case Abort(_, _) => ProducerCallsKeepInv(st, step);
    case Produce(_, _) => ProducerMovesKeepInv(st, step);
    case Exhaust(_) => ProducerMovesKeepInv(st, step);
    case Deliver(_) => ProducerMovesKeepInv(st, step);
    case Follow(reader, chat, target) =>
      ReaderStepKeepsInv(st, reader, Reader(chat, target, PollActive, 0, []));
    case _ =>
      if step.reader in st.readers {
        var r := st.readers[step.reader];
        assert ReaderInv(st.redis, r);
        ReaderStepKeepsReader(st.redis, r, step);
        ReaderStepKeepsInv(st, step.reader, ReaderStep(st.redis, r, step));
      }
  }

  // ---- Safety over all runs ----

  lemma {:induction false} RunKeepsInv(st: State, steps: seq<Step>)
    requires Inv(st)
    ensures Inv(Run(st, steps))
    ensures forall s :: Grows(st.redis, Run(st, steps).redis, s)
    decreases steps
  {
    if steps != [] {
      var mid := Next(st, steps[0]);
      StepKeepsInv(st, steps[0]);
      RunKeepsInv(mid, steps[1..]);
      forall s ensures Grows(st.redis, Run(st, steps).redis, s) {
        assert Grows(st.redis, mid.redis, s) && Grows(mid.redis, Run(mid, steps[1..]).redis, s);
      }
    }
  }

  /** In every interleaving, what a reader has yielded is a prefix of what its stream's source has
      produced: no gap, no repeat, nothing from another stream. */
  lemma ReaderYieldsPrefixOfSource(steps: seq<Step>, reader: ReaderId)
    requires reader in Run(Initial, steps).readers
    ensures var st := Run(Initial, steps);
            var r := st.readers[reader];
            r.yielded <= if r.stream in st.producers then st.producers[r.stream].produced else []
  {
    RunKeepsInv(Initial, steps);
    var st := Run(Initial, steps);
    var r := st.readers[reader];
    assert ReaderInv(st.redis, r);
    if r.stream in st.producers {
      assert ProducerInv(st.redis, r.stream, st.producers[r.stream]);
    }
  }

  /** Whatever Redis does, capture hands on what the source produced, in order and at most one chunk
      behind; a source that ended by itself has been handed on completely. */
  lemma CaptureYieldsTheSource(steps: seq<Step>, stream: StreamId)
    requires stream in Run(Initial, steps).producers
    ensures var p := Run(Initial, steps).producers[stream];
            && p.yielded <= p.produced
            && |p.produced| <= |p.yielded| + 1
            && (p.pc.Pulling? || p.exhausted ==> p.yielded == p.produced)
  {
    RunKeepsInv(Initial, steps);
    var st := Run(Initial, steps);
    assert ProducerInv(st.redis, stream, st.producers[stream]);
  }

  /** A reader that stopped because it saw `done` holds the complete buffer, no later step can change
      that buffer, and when start and every append succeeded it is everything the source produced. */
  lemma SawDoneMeansComplete(steps: seq<Step>, more: seq<Step>, reader: ReaderId)
    requires reader in Run(Initial, steps).readers
    requires Run(Initial, steps).readers[reader].pc == Stopped(SawDone)
    ensures var st := Run(Initial, steps);
            var r := st.readers[reader];
            && r.stream in st.producers
            && r.yielded == st.redis.Buffer(r.stream) == Run(st, more).redis.Buffer(r.stream)
            && (st.producers[r.stream].exhausted && st.producers[r.stream].persisted ==>
                  r.yielded == st.producers[r.stream].produced == st.producers[r.stream].yielded)
  {
    RunKeepsInv(Initial, steps);
    var st := Run(Initial, steps);
    var r := st.readers[reader];
    assert ReaderInv(st.redis, r);
    assert ProducerInv(st.redis, r.stream, st.producers[r.stream]);
    RunKeepsInv(st, more);
    assert Grows(st.redis, Run(st, more).redis, r.stream);
  }

  // ---- When a reader that saw done has everything ----

  /** A Redis call of the producer is under way. */
  predicate CallPending(pc: ProducerPc) {
    || pc.Deleting? || pc.Activating? || pc.Pushing? || pc.Expiring?
    || pc.SettingDone? || pc.CheckingActive? || pc.RefreshingActive?
  }

  /** A call of the stream's producer raises. */
  predicate Fails(st: State, step: Step, stream: StreamId) {
    && step.ProducerCall? && step.stream == stream && !step.reply.Succeeded?
    && stream in st.producers && CallPending(st.producers[stream].pc)
  }

  /** A step after which some chunk of the stream is missing from its buffer for good: an RPUSH that does not
      take effect, or a chunk produced when an earlier call of the stream has raised. */
  predicate Loses(st: State, step: Step, stream: StreamId, failed: bool) {
    && stream in st.producers
    && var pc := st.producers[stream].pc;
       match step
       case ProducerCall(s, reply) => s == stream && pc.Pushing? && !reply.Applied()
       case Abort(s, landed) => s == stream && pc.Pushing? && !landed
       case Produce(s, _) => s == stream && pc.Pulling? && failed
       case _ => false
  }

  /** Whether the steps lose a chunk; `failed` says that a call of the stream has raised before them. */
  predicate Lost(st: State, steps: seq<Step>, stream: StreamId, failed: bool := false)
    decreases steps
  {
    steps != [] &&
    (Loses(st, steps[0], stream, failed)
     || Lost(Next(st, steps[0]), steps[1..], stream, failed || Fails(st, steps[0], stream)))
  }

  /** While chunks come, capture persists them exactly if none of its calls has raised. After a loss the
      buffer stays behind the source and nothing is appended any more; without one it is what the source has
      produced, up to a chunk on its way. */
  ghost predicate KeptInv(redis: Redis, stream: StreamId, p: Producer, failed: bool, lost: bool) {
    var buffer := redis.Buffer(stream);
    && (if p.pc.Deleting? || p.pc.Activating? then !failed else Ending(p.pc) || p.persisted == !failed)
    && if lost then |buffer| < |p.produced| && (Ending(p.pc) || !p.persisted)
       else buffer == p.produced || p.pc.Pushing?
  }

  ghost predicate StreamKept(st: State, stream: StreamId, failed: bool, lost: bool) {
    if stream in st.producers then KeptInv(st.redis, stream, st.producers[stream], failed, lost) else !failed && !lost
  }

  lemma CallKept(redis: Redis, stream: StreamId, p: Producer, reply: Reply, failed: bool, lost: bool)
    requires ProducerInv(redis, stream, p) && KeptInv(redis, stream, p, failed, lost)
    ensures KeptInv(if reply.Applied() then CallEffect(redis, stream, p) else redis, stream,
                    AfterCall(redis, stream, p, reply.Succeeded?),
                    failed || (CallPending(p.pc) && !reply.Succeeded?), lost || (p.pc.Pushing? && !reply.Applied()))
  {
  }

  lemma AbortKept(redis: Redis, stream: StreamId, p: Producer, landed: bool, failed: bool, lost: bool)
    requires ProducerInv(redis, stream, p) && KeptInv(redis, stream, p, failed, lost)
    ensures KeptInv(if landed then CallEffect(redis, stream, p) else redis, stream, AfterAbort(p), failed,
                    lost || (p.pc.Pushing? && !landed))
  {
  }

  lemma ProducerStepKept(st: State, step: Step, stream: StreamId, failed: bool, lost: bool)
    requires Inv(st) && StreamKept(st, stream, failed, lost)
    requires step.ProducerCall? || step.Abort?
    ensures StreamKept(Next(st, step), stream, failed || Fails(st, step, stream), lost || Loses(st, step, stream, failed))
  {
    hide CallEffect, AfterCall, AfterAbort;
    if stream in st.producers {
      var p := st.producers[stream];
      assert ProducerInv(st.redis, stream, p);
      if step.stream != stream {
        hide ProducerInv;
        if step.stream in st.producers { CallIsLocal(st.redis, step.stream, st.producers[step.stream], stream); }
      } else if step.ProducerCall? {
        CallKept(st.redis, stream, p, step.reply, failed, lost);
      } else {
        AbortKept(st.redis, stream, p, step.landed, failed, lost);
      }
    }
  }

  lemma OtherStepKept(st: State, step: Step, stream: StreamId, failed: bool, lost: bool)
    requires Inv(st) && StreamKept(st, stream, failed, lost)
    requires !step.ProducerCall? && !step.Abort?
    ensures StreamKept(Next(st, step), stream, failed || Fails(st, step, stream), lost || Loses(st, step, stream, failed))
  {
    hide ReaderInv, ReaderStep;
    if stream in st.producers { assert ProducerInv(st.redis, stream, st.producers[stream]); }
  }

  lemma StepKept(st: State, step: Step, stream: StreamId, failed: bool, lost: bool)
    requires Inv(st) && StreamKept(st, stream, failed, lost)
    ensures StreamKept(Next(st, step), stream, failed || Fails(st, step, stream), lost || Loses(st, step, stream, failed))
  {
    hide Inv, StreamKept, Next;
    if step.ProducerCall? || step.Abort? {
      ProducerStepKept(st, step, stream, failed, lost);
    } else {
      OtherStepKept(st, step, stream, failed, lost);
    }
  }

  lemma {:induction false} RunKept(st: State, steps: seq<Step>, stream: StreamId, failed: bool, lost: bool)
    returns (failed': bool)
    requires Inv(st) && StreamKept(st, stream, failed, lost)
    ensures StreamKept(Run(st, steps), stream, failed', lost || Lost(st, steps, stream, failed))
    decreases steps
  {
    failed' := failed;
    if steps != [] {
      StepKept(st, steps[0], stream, failed, lost);
      StepKeepsInv(st, steps[0]);
      failed' := RunKept(Next(st, steps[0]), steps[1..], stream, failed || Fails(st, steps[0], stream),
                         lost || Loses(st, steps[0], stream, failed));
    }
  }

  /** In every run, a reader that stopped because it saw `done` has everything the source produced if and
      only if no chunk was lost. A failed EXPIRE, or an RPUSH that raised after taking effect, loses
      nothing unless a further chunk follows. */
  lemma CompleteIffNothingLost(steps: seq<Step>, reader: ReaderId)
    requires reader in Run(Initial, steps).readers
    requires Run(Initial, steps).readers[reader].pc == Stopped(SawDone)
    ensures var st := Run(Initial, steps);
            var r := st.readers[reader];
            && r.stream in st.producers
            && (r.yielded == st.producers[r.stream].produced <==> !Lost(Initial, steps, r.stream))
  {
    RunKeepsInv(Initial, steps);
    var st := Run(Initial, steps);
    var r := st.readers[reader];
    assert ReaderInv(st.redis, r);
    assert ProducerInv(st.redis, r.stream, st.producers[r.stream]);
    var _ := RunKept(Initial, steps, r.stream, false, false);
  }

  // ---- Runs without failures ----

  /** Every Redis call of the stream's producer succeeds, and nobody cancels it. */
  predicate Unfailing(steps: seq<Step>, stream: StreamId) {
    forall i :: 0 <= i < |steps| ==>
      && (steps[i].ProducerCall? && steps[i].stream == stream ==> steps[i].reply.Succeeded?)
      && (steps[i].Abort? ==> steps[i].stream != stream)
  }

  lemma {:induction false} UnfailingLosesNothing(st: State, steps: seq<Step>, stream: StreamId)
    requires Unfailing(steps, stream)
    ensures !Lost(st, steps, stream)
    decreases steps
  {
    if steps != [] {
      forall i | 0 <= i < |steps[1..]| ensures steps[1..][i] == steps[i + 1] {}
      assert !Fails(st, steps[0], stream) && !Loses(st, steps[0], stream, false);
      UnfailingLosesNothing(Next(st, steps[0]), steps[1..], stream);
    }
  }

  /** If every call of a stream's producer succeeds, then once the source has ended the buffer holds everything
      it produced, and so does every reader that stops on `done`, however readers and other streams interleave
      and fail. */
  lemma UnfailingRunIsComplete(steps: seq<Step>, stream: StreamId, reader: ReaderId)
    requires Unfailing(steps, stream) && stream in Run(Initial, steps).producers
    ensures var st := Run(Initial, steps);
            var p := st.producers[stream];
            && (p.exhausted ==> st.redis.Buffer(stream) == p.produced == p.yielded)
            && ((reader in st.readers && st.readers[reader].stream == stream
                 && st.readers[reader].pc == Stopped(SawDone)) ==> st.readers[reader].yielded == p.produced)
  {
    RunKeepsInv(Initial, steps);
    var st := Run(Initial, steps);
    var p := st.producers[stream];
    assert ProducerInv(st.redis, stream, p);
    UnfailingLosesNothing(Initial, steps, stream);
    var _ := RunKept(Initial, steps, stream, false, false);
    if reader in st.readers && st.readers[reader].stream == stream && st.readers[reader].pc == Stopped(SawDone) {
      CompleteIffNothingLost(steps, reader);
    }
  }

  // ---- Every capture that started sets done ----

  /** The stream is started and closed without a failure, whatever its appends do, and its producer is cancelled,
      if at all, while chunks come. */
  predicate Orderly(st: State, steps: seq<Step>, stream: StreamId)
    decreases steps
  {
    steps == [] || (OrderlyNow(st, steps[0], stream) && Orderly(Next(st, steps[0]), steps[1..], stream))
  }

  predicate OrderlyNow(st: State, step: Step, stream: StreamId) {
    (step.ProducerCall? || step.Abort?) && step.stream == stream && stream in st.producers ==>
      var pc := st.producers[stream].pc;
      || pc.Pushing? || pc.Expiring?
      || (step.ProducerCall? && step.reply.Succeeded?) || (step.Abort? && (pc.Pulling? || pc.Yielding?))
  }

  ghost predicate DoneInv(st: State, stream: StreamId) {
    stream in st.producers ==>
      var p := st.producers[stream];
      && (p.pc.Deleting? || p.pc.Activating? || p.started)
      && (p.PastAppends() ==> stream in st.redis.done)
  }

  lemma {:induction false} OrderlyKeepsDone(st: State, steps: seq<Step>, stream: StreamId)
    requires Inv(st) && DoneInv(st, stream) && Orderly(st, steps, stream)
    ensures DoneInv(Run(st, steps), stream)
    decreases steps
  {
    if steps != [] {
      StepKeepsInv(st, steps[0]);
      assert Grows(st.redis, Next(st, steps[0]).redis, stream);
      OrderlyStep(st, steps[0], stream);
      OrderlyKeepsDone(Next(st, steps[0]), steps[1..], stream);
    }
  }

  lemma OrderlyStep(st: State, step: Step, stream: StreamId)
    requires DoneInv(st, stream) && Grows(st.redis, Next(st, step).redis, stream)
    requires OrderlyNow(st, step, stream)
    ensures DoneInv(Next(st, step), stream)
  {
  }

  /** The finally block: a capture that has come to its end, because its source ended or raised or its consumer
      went away, has set `done`, so its readers come to an end. */
  lemma ClosedMeansDone(steps: seq<Step>, stream: StreamId)
    requires Orderly(Initial, steps, stream) && stream in Run(Initial, steps).producers
    requires Run(Initial, steps).producers[stream].pc.Closed?
    ensures stream in Run(Initial, steps).redis.done
  {
    OrderlyKeepsDone(Initial, steps, stream);
  }

  // ---- Capture is never held up for long ----

  /** How many Redis calls a producer has at most before it hands on its chunk, waits for the source or ends. */
  function CallsLeft(pc: ProducerPc): nat {
    match pc
    case Deleting => 2
    case Activating => 1
    case Pushing(_) => 2
    case Expiring(_) => 1
    case SettingDone => 3
    case CheckingActive => 2
    case RefreshingActive => 1
    case _ => 0
  }

  /** Every call that returns, with whatever reply, brings its producer nearer to that; a failed one ends the
      start, the append or the closing at once, and the chunk of an append is kept for the consumer. */
  lemma CallsProgress(st: State, stream: StreamId, reply: Reply)
    requires stream in st.producers && CallPending(st.producers[stream].pc)
    ensures var p, st' := st.producers[stream], Next(st, ProducerCall(stream, reply));
            && stream in st'.producers
            && var pc := st'.producers[stream].pc;
               && CallsLeft(pc) < CallsLeft(p.pc)
               && (CallsLeft(pc) == 0 || reply == Succeeded)
               && (p.pc.Deleting? || p.pc.Activating? ==> pc.Activating? || pc.Pulling?)
               && (p.pc.Pushing? || p.pc.Expiring? ==>
                     (pc.Expiring? || pc.Yielding?) && pc.chunk == p.pc.chunk)
               && (CallsLeft(pc) == 0 && Ending(p.pc) ==> pc.Closed?)
  {
  }

  // ---- Starting and taking over ----

  /** The step makes the stream the active one of the chat: its SET takes effect. */
  predicate Starts(st: State, step: Step, chat: ChatId) {
    && (step.ProducerCall? || step.Abort?) && step.stream in st.producers
    && st.producers[step.stream].chat == chat && st.producers[step.stream].pc.Activating?
    && (if step.Abort? then step.landed else step.reply.Applied())
  }

  /** The stream that started last in a chat. */
  function Latest(st: State, steps: seq<Step>, chat: ChatId, before: Option<StreamId> := None): Option<StreamId>
    decreases steps
  {
    if steps == [] then before
    else Latest(Next(st, steps[0]), steps[1..], chat, if Starts(st, steps[0], chat) then Some(steps[0].stream) else before)
  }

  predicate ActiveIs(st: State, chat: ChatId, stream: Option<StreamId>) {
    if chat in st.redis.active then stream == Some(st.redis.active[chat]) else stream == None
  }

  /** The active stream of a chat is always the one whose start took effect last. */
  lemma {:induction false} ActiveIsLatest(st: State, steps: seq<Step>, chat: ChatId, before: Option<StreamId>)
    requires ActiveIs(st, chat, before)
    ensures ActiveIs(Run(st, steps), chat, Latest(st, steps, chat, before))
    decreases steps
  {
    if steps != [] {
      ActiveIsLatest(Next(st, steps[0]), steps[1..], chat,
                     if Starts(st, steps[0], chat) then Some(steps[0].stream) else before);
    }
  }

  /** Whatever an old stream of this id left behind, a capture that starts clears it before it becomes the active
      one of its chat, with two calls. */
  lemma StartsAfresh(st: State, stream: StreamId, chat: ChatId)
    requires stream !in st.producers
    ensures var call, begun := ProducerCall(stream, Succeeded), Next(st, Open(stream, chat));
            && var cleared := Next(begun, call);
            && begun.redis == st.redis && cleared.redis.active == st.redis.active
            && cleared.redis.Buffer(stream) == [] && stream !in cleared.redis.done
            && var started := Next(cleared, call);
            && started.redis == cleared.redis.(active := cleared.redis.active[chat := stream])
            && stream in started.producers
            && var p := started.producers[stream];
               p.chat == chat && p.pc == Pulling && p.started && p.persisted && !p.exhausted && p.produced == p.yielded == []
  {
  }

  /** A call or the task of the stream's producer fails before the stream has started. */
  predicate StartFails(st: State, step: Step, stream: StreamId) {
    && (step.ProducerCall? || step.Abort?) && step.stream == stream && stream in st.producers
    && (st.producers[stream].pc.Deleting? || st.producers[stream].pc.Activating?)
    && !(step.ProducerCall? && step.reply.Succeeded?)
  }

  predicate StartFailed(st: State, steps: seq<Step>, stream: StreamId)
    decreases steps
  {
    steps != [] && (StartFails(st, steps[0], stream) || StartFailed(Next(st, steps[0]), steps[1..], stream))
  }

  /** The stream's producer runs without being persisted. */
  ghost predicate Unstored(st: State, stream: StreamId) {
    && stream in st.producers && stream !in st.redis.done && st.redis.Buffer(stream) == []
    && var p := st.producers[stream];
       && !p.started && !p.persisted
       && (p.pc.Pulling? || p.pc.Yielding? || p.pc.Closed?)
  }

  lemma {:induction false} StaysUnstored(st: State, steps: seq<Step>, stream: StreamId)
    requires Unstored(st, stream)
    ensures Unstored(Run(st, steps), stream)
    decreases steps
  {
    if steps != [] {
      hide Next, Unstored;
      StepStaysUnstored(st, steps[0], stream);
      StaysUnstored(Next(st, steps[0]), steps[1..], stream);
    }
  }

  lemma StepStaysUnstored(st: State, step: Step, stream: StreamId)
    requires Unstored(st, stream)
    ensures Unstored(Next(st, step), stream)
  {
    hide ReaderStep, AfterReaderCall;
    if (step.ProducerCall? || step.Abort?) && step.stream in st.producers {
      hide AfterAbort, AfterCall, CallEffect;
      if step.stream == stream {
        UnstoredCall(st, step, stream);
      } else {
        CallIsLocal(st.redis, step.stream, st.producers[step.stream], stream);
      }
    }
  }

  lemma UnstoredCall(st: State, step: Step, stream: StreamId)
    requires Unstored(st, stream) && (step.ProducerCall? || step.Abort?) && step.stream == stream
    ensures Unstored(Next(st, step), stream)
  {
  }

  /** A capture whose start failed keeps nothing and never sets `done`. */
  lemma {:induction false} FailedStartStoresNothing(st: State, steps: seq<Step>, stream: StreamId)
    requires Inv(st) && StartFailed(st, steps, stream)
    ensures stream !in Run(st, steps).redis.done && Run(st, steps).redis.Buffer(stream) == []
    decreases steps
  {
    hide Grows;
    if StartFails(st, steps[0], stream) {
      assert ProducerInv(st.redis, stream, st.producers[stream]);
      StaysUnstored(Next(st, steps[0]), steps[1..], stream);
    } else {
      StepKeepsInv(st, steps[0]);
      FailedStartStoresNothing(Next(st, steps[0]), steps[1..], stream);
    }
  }

  /** Another capture has taken the chat from a stream that has started. */
  ghost predicate Overtaken(st: State, stream: StreamId) {
    && stream in st.producers
    && var p := st.producers[stream];
       && !p.pc.Deleting? && !p.pc.Activating? && !p.pc.RefreshingActive?
       && !(p.chat in st.redis.active && st.redis.active[p.chat] == stream)
  }

  /** From then on it does not refresh the active key of the chat. */
  lemma {:induction false} OvertakenNeverRefreshes(st: State, steps: seq<Step>, stream: StreamId)
    requires Overtaken(st, stream)
    ensures Overtaken(Run(st, steps), stream)
    decreases steps
  {
    if steps != [] {
      hide Next, Overtaken;
      StaysOvertaken(st, steps[0], stream);
      OvertakenNeverRefreshes(Next(st, steps[0]), steps[1..], stream);
    }
  }

  lemma StaysOvertaken(st: State, step: Step, stream: StreamId)
    requires Overtaken(st, stream)
    ensures Overtaken(Next(st, step), stream)
  {
    hide ReaderStep, AfterReaderCall;
    if step.ProducerCall? || step.Abort? {
      OvertakenAtCall(st, step, stream);
    }
  }

  lemma OvertakenAtCall(st: State, step: Step, stream: StreamId)
    requires Overtaken(st, stream) && (step.ProducerCall? || step.Abort?)
    ensures Overtaken(Next(st, step), stream)
  {
    if step.stream in st.producers && step.stream != stream {
      hide AfterAbort, AfterCall;
    }
  }

  /** A stream that is still the active one refreshes the key after setting `done`. */
  lemma ActiveRefreshes(st: State, stream: StreamId)
    requires stream in st.producers && st.producers[stream].pc.SettingDone?
    requires ActiveIs(st, st.producers[stream].chat, Some(stream))
    ensures var call := ProducerCall(stream, Succeeded);
            && var refreshing := Next(Next(st, call), call);
            && stream in refreshing.producers && refreshing.producers[stream].pc.RefreshingActive?
            && Next(refreshing, call).producers[stream].pc.Closed?
  {
  }

  // ---- How a reader ends ----

  lemma {:induction false} StoppedStays(st: State, steps: seq<Step>, reader: ReaderId)
    requires reader in st.readers && st.readers[reader].pc.Stopped?
    ensures reader in Run(st, steps).readers && Run(st, steps).readers[reader] == st.readers[reader]
    decreases steps
  {
    if steps != [] { StoppedStays(Next(st, steps[0]), steps[1..], reader); }
  }

  /** A reader whose call fails, whose consumer leaves or whose stream is no longer the active one of the chat
      ends for good, with what it has yielded; with its stream active it goes on to read. */
  lemma ReaderEnds(st: State, steps: seq<Step>, reader: ReaderId)
    requires reader in st.readers && !st.readers[reader].pc.Stopped?
    ensures var r, left := st.readers[reader], Run(Next(st, Leave(reader)), steps);
            reader in left.readers && left.readers[reader] == r.(pc := Stopped(Abandoned))
    ensures var r, failed := st.readers[reader], Run(Next(st, ReaderCall(reader, true)), steps);
            !r.pc.Handing? ==> reader in failed.readers && failed.readers[reader] == r.(pc := Stopped(RedisFailed))
    ensures var r, next := st.readers[reader], Next(st, ReaderCall(reader, false));
            r.pc.PollActive? ==>
              if ActiveIs(st, r.chat, Some(r.stream))
              then reader in next.readers && next.readers[reader] == r.(pc := PollDone)
              else reader in Run(next, steps).readers
                   && Run(next, steps).readers[reader] == r.(pc := Stopped(Superseded))
  {
    StoppedStays(Next(st, Leave(reader)), steps, reader);
    var r, failed, next := st.readers[reader], Next(st, ReaderCall(reader, true)), Next(st, ReaderCall(reader, false));
    if !r.pc.Handing? { StoppedStays(failed, steps, reader); }
    if r.pc.PollActive? && !ActiveIs(st, r.chat, Some(r.stream)) { StoppedStays(next, steps, reader); }
  }

  // ---- A run that loses a chunk ----

  /** The condition on the appends is needed: after one failed append `done` is still set, and a
      reader stops with a proper prefix. */
  lemma FailedAppendTruncates() returns (steps: seq<Step>)
    ensures var st := Run(Initial, steps);
            && 0 in st.readers && 0 in st.producers
            && st.readers[0].pc == Stopped(SawDone)
            && st.producers[0].exhausted
            && st.readers[0].yielded == [] && st.producers[0].produced == ["a"]
  {
    var start := [Open(0, 0), ProducerCall(0, Succeeded), ProducerCall(0, Succeeded)];
    var append := [Produce(0, "a"), ProducerCall(0, FailedUnapplied), Deliver(0)];
    var finish := [Exhaust(0), ProducerCall(0, Succeeded), Follow(0, 0, 0)];
    var poll := [ReaderCall(0, false), ReaderCall(0, false), ReaderCall(0, false)];
    var end := [EndPoll(0)];
    var st1 := StartRun(start);
    var st2 := AppendRun(st1, append);
    var st3 := FinishRun(st2, finish);
    var st4 := PollRun(st3, poll);
    steps := start + (append + (finish + (poll + end)));
    RunAppend(Initial, start, append + (finish + (poll + end)));
    RunAppend(st1, append, finish + (poll + end));
    RunAppend(st2, finish, poll + end);
    RunAppend(st3, poll, end);
    assert Run(st4, end) == Next(st4, EndPoll(0)) by { assert end[1..] == []; }
  }

  const FailedRedis: Redis := Redis(map[0 := 0], map[], {})
  const FailedProducer: Producer := Producer(0, Pulling, ["a"], ["a"], true, false, false)

  lemma StartRun(steps: seq<Step>) returns (st: State)
    requires steps == [Open(0, 0), ProducerCall(0, Succeeded), ProducerCall(0, Succeeded)]
    ensures st == Run(Initial, steps)
    ensures st == State(FailedRedis, map[0 := FailedProducer.(produced := [], yielded := [], persisted := true)], map[])
  {
    RunThree(Initial, steps);
    st := Run(Initial, steps);
  }

  lemma AppendRun(st: State, steps: seq<Step>) returns (st': State)
    requires st == State(FailedRedis, map[0 := FailedProducer.(produced := [], yielded := [], persisted := true)], map[])
    requires steps == [Produce(0, "a"), ProducerCall(0, FailedUnapplied), Deliver(0)]
    ensures st' == Run(st, steps)
    ensures st' == State(FailedRedis, map[0 := FailedProducer], map[])
  {
    RunThree(st, steps);
    assert [] + ["a"] == ["a"];
    st' := Run(st, steps);
  }

  lemma FinishRun(st: State, steps: seq<Step>) returns (st': State)
    requires st == State(FailedRedis, map[0 := FailedProducer], map[])
    requires steps == [Exhaust(0), ProducerCall(0, Succeeded), Follow(0, 0, 0)]
    ensures st' == Run(st, steps)
    ensures st' == State(FailedRedis.(done := {0}),
                         map[0 := FailedProducer.(pc := CheckingActive, exhausted := true)],
                         map[0 := Reader(0, 0, PollActive, 0, [])])
  {
    RunThree(st, steps);
    st' := Run(st, steps);
  }

  lemma PollRun(st: State, steps: seq<Step>) returns (st': State)
    requires st.redis == FailedRedis.(done := {0})
    requires st.readers == map[0 := Reader(0, 0, PollActive, 0, [])]
    requires steps == [ReaderCall(0, false), ReaderCall(0, false), ReaderCall(0, false)]
    ensures st' == Run(st, steps)
    ensures st' == st.(readers := map[0 := Reader(0, 0, Handing(true, []), 0, [])])
  {
    RunThree(st, steps);
    st' := Run(st, steps);
  }

  lemma {:induction false} RunAppend(st: State, a: seq<Step>, b: seq<Step>)
    ensures Run(st, a + b) == Run(Run(st, a), b)
    decreases a
  {
    if a == [] {
      assert a + b == b;
    } else {
      assert (a + b)[1..] == a[1..] + b;
      RunAppend(Next(st, a[0]), a[1..], b);
    }
  }

  lemma RunTwo(st: State, steps: seq<Step>)
    requires |steps| == 2
    ensures Run(st, steps) == Next(Next(st, steps[0]), steps[1])
  {
    assert Run(st, steps) == Run(Next(st, steps[0]), steps[1..]);
  }

  lemma RunThree(st: State, steps: seq<Step>)
    requires |steps| == 3
    ensures Run(st, steps) == Next(Next(Next(st, steps[0]), steps[1]), steps[2])
  {
    assert Run(st, steps) == Run(Next(st, steps[0]), steps[1..]);
    RunTwo(Next(st, steps[0]), steps[1..]);
  }

  // ---- Readers stop soon after done ----

  /** An upper bound on the steps a reader can still take once its stream is done. */
  ghost function Remaining(redis: Redis, r: Reader): nat
    requires ReaderInv(redis, r)
  {
    var left := |redis.Buffer(r.stream)| - |r.yielded|;
    match r.pc
    case PollActive => 4 + left
    case PollDone => 3 + left
    case PollChunks(sawDone) => (if sawDone then 2 else 6) + left
    case Handing(sawDone, _) => (if sawDone then 1 else 5) + left
    case Stopped(_) => 0
  }

  predicate Moves(st: State, step: Step, reader: ReaderId) {
    && IsReaderStep(step) && step.reader == reader && reader in st.readers
    && ReaderStep(st.redis, st.readers[reader], step) != st.readers[reader]
  }

  /** The step with which a poll of this reader begins: a successful GET active. */
  predicate StartsPoll(st: State, step: Step, reader: ReaderId) {
    && Moves(st, step, reader)
    && ReaderStep(st.redis, st.readers[reader], step).pc.PollDone?
  }

  function CountMoves(st: State, steps: seq<Step>, reader: ReaderId): nat
    decreases steps
  {
    if steps == [] then 0
    else (if Moves(st, steps[0], reader) then 1 else 0) + CountMoves(Next(st, steps[0]), steps[1..], reader)
  }

  function CountPolls(st: State, steps: seq<Step>, reader: ReaderId): nat
    decreases steps
  {
    if steps == [] then 0
    else (if StartsPoll(st, steps[0], reader) then 1 else 0) + CountPolls(Next(st, steps[0]), steps[1..], reader)
  }

  /** How many more polls a reader can begin once its stream is done. */
  function PollsLeft(r: Reader): nat {
    match r.pc
    case PollActive => 1
    case PollChunks(sawDone) => if sawDone then 0 else 1
    case Handing(sawDone, _) => if sawDone then 0 else 1
    case _ => 0
  }

  lemma DoneReaderStep(redis: Redis, r: Reader, step: Step)
    requires ReaderInv(redis, r) && r.stream in redis.done && IsReaderStep(step)
    ensures var r' := ReaderStep(redis, r, step);
            && ReaderInv(redis, r')
            && r'.stream == r.stream && r'.chat == r.chat
            && (r' != r ==> Remaining(redis, r') < Remaining(redis, r))
            && PollsLeft(r') + (if r' != r && r'.pc.PollDone? then 1 else 0) <= PollsLeft(r)
  {
    ReaderStepKeepsReader(redis, r, step);
  }

  /** Other actors' steps leave a reader's record alone. */
  lemma OthersLeaveReader(st: State, step: Step, reader: ReaderId)
    requires reader in st.readers
    ensures reader in Next(st, step).readers
    ensures Next(st, step).readers[reader] ==
            if IsReaderStep(step) && step.reader == reader
            then ReaderStep(st.redis, st.readers[reader], step) else st.readers[reader]
    ensures IsReaderStep(step) ==> Next(st, step).redis == st.redis
  {
  }

  lemma DoneStep(st: State, step: Step, reader: ReaderId)
    requires Inv(st) && reader in st.readers && st.readers[reader].stream in st.redis.done
    ensures Inv(Next(st, step)) && reader in Next(st, step).readers
    ensures Next(st, step).readers[reader].stream == st.readers[reader].stream
    ensures st.readers[reader].stream in Next(st, step).redis.done
    ensures Next(st, step).redis.Buffer(st.readers[reader].stream) == st.redis.Buffer(st.readers[reader].stream)
    ensures ReaderInv(st.redis, st.readers[reader])
    ensures ReaderInv(Next(st, step).redis, Next(st, step).readers[reader])
    ensures Remaining(Next(st, step).redis, Next(st, step).readers[reader])
            + (if Moves(st, step, reader) then 1 else 0)
            <= Remaining(st.redis, st.readers[reader])
    ensures PollsLeft(Next(st, step).readers[reader]) + (if StartsPoll(st, step, reader) then 1 else 0)
            <= PollsLeft(st.readers[reader])
  {
    StepKeepsInv(st, step);
    OthersLeaveReader(st, step, reader);
    var r := st.readers[reader];
    assert ReaderInv(st.redis, r);
    assert Grows(st.redis, Next(st, step).redis, r.stream);
    if IsReaderStep(step) && step.reader == reader {
      DoneReaderStep(st.redis, r, step);
    } else {
      ReaderInvGrows(st.redis, Next(st, step).redis, r);
    }
  }

  /** Once a stream is done, each of its readers begins at most one further poll (two in all, with the
      one under way) and takes a bounded number of steps, whatever everybody else does. */
  lemma {:induction false} DoneReaderStopsWithinTwoPolls(st: State, steps: seq<Step>, reader: ReaderId)
    requires Inv(st) && reader in st.readers && st.readers[reader].stream in st.redis.done
    ensures ReaderInv(st.redis, st.readers[reader])
    ensures CountPolls(st, steps, reader) <= 1
    ensures CountPolls(st, steps, reader) <= PollsLeft(st.readers[reader])
    ensures var st' := Run(st, steps);
            && reader in st'.readers && ReaderInv(st'.redis, st'.readers[reader])
            && CountMoves(st, steps, reader) + Remaining(st'.redis, st'.readers[reader])
               <= Remaining(st.redis, st.readers[reader])
    decreases steps
  {
    assert ReaderInv(st.redis, st.readers[reader]);
    if steps != [] {
      DoneStep(st, steps[0], reader);
      DoneReaderStopsWithinTwoPolls(Next(st, steps[0]), steps[1..], reader);
    }
  }

  /** A reader that has not stopped always has a step of its own to take, so the bound above makes it stop. */
  function OwnMove(r: Reader, id: ReaderId): Step
    requires !r.pc.Stopped?
  {
    if Calling(r.pc) then ReaderCall(id, false)
    else if r.pc.batch != [] then Hand(id)
    else EndPoll(id)
  }

  /** In every state of the run another stream, or none, is the active one of the reader's chat. */
  predicate TakenOver(st: State, steps: seq<Step>, reader: ReaderId)
    decreases steps
  {
    && (reader in st.readers ==>
          var r := st.readers[reader];
          r.chat !in st.redis.active || st.redis.active[r.chat] != r.stream)
    && (steps == [] || TakenOver(Next(st, steps[0]), steps[1..], reader))
  }

  /** When a later capture has taken over the chat, a reader of the old stream starts no further poll. */
  lemma {:induction false} SupersededReaderStops(st: State, steps: seq<Step>, reader: ReaderId)
    requires TakenOver(st, steps, reader)
    ensures CountPolls(st, steps, reader) == 0
    decreases steps
  {
    if steps != [] { SupersededReaderStops(Next(st, steps[0]), steps[1..], reader); }
  }

  lemma ReaderIsNeverStuck(st: State, reader: ReaderId)
    requires reader in st.readers && !st.readers[reader].pc.Stopped?
    ensures Moves(st, OwnMove(st.readers[reader], reader), reader)
  {
    var r := st.readers[reader];
    if r.pc.Handing? && r.pc.batch != [] {
      assert ReaderStep(st.redis, r, Hand(reader)).index == r.index + 1;
    }
  }

  /** A step that would make a reader stop for any reason but done. */
  predicate Disturbs(st: State, step: Step, reader: ReaderId)
    requires reader in st.readers
  {
    var r := st.readers[reader];
    || step == ReaderCall(reader, true)
    || step == Leave(reader)
    || !(r.chat in st.redis.active && st.redis.active[r.chat] == r.stream)
  }

  ghost predicate Undisturbed(st: State, steps: seq<Step>, reader: ReaderId)
    requires reader in st.readers
    decreases steps
  {
    steps == [] ||
    (&& !Disturbs(st, steps[0], reader)
     && reader in Next(st, steps[0]).readers
     && Undisturbed(Next(st, steps[0]), steps[1..], reader))
  }

  lemma UndisturbedStep(st: State, step: Step, reader: ReaderId)
    requires reader in st.readers && !Disturbs(st, step, reader)
    requires st.readers[reader].pc.Stopped? ==> st.readers[reader].pc.reason.SawDone?
    ensures reader in Next(st, step).readers
    ensures Next(st, step).readers[reader].pc.Stopped? ==> Next(st, step).readers[reader].pc.reason.SawDone?
  {
    OthersLeaveReader(st, step, reader);
  }

  /** Undisturbed, it stops exactly because it saw done, with the complete buffer: after as many own
      moves as `Remaining` allows it cannot be anywhere else. */
  lemma {:induction false} UndisturbedReaderFinishes(st: State, steps: seq<Step>, reader: ReaderId)
    requires Inv(st) && reader in st.readers && st.readers[reader].stream in st.redis.done
    requires st.readers[reader].pc.Stopped? ==> st.readers[reader].pc.reason.SawDone?
    requires Undisturbed(st, steps, reader)
    ensures ReaderInv(st.redis, st.readers[reader])
    ensures var st' := Run(st, steps);
            && reader in st'.readers
            && (st'.readers[reader].pc.Stopped? ==>
                  && st'.readers[reader].pc.reason.SawDone?
                  && st'.readers[reader].yielded == st.redis.Buffer(st.readers[reader].stream))
            && (CountMoves(st, steps, reader) >= Remaining(st.redis, st.readers[reader]) ==>
                  st'.readers[reader].pc.Stopped?)
    decreases steps
  {
    assert ReaderInv(st.redis, st.readers[reader]);
    if steps != [] {
      var next := Next(st, steps[0]);
      DoneStep(st, steps[0], reader);
      UndisturbedStep(st, steps[0], reader);
      UndisturbedReaderFinishes(next, steps[1..], reader);
    }
  }
}

/** The parallel fan-out engine with its block queue and block pool, as a state machine: producers, the ingest
    worker, the stage workers, a flusher and a stopper each take small steps in any interleaving. A step is one
    region under one lock, one atomic operation, or one piece of local work. A ticket is the position of a
    block in the order of successful pushes. */
module FanOutModel {
  import opened Common
  import opened BlockStorage
  import opened FanOutSubmission

  datatype EngineConfig = EngineConfig(stages: StageConfig, parallel: bool, queueCapacity: nat, poolSize: nat)

  /** A producer inside ingestSamples, holding a block it fills or one the queue turned away. */
  datatype Producer = Filling(block: nat) | TurnedAway(block: nat)

  /** How far a pushed block got: waiting, cleared away, popped, offered to the stages,
      processed by the ingest worker itself, or handed to the stages. */
  datatype Phase = Queued | Discarded | Held | Offered | Serial | Fanned

  datatype Ticket = Ticket(block: nat, phase: Phase)

  datatype Worker =
    | Waiting
    | Popped(ticket: nat)                                     // popped, m_processingBlock not yet set
    | Marked(ticket: nat)
    | Submitting(ticket: nat)                                 // context made, in-flight counter raised
    | Skipping(ticket: nat, todo: seq<Task>, held: seq<nat>)  // completing the tasks its submission skipped
    | Stepping(ticket: nat, next: nat)                        // processing the stages itself
    | Releasing(refs: seq<nat>)                               // dropping the references it holds
    | Exited

  datatype StageRun = Idle | Running(ticket: nat) | Finishing(ticket: nat) | Gone

  /** completeFanOutStage in progress: three separate atomic effects. */
  datatype Completion = Done | Subtracting(task: Task) | Recording(ticket: nat) | Leaving(ticket: nat)

  const INGEST: nat := STAGES
  type Runs = r: seq<StageRun> | |r| == STAGES witness [Gone, Gone, Gone, Gone]
  type Completions = c: seq<Completion> | |c| == STAGES + 1 witness [Done, Done, Done, Done, Done]

  /** flush: the drained predicate is a conjunction read left to right; `seen` counts conjuncts found true. */
  datatype Flusher = NotFlushing | Draining(target: nat, seen: nat) | Flushed(target: nat)

  datatype Stopper = NotStopping | QueueShutDown | WorkerJoined | StagesStopping | StagesJoined | Stopped

  datatype Owner = InPool | OfProducer(p: nat) | OfTicket(t: nat)

  /** What happened, kept for stating properties; no step's guard or visible effect reads it. */
  datatype History = History(owner: seq<Owner>, processed: multiset<Task>, skipped: multiset<Task>,
                             recorded: multiset<nat>, live: set<nat>, discarded: nat)

  datatype State = State(cfg: EngineConfig, pool: Pool, producers: map<nat, Producer>, bq: BlockQueue,
                         tickets: seq<Ticket>, worker: Worker, processing: bool, completedPops: nat,
                         queues: Queues, contexts: map<nat, int>, inFlight: int, stopStages: bool,
                         runs: Runs, completions: Completions, clock: int,
                         flusher: Flusher, stopper: Stopper, hist: History)
  {
    function Stages(): nat { cfg.stages.stageCount }
  }

  datatype ProducerAct = Acquire | Exhausted | Push | RefusePush | Abandon
  datatype IngestAct = Pop | Exit | Mark | Begin | Submit(now: int) | Refuse | SerialStage | SerialRecord
                     | TakeSkip | SkipsDone | Release | Finish
  datatype StageAct = Take | Process | DropRef | StageExit
  datatype CompletionAct = Subtract | Record | Leave
  datatype FlushAct = StartFlush | ReadTrue | ReadFalse | EndFlush
  datatype StopAct = Shutdown | JoinWorker | StopStages | JoinStages | EndStop

  /** One step of one actor; completions 0..3 belong to the stage workers and 4 to the ingest worker. */
  datatype Step =
    | ByProducer(p: nat, pact: ProducerAct)
    | ByClear
    | ByIngest(iact: IngestAct)
    | ByStage(k: nat, sact: StageAct)
    | ByCompletion(a: nat, cact: CompletionAct)
    | ByFlusher(fact: FlushAct)
    | ByStopper(tact: StopAct)

  function Init(cfg: EngineConfig): State
    requires cfg.stages.Shaped()
  {
    State(cfg.(stages := Normalize(cfg.stages)), Pool(Positions(0, cfg.poolSize), 0, 0, 0), map[],
          BlockQueue([], 0, 0, false), [], Waiting, false, 0,
          [[], [], [], []], map[], 0, false,
          seq(STAGES, k => if cfg.parallel && k < cfg.stages.stageCount then Idle else Gone),
          [Done, Done, Done, Done, Done], 0, NotFlushing, NotStopping,
          History(seq(cfg.poolSize, _ => InPool), multiset{}, multiset{}, multiset{}, {}, 0))
  }

  // ---- references to a fan-out context -------------------------------------------------------

  function QueueCount(qs: Queues, x: Task): nat {
    if x.stage < STAGES then multiset(TasksOf(qs[x.stage], x.stage))[x] else 0
  }

  predicate StageRefers(s: State, t: nat, k: nat)
    requires k < STAGES
  {
    || QueueCount(s.queues, Task(t, k)) > 0
    || s.runs[k] == Running(t) || s.runs[k] == Finishing(t)
  }

  predicate WorkerRefers(w: Worker, t: nat) {
    match w
    case Submitting(u) => u == t
    case Skipping(u, _, held) => u == t || t in held
    case Stepping(u, _) => u == t
    case Releasing(refs) => t in refs
    case _ => false
  }

  /** Some shared pointer to the block's context is alive. */
  predicate Referenced(s: State, t: nat) {
    s.cfg.parallel &&
    (WorkerRefers(s.worker, t) || StageRefers(s, t, 0) || StageRefers(s, t, 1) || StageRefers(s, t, 2) || StageRefers(s, t, 3))
  }

  // ---- building blocks of the steps ------------------------------------------------------------

  function Assign(owner: seq<Owner>, b: nat, to: Owner): (r: seq<Owner>)
    ensures |r| == |owner|
    ensures forall c :: 0 <= c < |r| ==> r[c] == if c == b then to else owner[c]
  {
    if b < |owner| then owner[b := to] else owner
  }

  function SetPhase(s: State, t: nat, phase: Phase): State
    requires t < |s.tickets|
  {
    s.(tickets := s.tickets[t := s.tickets[t].(phase := phase)])
  }

  /** A handle is destroyed: its block goes back on the stack. */
  function GiveBack(s: State, b: nat): (r: State)
    ensures r == s.(pool := r.pool, hist := s.hist.(owner := r.hist.owner))
  {
    s.(pool := s.pool.Release(b),
       hist := s.hist.(owner := Assign(s.hist.owner, b, InPool)))
  }

  /** The last reference to a context destroys it, and with it the block handle it owns. */
  function DropIfUnreferenced(s: State, t: nat): (r: State)
    ensures r == s.(pool := r.pool, contexts := r.contexts, hist := s.hist.(owner := r.hist.owner))
  {
    if t in s.contexts && t < |s.tickets| && !Referenced(s, t)
    then GiveBack(s.(contexts := s.contexts - {t}), s.tickets[t].block)
    else s
  }

  function JobOf(s: State, now: int): Job
    requires s.worker.Submitting?
  {
    Job(s.worker.ticket, now)
  }

  function HeldBy(skips: seq<Task>): (r: seq<nat>)
    ensures |r| == |skips| && forall i :: 0 <= i < |r| ==> r[i] == skips[i].ticket
  {
    seq(|skips|, i requires 0 <= i < |skips| => skips[i].ticket)
  }

  /** acquire: the top of the stack, or an exhaustion. */
  function DoAcquire(s: State, p: nat): State
    requires s.pool.free != []
  {
    var b := s.pool.Top();
    s.(pool := s.pool.Acquire(),
       producers := s.producers[p := Filling(b)],
       hist := s.hist.(owner := Assign(s.hist.owner, b, OfProducer(p))))
  }

  /** tryPush: the block gets the next ticket. */
  function DoPush(s: State, p: nat): State
    requires p in s.producers
  {
    var b := s.producers[p].block;
    var t := |s.tickets|;
    s.(producers := s.producers - {p},
       tickets := s.tickets + [Ticket(b, Queued)],
       bq := s.bq.Push(t),
       hist := s.hist.(owner := Assign(s.hist.owner, b, OfTicket(t))))
  }

  function DoAbandon(s: State, p: nat): State
    requires p in s.producers
  {
    GiveBack(s.(producers := s.producers - {p}), s.producers[p].block)
  }

  predicate HeadWaits(s: State) { s.bq.entries != [] && s.bq.entries[0] < |s.tickets| }

  /** clear destroys its handles front to back without counting pops. It does so under the queue's lock; letting
      other steps come between only adds behaviours. */
  function DoDiscard(s: State): State
    requires HeadWaits(s)
  {
    var t := s.bq.entries[0];
    var rest := s.(bq := s.bq.Discard(), hist := s.hist.(discarded := s.hist.discarded + 1));
    GiveBack(SetPhase(rest, t, Discarded), s.tickets[t].block)
  }

  function DoPop(s: State): (r: State)
    requires HeadWaits(s)
    ensures r == s.(bq := s.bq.(entries := s.bq.entries[1..], popped := s.bq.popped + 1), tickets := r.tickets,
                    worker := Popped(s.bq.entries[0]))
    ensures |r.tickets| == |s.tickets|
  {
    var t := s.bq.entries[0];
    SetPhase(s, t, Held).(bq := s.bq.Pop(), worker := Popped(t))
  }

  /** processBlock: a context that counts every active stage, or no context in sequential mode. */
  function DoBegin(s: State): (r: State)
    requires s.worker.Marked? && s.worker.ticket < |s.tickets|
    ensures r == s.(tickets := r.tickets, contexts := r.contexts, inFlight := r.inFlight,
                    worker := if s.cfg.parallel then Submitting(s.worker.ticket) else Stepping(s.worker.ticket, 0),
                    hist := s.hist.(live := r.hist.live))
    ensures |r.tickets| == |s.tickets|
  {
    var t := s.worker.ticket;
    if s.cfg.parallel then
      SetPhase(s, t, Offered).(contexts := s.contexts[t := s.Stages()], inFlight := s.inFlight + 1,
                               worker := Submitting(t), hist := s.hist.(live := s.hist.live + {t}))
    else
      SetPhase(s, t, Serial).(worker := Stepping(t, 0))
  }

  function DoSubmit(s: State, now: int): (r: State)
    requires s.worker.Submitting? && s.worker.ticket < |s.tickets| && s.cfg.stages.Shaped()
    ensures r == s.(tickets := r.tickets, queues := r.queues, worker := r.worker, clock := now) && r.worker.Skipping?
    ensures |r.tickets| == |s.tickets|
  {
    var t := s.worker.ticket;
    var (queues, skips) := SubmitAll(s.cfg.stages, s.queues, JobOf(s, now));
    SetPhase(s, t, Fanned).(queues := queues, worker := Skipping(t, skips, HeldBy(skips)), clock := now)
  }

  function DoRefuse(s: State): (r: State)
    requires s.worker.Submitting? && s.worker.ticket < |s.tickets|
    ensures r == s.(tickets := r.tickets, inFlight := s.inFlight - 1, worker := Stepping(s.worker.ticket, 0),
                    hist := s.hist.(live := r.hist.live))
    ensures |r.tickets| == |s.tickets|
  {
    var t := s.worker.ticket;
    SetPhase(s, t, Serial).(inFlight := s.inFlight - 1, worker := Stepping(t, 0), hist := s.hist.(live := s.hist.live - {t}))
  }

  function DoRelease(s: State): (r: State)
    requires s.worker.Releasing? && s.worker.refs != [] && s.worker.refs[0] < |s.tickets|
    ensures r == s.(pool := r.pool, worker := Releasing(s.worker.refs[1..]), contexts := r.contexts,
                    hist := s.hist.(owner := r.hist.owner))
  {
    var u := s.worker.refs[0];
    var rest := s.(worker := Releasing(s.worker.refs[1..]));
    if s.cfg.parallel then DropIfUnreferenced(rest, u) else GiveBack(rest, s.tickets[u].block)
  }

  function DoTake(s: State, k: nat): State
    requires k < STAGES && s.queues[k] != []
  {
    s.(queues := s.queues[k := s.queues[k][1..]], runs := s.runs[k := Running(s.queues[k][0].ticket)])
  }

  function DoProcess(s: State, k: nat): State
    requires k < STAGES && s.runs[k].Running?
  {
    var x := Task(s.runs[k].ticket, k);
    s.(runs := s.runs[k := Finishing(x.ticket)], completions := s.completions[k := Subtracting(x)],
       hist := s.hist.(processed := s.hist.processed + multiset{x}))
  }

  /** fetch_sub on the remaining stages: only the call that brings it to zero goes on to record and leave. */
  function DoSubtract(s: State, a: nat): State
    requires a <= INGEST && s.completions[a].Subtracting? && s.completions[a].task.ticket in s.contexts
  {
    var t := s.completions[a].task.ticket;
    var before := s.contexts[t];
    s.(contexts := s.contexts[t := before - 1],
       completions := s.completions[a := if before != 1 then Done else Recording(t)])
  }

  function DoLeave(s: State, a: nat): State
    requires a <= INGEST && s.completions[a].Leaving?
  {
    s.(inFlight := s.inFlight - 1, completions := s.completions[a := Done],
       hist := s.hist.(live := s.hist.live - {s.completions[a].ticket}))
  }

  // ---- the actors --------------------------------------------------------------------------------

  predicate ProducerCan(s: State, p: nat, act: ProducerAct) {
    match act
    case Acquire => p !in s.producers && s.pool.free != []
    case Exhausted => p !in s.producers && s.pool.free == []
    case Push => p in s.producers && s.producers[p].Filling? && !s.bq.Refuses(s.cfg.queueCapacity)
    case RefusePush => p in s.producers && s.producers[p].Filling? && s.bq.Refuses(s.cfg.queueCapacity)
    case Abandon => p in s.producers
  }

  function ProducerDoes(s: State, p: nat, act: ProducerAct): (r: State)
    requires ProducerCan(s, p, act)
    ensures r == s.(pool := r.pool, producers := r.producers, bq := r.bq, tickets := r.tickets, hist := s.hist.(owner := r.hist.owner))
  {
    match act
    case Acquire => DoAcquire(s, p)
    case Exhausted => s.(pool := s.pool.Exhaust())
    case Push => DoPush(s, p)
    case RefusePush => s.(bq := s.bq.Refuse(), producers := s.producers[p := TurnedAway(s.producers[p].block)])
    case Abandon => DoAbandon(s, p)
  }

  predicate IngestCan(s: State, act: IngestAct) {
    var w := s.worker;
    match act
    case Pop => w == Waiting && HeadWaits(s)
    case Exit => w == Waiting && s.bq.entries == [] && s.bq.shutdown
    case Mark => w.Popped?
    case Begin => w.Marked? && w.ticket < |s.tickets|
    case Submit(now) => w.Submitting? && w.ticket < |s.tickets| && s.cfg.stages.Shaped() && s.clock <= now
                        && !Refuses(s.cfg.stages, s.queues, s.stopStages)
    case Refuse => w.Submitting? && w.ticket < |s.tickets| && s.cfg.stages.Shaped() && Refuses(s.cfg.stages, s.queues, s.stopStages)
    case SerialStage => w.Stepping? && w.next < s.Stages()
    case SerialRecord => w.Stepping? && w.next >= s.Stages()
    case TakeSkip => w.Skipping? && w.todo != [] && s.completions[INGEST] == Done
    case SkipsDone => w.Skipping? && w.todo == [] && s.completions[INGEST] == Done
    case Release => w.Releasing? && w.refs != [] && w.refs[0] < |s.tickets|
    case Finish => w == Releasing([])
  }

  /** Steps that touch the worker's own place, the busy mark and the pop counter only. */
  predicate Turns(act: IngestAct) { act.Exit? || act.Mark? || act.SkipsDone? || act.Finish? }

  function DoTurn(s: State, act: IngestAct): (r: State)
    requires IngestCan(s, act) && Turns(act)
    ensures r == s.(worker := r.worker, processing := act.Mark? || (act.SkipsDone? && s.processing), completedPops := r.completedPops)
  {
    var w := s.worker;
    match act
    case Exit => s.(worker := Exited, processing := false)
    case Mark => s.(worker := Marked(w.ticket), processing := true)
    case SkipsDone => s.(worker := Releasing(w.held + [w.ticket]))
    case Finish => s.(worker := Waiting, processing := false, completedPops := s.completedPops + 1)
  }

  /** One stage of the block in hand, or its record. */
  function DoSerial(s: State, act: IngestAct): (r: State)
    requires IngestCan(s, act) && (act.SerialStage? || act.SerialRecord?)
    ensures r == s.(worker := r.worker, hist := s.hist.(processed := r.hist.processed, recorded := r.hist.recorded))
    ensures r.worker.Stepping? || r.worker.Releasing?
    ensures s.hist.processed <= r.hist.processed && s.hist.recorded <= r.hist.recorded
  {
    var w := s.worker;
    if act.SerialStage? then
      s.(worker := Stepping(w.ticket, w.next + 1), hist := s.hist.(processed := s.hist.processed + multiset{Task(w.ticket, w.next)}))
    else
      s.(worker := Releasing([w.ticket]), hist := s.hist.(recorded := s.hist.recorded + multiset{w.ticket}))
  }

  /** The next skipped task is about to be completed. */
  function DoTakeSkip(s: State): (r: State)
    requires IngestCan(s, TakeSkip)
    ensures r == s.(worker := Skipping(s.worker.ticket, s.worker.todo[1..], s.worker.held), completions := r.completions,
                    hist := s.hist.(skipped := r.hist.skipped))
    ensures s.hist.skipped <= r.hist.skipped
  {
    var w := s.worker;
    s.(worker := Skipping(w.ticket, w.todo[1..], w.held),
       completions := s.completions[INGEST := Subtracting(w.todo[0])],
       hist := s.hist.(skipped := s.hist.skipped + multiset{w.todo[0]}))
  }

  function IngestDoes(s: State, act: IngestAct): State
    requires IngestCan(s, act)
  {
    match act
    case Pop => DoPop(s)
    case Begin => DoBegin(s)
    case Submit(now) => DoSubmit(s, now)
    case Refuse => DoRefuse(s)
    case Release => DoRelease(s)
    case TakeSkip => DoTakeSkip(s)
    case SerialStage => DoSerial(s, act)
    case SerialRecord => DoSerial(s, act)
    case _ => DoTurn(s, act)
  }

  /** The ingest worker never touches the producers, the stage threads, the flusher or the stopper. */
  lemma IngestFrame(s: State, act: IngestAct)
    requires IngestCan(s, act)
    ensures var r := IngestDoes(s, act);
            r == s.(pool := r.pool, bq := s.bq.(entries := r.bq.entries, popped := r.bq.popped), tickets := r.tickets,
                    worker := r.worker, processing := r.processing, completedPops := r.completedPops, queues := r.queues,
                    contexts := r.contexts, inFlight := r.inFlight, completions := r.completions, clock := r.clock,
                    hist := r.hist.(discarded := s.hist.discarded))
  {
    hide Refuses, DoPop, DoBegin, DoSubmit, DoRefuse, DoRelease, DoTakeSkip, DoSerial, DoTurn;
  }

  predicate StageCan(s: State, k: nat, act: StageAct) {
    k < STAGES &&
    match act
    case Take => s.runs[k] == Idle && s.queues[k] != []
    case Process => s.runs[k].Running?
    case DropRef => s.runs[k].Finishing? && s.completions[k] == Done
    case StageExit => s.runs[k] == Idle && s.queues[k] == [] && s.stopStages
  }

  function StageDoes(s: State, k: nat, act: StageAct): (r: State)
    requires StageCan(s, k, act)
    ensures r == s.(pool := r.pool, queues := r.queues, contexts := r.contexts, runs := r.runs, completions := r.completions,
                    hist := s.hist.(owner := r.hist.owner, processed := r.hist.processed))
  {
    match act
    case Take => DoTake(s, k)
    case Process => DoProcess(s, k)
    case DropRef => DropIfUnreferenced(s.(runs := s.runs[k := Idle]), s.runs[k].ticket)
    case StageExit => s.(runs := s.runs[k := Gone])
  }

  predicate CompletionCan(s: State, a: nat, act: CompletionAct) {
    a <= INGEST &&
    match act
    case Subtract => s.completions[a].Subtracting? && s.completions[a].task.ticket in s.contexts
    case Record => s.completions[a].Recording?
    case Leave => s.completions[a].Leaving?
  }

  function CompletionDoes(s: State, a: nat, act: CompletionAct): (r: State)
    requires CompletionCan(s, a, act)
    ensures r == s.(contexts := r.contexts, completions := r.completions, inFlight := r.inFlight,
                    hist := s.hist.(recorded := r.hist.recorded, live := r.hist.live))
  {
    match act
    case Subtract => DoSubtract(s, a)
    case Record => s.(completions := s.completions[a := Leaving(s.completions[a].ticket)],
                      hist := s.hist.(recorded := s.hist.recorded + multiset{s.completions[a].ticket}))
    case Leave => DoLeave(s, a)
  }

  const CONJUNCTS: nat := 5

  predicate Conjunct(s: State, target: nat, seen: nat) {
    match seen
    case 0 => s.bq.entries == []
    case 1 => s.completedPops >= target
    case 2 => !s.processing
    case 3 => s.inFlight == 0
    case _ => forall k: nat :: k < STAGES ==> s.queues[k] == []
  }

  predicate FlusherCan(s: State, act: FlushAct) {
    var f := s.flusher;
    match act
    case StartFlush => !f.Draining?
    case ReadTrue => f.Draining? && f.seen < CONJUNCTS && Conjunct(s, f.target, f.seen)
    case ReadFalse => f.Draining? && f.seen < CONJUNCTS && !Conjunct(s, f.target, f.seen)
    case EndFlush => f.Draining? && f.seen >= CONJUNCTS
  }

  function FlusherDoes(s: State, act: FlushAct): (r: State)
    requires FlusherCan(s, act)
    ensures r == s.(flusher := r.flusher)
  {
    match act
    case StartFlush => s.(flusher := Draining(|s.tickets|, 0))
    case ReadTrue => s.(flusher := Draining(s.flusher.target, s.flusher.seen + 1))
    case ReadFalse => s.(flusher := Draining(s.flusher.target, 0))
    case EndFlush => s.(flusher := Flushed(s.flusher.target))
  }

  predicate StopperCan(s: State, act: StopAct) {
    match act
    case Shutdown => s.stopper == NotStopping
    case JoinWorker => s.stopper == QueueShutDown && s.worker == Exited
    case StopStages => s.stopper == WorkerJoined
    case JoinStages => s.stopper == StagesStopping && forall k: nat :: k < STAGES ==> s.runs[k] == Gone
    case EndStop => s.stopper == StagesJoined && s.bq.entries == []
  }

  function StopperDoes(s: State, act: StopAct): (r: State)
    requires StopperCan(s, act)
    ensures r == s.(bq := s.bq.(shutdown := r.bq.shutdown), stopStages := r.stopStages, stopper := r.stopper)
  {
    match act
    case Shutdown => s.(bq := s.bq.(shutdown := true), stopper := QueueShutDown)
    case JoinWorker => s.(stopper := WorkerJoined)
    case StopStages => s.(stopStages := true, stopper := StagesStopping)
    case JoinStages => s.(stopper := StagesJoined)
    case EndStop => s.(stopper := Stopped)
  }

  predicate Enabled(s: State, a: Step) {
    match a
    case ByProducer(p, act) => ProducerCan(s, p, act)
    case ByClear => HeadWaits(s)
    case ByIngest(act) => IngestCan(s, act)
    case ByStage(k, act) => StageCan(s, k, act)
    case ByCompletion(c, act) => CompletionCan(s, c, act)
    case ByFlusher(act) => FlusherCan(s, act)
    case ByStopper(act) => StopperCan(s, act)
  }

  function Do(s: State, a: Step): State
    requires Enabled(s, a)
  {
    match a
    case ByProducer(p, act) => ProducerDoes(s, p, act)
    case ByClear => DoDiscard(s)
    case ByIngest(act) => IngestDoes(s, act)
    case ByStage(k, act) => StageDoes(s, k, act)
    case ByCompletion(c, act) => CompletionDoes(s, c, act)
    case ByFlusher(act) => FlusherDoes(s, act)
    case ByStopper(act) => StopperDoes(s, act)
  }

  // ---- runs --------------------------------------------------------------------------------------

  ghost function RunTo(s: State, steps: seq<Step>): Option<State> {
    if steps == [] then Some(s)
    else
      var mid := RunTo(s, steps[..|steps| - 1]);
      var a := steps[|steps| - 1];
      if mid.Some? && Enabled(mid.value, a) then Some(Do(mid.value, a)) else None
  }

  /** Some interleaving of steps leads from a freshly started engine to s. */
  ghost predicate Reachable(cfg: EngineConfig, s: State)
    requires cfg.stages.Shaped()
  {
    exists steps :: RunTo(Init(cfg), steps) == Some(s)
  }
}

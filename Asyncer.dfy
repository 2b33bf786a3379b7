/** The bookkeeping of the `AsyncerMp` dispatcher (`asyncermp.py`): the
    FIFO submission queue, the registry of futures, the counting semaphore
    and the completion stream. The scheduler is cooperative and the queue
    is unbounded, so everything between two suspension points happens at
    once; each such stretch is one step:

    - `Submit`: `submit` registers a pending future and enqueues it;
    - `Dispatch` / `RunnerWake`: `_runner` takes queued tasks, creating one
      `_run_task` per item;
    - `Acquire`: a `_run_task` enters `async with self._semaphore` and
      starts its worker process (which may fail);
    - `Deliver` / `FailReceive`: the worker's result arrives, or receiving
      it fails; the rest of `_run_task` (resolve, report, pop, release)
      runs without suspending;
    - `CancelFuture`: the caller cancels the future `submit` returned.

    Each step is specified by a function on a `State` value, and the
    lemmas about those functions carry the proofs; the `AsyncerMp` class
    holds the state in fields and performs the steps in place. The worker
    process, the pipe and the executor are not modelled: a step is told
    what arrived. Task ids (`uuid4`) are parameters assumed fresh. */
module Asyncer {
  import opened Wrappers
  import Strings


  /** The message the worker sends: `{"status": True, "data": r}` is
      `Success(r)`, `{"status": False, "data": None, "error": e}` is
      `Failure(e)`. */
  type TaskResult<R> = Result<R, string>

  /** How the worker's coroutine ended. */
  datatype WorkerOutcome<R> = Returned(value: R) | Raised(exception: string, traceback: string)

  const WorkerFailedPrefix := "Worker failed: "

  /** `_worker_process`: the message it sends for each outcome. */
  function WorkerMessage<R>(outcome: WorkerOutcome<R>): (r: TaskResult<R>)
    ensures r.Success? <==> outcome.Returned?
    ensures r.Success? ==> r.value == outcome.value
    ensures r.Failure? ==> |r.error| > |WorkerFailedPrefix| && r.error[..|WorkerFailedPrefix|] == WorkerFailedPrefix
  {
    match outcome
    case Returned(value) => Success(value)
    case Raised(e, tb) => Failure(WorkerFailedPrefix + e + ". Traceback: " + tb)
  }

  /** The result `_run_task` records when receiving from the pipe raises:
      `str(e)`, which may well be empty (an `EOFError` has no message). */
  function ReceiveFailure<R>(message: string): (r: TaskResult<R>)
    ensures r.Failure? && r.error == message
  {
    Failure(message)
  }

  /** A worker failure can always be told from a receive failure with an
      empty message; a receive failure carrying the same text cannot. */
  lemma WorkerFailureNonEmpty<R>(e: string, tb: string)
    ensures WorkerMessage<R>(Raised(e, tb)) != ReceiveFailure<R>("")
  {
  }

  /** `uid or task_id`: the caller's uid unless it is missing or empty. */
  function CorrelationId(uid: Option<string>, taskId: string): (c: string)
    ensures uid.Some? && uid.value != "" ==> c == uid.value
    ensures uid.None? || uid.value == "" ==> c == taskId
    ensures c != "" <==> (uid.Some? && uid.value != "") || taskId != ""
  {
    if uid.Some? && uid.value != "" then uid.value else taskId
  }

  /** An item of `_task_queue` (its data and function are not modelled). */
  datatype QueuedTask = QueuedTask(taskId: string, uid: string)

  /** The state of an `asyncio.Future` returned by `submit`. */
  datatype FutureState<R> = Pending | Resolved(result: TaskResult<R>) | Cancelled

  /** An item of `completed_queue`. */
  datatype Event<R> = Event(uid: string, result: TaskResult<R>)

  /** The ids of the queued items, front first. */
  function TaskIds(q: seq<QueuedTask>): (ids: seq<string>)
    ensures |ids| == |q|
  {
    if q == [] then [] else [q[0].taskId] + TaskIds(q[1..])
  }

  lemma {:induction false} TaskIdsAppend(q: seq<QueuedTask>, t: QueuedTask)
    ensures TaskIds(q + [t]) == TaskIds(q) + [t.taskId]
  {
    if q != [] {
      assert (q + [t])[1..] == q[1..] + [t];
      TaskIdsAppend(q[1..], t);
    }
  }

  /** The ids of the queued items, as a set. */
  function QueuedIds(q: seq<QueuedTask>): set<string>
  {
    if q == [] then {} else {q[0].taskId} + QueuedIds(q[1..])
  }

  lemma {:induction false} QueuedIdsAppend(q: seq<QueuedTask>, t: QueuedTask)
    ensures QueuedIds(q + [t]) == QueuedIds(q) + {t.taskId}
  {
    if q != [] {
      assert (q + [t])[1..] == q[1..] + [t];
      QueuedIdsAppend(q[1..], t);
    }
  }

  /** No task id occurs twice in the queue. */
  predicate UniqueIds(q: seq<QueuedTask>)
  {
    q == [] || (q[0].taskId !in QueuedIds(q[1..]) && UniqueIds(q[1..]))
  }

  lemma {:induction false} UniqueIdsAppend(q: seq<QueuedTask>, t: QueuedTask)
    requires UniqueIds(q) && t.taskId !in QueuedIds(q)
    ensures UniqueIds(q + [t])
  {
    if q != [] {
      assert (q + [t])[1..] == q[1..] + [t];
      QueuedIdsAppend(q[1..], t);
      UniqueIdsAppend(q[1..], t);
    }
  }

  /** The dispatcher's state, with the history the proofs need:
      - `permits`: the semaphore's counter; `taskQueue`: `_task_queue`;
      - `handles`: every future `submit` has created, by task id;
        `registered`: the keys of `_futures`, whose values are those same
        futures (see `Registry`);
      - `completed`: every item put on `completed_queue`, in order;
      - `waiting`, `holding`: the live `_run_task` coroutines, before and
        inside `async with self._semaphore`; `runUid`: the correlation id
        each was created with;
      - `submitted`, `dispatched`: task ids in submission order and in the
        order `_runner` took them; `taken`: the ids `_runner` took;
      - `finished`: runs that ended; `stranded`: those that ended because
        their worker failed to start;
      - `eventTasks`, `eventIds`: each event's task id, in order and as
        a set;
      - `corrIds`: the correlation id each task was submitted with. */
  datatype State<R> = State(
    maxProcesses: int,
    permits: int,
    taskQueue: seq<QueuedTask>,
    handles: map<string, FutureState<R>>,
    registered: set<string>,
    completed: seq<Event<R>>,
    waiting: set<string>,
    holding: set<string>,
    runUid: map<string, string>,
    submitted: seq<string>,
    dispatched: seq<string>,
    taken: set<string>,
    finished: set<string>,
    stranded: set<string>,
    eventTasks: seq<string>,
    eventIds: set<string>,
    corrIds: map<string, string>)

  /** `_futures`: every registered id, with the very future its caller holds. */
  function Registry<R>(s: State<R>): (m: map<string, FutureState<R>>)
    ensures m.Keys == s.registered * s.handles.Keys
  {
    map id | id in s.registered && id in s.handles :: s.handles[id]
  }

  /** The semaphore: its counter plus the runs inside the block is its
      initial value; a run waits for a permit or holds one. */
  ghost predicate GateOk<R>(s: State<R>)
  {
    && 0 <= s.permits
    && s.permits + |s.holding| == s.maxProcesses
    && s.waiting !! s.holding
    && s.runUid.Keys == s.waiting + s.holding
  }

  /** FIFO: what was submitted is what `_runner` took followed by what is
      queued; every future belongs to exactly one of the two. */
  ghost predicate QueueOk<R>(s: State<R>)
  {
    && s.submitted == s.dispatched + TaskIds(s.taskQueue)
    && UniqueIds(s.taskQueue)
    && QueuedIds(s.taskQueue) !! s.taken
    && s.handles.Keys == QueuedIds(s.taskQueue) + s.taken
  }

  /** A task `_runner` took is either still running or has ended. */
  ghost predicate RunsOk<R>(s: State<R>)
  {
    && s.waiting + s.holding == s.taken - s.finished
    && s.finished <= s.taken
    && s.stranded <= s.finished
  }

  /** The registry holds exactly the queued, running and stranded tasks. */
  ghost predicate RegistryOk<R>(s: State<R>)
  {
    s.registered == QueuedIds(s.taskQueue) + s.waiting + s.holding + s.stranded
  }

  /** Every event belongs to a task whose future holds that event's
      result; the resolved futures are exactly the events' tasks, as many
      as there are events; a run that ended normally left its future done. */
  ghost predicate EventsOk<R>(s: State<R>)
  {
    && |s.eventTasks| == |s.completed| == |s.eventIds|
    && (forall k :: 0 <= k < |s.eventTasks| ==>
          && s.eventTasks[k] in s.eventIds && s.eventTasks[k] in s.handles
          && s.handles[s.eventTasks[k]] == Resolved(s.completed[k].result))
    && (forall id :: id in s.eventIds ==> id in s.eventTasks)
    && s.eventIds <= s.handles.Keys
    && (forall id :: id in s.handles ==> (s.handles[id].Resolved? <==> id in s.eventIds))
    && (forall id :: id in s.finished && id !in s.stranded && id in s.handles ==> !s.handles[id].Pending?)
  }

  /** Every task keeps the correlation id it was submitted with: its queue
      item, its run and its event all carry it. */
  ghost predicate CorrOk<R>(s: State<R>)
  {
    && s.corrIds.Keys == s.handles.Keys
    && (forall k :: 0 <= k < |s.taskQueue| ==>
          s.taskQueue[k].taskId in s.corrIds && s.corrIds[s.taskQueue[k].taskId] == s.taskQueue[k].uid)
    && (forall id :: id in s.runUid ==> id in s.corrIds && s.runUid[id] == s.corrIds[id])
    && |s.completed| == |s.eventTasks|
    && (forall k :: 0 <= k < |s.completed| ==>
          s.eventTasks[k] in s.corrIds && s.completed[k].uid == s.corrIds[s.eventTasks[k]])
  }

  ghost predicate Inv<R>(s: State<R>)
  {
    GateOk(s) && QueueOk(s) && RunsOk(s) && RegistryOk(s) && EventsOk(s) && CorrOk(s)
  }

  /** After a step, every future that was already done is unchanged, so
      `set_result` is never applied twice to one future. */
  ghost predicate Settled<R>(before: map<string, FutureState<R>>, after: map<string, FutureState<R>>)
  {
    forall id :: id in before ==> id in after && (before[id].Pending? || after[id] == before[id])
  }

  /** `AsyncerMp(max_processes)`. */
  function Init<R>(maxProcesses: int): State<R>
  {
    State(maxProcesses, maxProcesses, [], map[], {}, [], {}, {}, map[], [], [], {}, {}, {}, [], {}, map[])
  }

  /** `submit`: a pending future is created and registered, then the item
      is queued under its correlation id. */
  function SubmitStep<R>(s: State<R>, taskId: string, uid: Option<string>): State<R>
  {
    s.(handles := s.handles[taskId := Pending],
       registered := s.registered + {taskId},
       taskQueue := s.taskQueue + [QueuedTask(taskId, CorrelationId(uid, taskId))],
       submitted := s.submitted + [taskId],
       corrIds := s.corrIds[taskId := CorrelationId(uid, taskId)])
  }

  /** One `get` of `_runner` and the `create_task` of that item's run. */
  function DispatchStep<R>(s: State<R>): State<R>
    requires s.taskQueue != []
  {
    var item := s.taskQueue[0];
    s.(taskQueue := s.taskQueue[1..],
       waiting := s.waiting + {item.taskId},
       runUid := s.runUid[item.taskId := item.uid],
       dispatched := s.dispatched + [item.taskId],
       taken := s.taken + {item.taskId})
  }

  /** `_runner` taking every queued task. */
  function Drain<R>(s: State<R>): State<R>
    decreases |s.taskQueue|
  {
    if s.taskQueue == [] then s else Drain(DispatchStep(s))
  }

  /** Entering the `async with` block with a free permit and starting the
      worker. */
  function EnterStep<R>(s: State<R>, taskId: string): State<R>
  {
    s.(permits := s.permits - 1,
       waiting := s.waiting - {taskId},
       holding := s.holding + {taskId})
  }

  /** Starting the worker raised inside the block: the permit goes back at
      once and the run ends before its `try`, leaving its registry entry. */
  function StrandStep<R>(s: State<R>, taskId: string): State<R>
  {
    s.(waiting := s.waiting - {taskId},
       runUid := s.runUid - {taskId},
       finished := s.finished + {taskId},
       stranded := s.stranded + {taskId})
  }

  /** A waiting run's turn: it stays waiting while no permit is free. */
  function AcquireStep<R>(s: State<R>, taskId: string, started: bool): State<R>
  {
    if s.permits == 0 then s
    else if started then EnterStep(s, taskId)
    else StrandStep(s, taskId)
  }

  /** The `try` body once `result` is in: the future gets it and the event
      is put, only if the entry is registered and not done. */
  function RecordStep<R>(s: State<R>, taskId: string, result: TaskResult<R>): State<R>
    requires taskId in s.runUid
  {
    if taskId in s.registered && taskId in s.handles && s.handles[taskId].Pending? then
      s.(handles := s.handles[taskId := Resolved(result)],
         eventTasks := s.eventTasks + [taskId],
         eventIds := s.eventIds + {taskId},
         completed := s.completed + [Event(s.runUid[taskId], result)])
    else s
  }

  /** The `finally` pops the run's own entry; leaving the block releases
      the permit. */
  function FinishStep<R>(s: State<R>, taskId: string): State<R>
  {
    s.(registered := s.registered - {taskId},
       holding := s.holding - {taskId},
       runUid := s.runUid - {taskId},
       finished := s.finished + {taskId},
       permits := s.permits + 1)
  }

  /** The rest of `_run_task` once `result` is in; none of it suspends. */
  function ResolveStep<R>(s: State<R>, taskId: string, result: TaskResult<R>): State<R>
    requires taskId in s.runUid
  {
    FinishStep(RecordStep(s, taskId, result), taskId)
  }

  /** `future.cancel()` by the caller: only a pending future is cancelled. */
  function CancelStep<R>(s: State<R>, taskId: string): State<R>
    requires taskId in s.handles
  {
    if s.handles[taskId].Pending? then s.(handles := s.handles[taskId := Cancelled]) else s
  }

  /** A new instance with a valid semaphore value satisfies the invariant. */
  lemma InitValid<R>(maxProcesses: int)
    requires maxProcesses >= 0
    ensures Inv(Init<R>(maxProcesses))
    ensures Registry(Init<R>(maxProcesses)) == map[]
  {
  }

  // Each step keeps each part of the invariant; the parts are proved one
  // at a time, from the facts each one needs.

  lemma SubmitKeepsQueue<R>(s: State<R>, taskId: string, uid: Option<string>)
    requires QueueOk(s) && taskId !in s.handles
    ensures QueueOk(SubmitStep(s, taskId, uid))
  {
    var item := QueuedTask(taskId, CorrelationId(uid, taskId));
    TaskIdsAppend(s.taskQueue, item);
    QueuedIdsAppend(s.taskQueue, item);
    UniqueIdsAppend(s.taskQueue, item);
  }

  lemma SubmitKeepsRegistry<R>(s: State<R>, taskId: string, uid: Option<string>)
    requires RegistryOk(s)
    ensures RegistryOk(SubmitStep(s, taskId, uid))
  {
    QueuedIdsAppend(s.taskQueue, QueuedTask(taskId, CorrelationId(uid, taskId)));
  }

  lemma SubmitKeepsEvents<R>(s: State<R>, taskId: string, uid: Option<string>)
    requires EventsOk(s) && taskId !in s.handles && taskId !in s.finished
    ensures EventsOk(SubmitStep(s, taskId, uid))
  {
  }

  lemma DispatchKeepsGate<R>(s: State<R>)
    requires GateOk(s) && s.taskQueue != [] && s.taskQueue[0].taskId !in s.runUid
    ensures GateOk(DispatchStep(s))
  {
  }

  lemma DispatchKeepsQueue<R>(s: State<R>)
    requires QueueOk(s) && s.taskQueue != []
    ensures QueueOk(DispatchStep(s))
    ensures s.taskQueue[0].taskId !in s.taken
  {
    var q := s.taskQueue;
    var head := q[0].taskId;
    var t := DispatchStep(s);
    assert QueuedIds(q) == {head} + QueuedIds(q[1..]);
    assert TaskIds(q) == [head] + TaskIds(q[1..]);
    assert t.submitted == t.dispatched + TaskIds(t.taskQueue);
    assert UniqueIds(t.taskQueue);
    assert head !in QueuedIds(t.taskQueue);
    assert QueuedIds(t.taskQueue) !! t.taken;
    assert t.handles.Keys == QueuedIds(t.taskQueue) + t.taken;
  }

  lemma DispatchKeepsRuns<R>(s: State<R>)
    requires RunsOk(s) && s.taskQueue != [] && s.taskQueue[0].taskId !in s.taken
    ensures RunsOk(DispatchStep(s))
  {
    var head := s.taskQueue[0].taskId;
    assert head !in s.finished;
    assert (s.taken + {head}) - s.finished == (s.taken - s.finished) + {head};
  }

  lemma DispatchKeepsRegistry<R>(s: State<R>)
    requires RegistryOk(s) && s.taskQueue != []
    ensures RegistryOk(DispatchStep(s))
  {
    var q := s.taskQueue;
    assert QueuedIds(q) == {q[0].taskId} + QueuedIds(q[1..]);
  }

  lemma EnterKeepsGate<R>(s: State<R>, taskId: string)
    requires GateOk(s) && taskId in s.waiting && s.permits > 0
    ensures GateOk(EnterStep(s, taskId))
  {
    assert taskId !in s.holding;
  }

  lemma EnterKeepsRuns<R>(s: State<R>, taskId: string)
    requires RunsOk(s) && taskId in s.waiting
    ensures RunsOk(EnterStep(s, taskId))
  {
  }

  lemma EnterKeepsRegistry<R>(s: State<R>, taskId: string)
    requires RegistryOk(s) && taskId in s.waiting
    ensures RegistryOk(EnterStep(s, taskId))
  {
  }

  lemma EnterKeepsQueue<R>(s: State<R>, taskId: string)
    requires QueueOk(s)
    ensures QueueOk(EnterStep(s, taskId))
  {
  }

  lemma EnterKeepsEvents<R>(s: State<R>, taskId: string)
    requires EventsOk(s)
    ensures EventsOk(EnterStep(s, taskId))
  {
  }

  lemma StrandKeepsQueue<R>(s: State<R>, taskId: string)
    requires QueueOk(s)
    ensures QueueOk(StrandStep(s, taskId))
  {
  }

  lemma StrandKeepsGate<R>(s: State<R>, taskId: string)
    requires GateOk(s) && taskId in s.waiting
    ensures GateOk(StrandStep(s, taskId))
  {
  }

  lemma StrandKeepsRuns<R>(s: State<R>, taskId: string)
    requires RunsOk(s) && taskId in s.waiting && s.waiting !! s.holding
    ensures RunsOk(StrandStep(s, taskId))
  {
  }

  lemma StrandKeepsRegistry<R>(s: State<R>, taskId: string)
    requires RegistryOk(s) && taskId in s.waiting
    ensures RegistryOk(StrandStep(s, taskId))
  {
  }

  lemma StrandKeepsEvents<R>(s: State<R>, taskId: string)
    requires EventsOk(s)
    ensures EventsOk(StrandStep(s, taskId))
  {
  }

  lemma RecordKeepsQueue<R>(s: State<R>, taskId: string, result: TaskResult<R>)
    requires QueueOk(s) && taskId in s.runUid && taskId in s.handles
    ensures QueueOk(RecordStep(s, taskId, result))
  {
    assert s.handles[taskId := Resolved(result)].Keys == s.handles.Keys;
  }

  lemma RecordKeepsEvents<R>(s: State<R>, taskId: string, result: TaskResult<R>)
    requires EventsOk(s) && taskId in s.runUid
    ensures EventsOk(RecordStep(s, taskId, result))
  {
  }

  lemma RecordKeepsOthers<R>(s: State<R>, taskId: string, result: TaskResult<R>)
    requires GateOk(s) && RunsOk(s) && RegistryOk(s) && taskId in s.runUid
    ensures GateOk(RecordStep(s, taskId, result))
    ensures RunsOk(RecordStep(s, taskId, result))
    ensures RegistryOk(RecordStep(s, taskId, result))
  {
  }

  lemma FinishKeepsQueue<R>(s: State<R>, taskId: string)
    requires QueueOk(s)
    ensures QueueOk(FinishStep(s, taskId))
  {
  }

  lemma FinishKeepsGate<R>(s: State<R>, taskId: string)
    requires GateOk(s) && taskId in s.holding
    ensures GateOk(FinishStep(s, taskId))
  {
  }

  lemma FinishKeepsRuns<R>(s: State<R>, taskId: string)
    requires RunsOk(s) && taskId in s.holding && s.waiting !! s.holding
    ensures RunsOk(FinishStep(s, taskId))
  {
  }

  lemma FinishKeepsRegistry<R>(s: State<R>, taskId: string)
    requires RegistryOk(s) && taskId in s.holding && s.waiting !! s.holding
    requires taskId !in QueuedIds(s.taskQueue) && taskId !in s.stranded
    ensures RegistryOk(FinishStep(s, taskId))
  {
  }

  lemma FinishKeepsEvents<R>(s: State<R>, taskId: string)
    requires EventsOk(s) && taskId in s.handles && !s.handles[taskId].Pending?
    ensures EventsOk(FinishStep(s, taskId))
  {
  }

  lemma CancelKeepsQueue<R>(s: State<R>, taskId: string)
    requires QueueOk(s) && taskId in s.handles
    ensures QueueOk(CancelStep(s, taskId))
  {
    assert s.handles[taskId := Cancelled].Keys == s.handles.Keys;
  }

  lemma CancelKeepsEvents<R>(s: State<R>, taskId: string)
    requires EventsOk(s) && taskId in s.handles
    ensures EventsOk(CancelStep(s, taskId))
  {
  }

  lemma SubmitKeepsCorr<R>(s: State<R>, taskId: string, uid: Option<string>)
    requires CorrOk(s) && taskId !in s.handles
    ensures CorrOk(SubmitStep(s, taskId, uid))
  {
    var t := SubmitStep(s, taskId, uid);
    forall k | 0 <= k < |t.taskQueue|
      ensures t.taskQueue[k].taskId in t.corrIds && t.corrIds[t.taskQueue[k].taskId] == t.taskQueue[k].uid
    {
      if k < |s.taskQueue| {
        assert t.taskQueue[k] == s.taskQueue[k];
      }
    }
  }

  lemma DispatchKeepsCorr<R>(s: State<R>)
    requires CorrOk(s) && s.taskQueue != []
    ensures CorrOk(DispatchStep(s))
  {
    var t := DispatchStep(s);
    assert forall k :: 0 <= k < |t.taskQueue| ==> t.taskQueue[k] == s.taskQueue[k + 1];
  }

  lemma RecordKeepsCorr<R>(s: State<R>, taskId: string, result: TaskResult<R>)
    requires CorrOk(s) && taskId in s.runUid && taskId in s.handles
    ensures CorrOk(RecordStep(s, taskId, result))
  {
    assert s.handles[taskId := Resolved(result)].Keys == s.handles.Keys;
  }

  lemma CancelKeepsCorr<R>(s: State<R>, taskId: string)
    requires CorrOk(s) && taskId in s.handles
    ensures CorrOk(CancelStep(s, taskId))
  {
    assert s.handles[taskId := Cancelled].Keys == s.handles.Keys;
  }

  /** What `submit` changes: the fresh item is queued last, and no existing
      future changes. */
  lemma SubmitEffects<R>(s: State<R>, taskId: string, uid: Option<string>)
    requires taskId !in s.handles
    ensures SubmitStep(s, taskId, uid).taskQueue[|s.taskQueue|] == QueuedTask(taskId, CorrelationId(uid, taskId))
    ensures Settled(s.handles, SubmitStep(s, taskId, uid).handles)
  {
  }

  /** What cancelling changes: only that future, only when it is pending. */
  lemma CancelEffects<R>(s: State<R>, taskId: string)
    requires taskId in s.handles
    ensures Settled(s.handles, CancelStep(s, taskId).handles)
    ensures CancelStep(s, taskId).handles ==
              if s.handles[taskId].Pending? then s.handles[taskId := Cancelled] else s.handles
    ensures CancelStep(s, taskId).completed == s.completed
  {
  }

  /** `submit` keeps the invariant, queues the fresh id last under its
      correlation id, and changes no existing future. */
  lemma SubmitPreserves<R>(s: State<R>, taskId: string, uid: Option<string>)
    requires Inv(s) && taskId !in s.handles
    ensures Inv(SubmitStep(s, taskId, uid))
    ensures SubmitStep(s, taskId, uid).taskQueue[|s.taskQueue|] == QueuedTask(taskId, CorrelationId(uid, taskId))
    ensures Settled(s.handles, SubmitStep(s, taskId, uid).handles)
  {
    SubmitKeepsQueue(s, taskId, uid);
    SubmitKeepsRegistry(s, taskId, uid);
    SubmitKeepsEvents(s, taskId, uid);
    SubmitKeepsCorr(s, taskId, uid);
    SubmitEffects(s, taskId, uid);
  }

  /** `_runner` takes the head of the queue and starts exactly one new run
      for it, waiting for a permit. */
  lemma DispatchPreserves<R>(s: State<R>)
    requires Inv(s) && s.taskQueue != []
    ensures Inv(DispatchStep(s))
    ensures s.taskQueue[0].taskId !in s.runUid
    ensures DispatchStep(s).dispatched == s.dispatched + [s.taskQueue[0].taskId]
  {
    DispatchKeepsQueue(s);
    DispatchKeepsGate(s);
    DispatchKeepsRuns(s);
    DispatchKeepsRegistry(s);
    DispatchKeepsCorr(s);
  }

  lemma {:induction false} DrainPreserves<R>(s: State<R>)
    requires Inv(s)
    ensures Inv(Drain(s))
    decreases |s.taskQueue|
  {
    if s.taskQueue != [] {
      DispatchPreserves(s);
      DrainPreserves(DispatchStep(s));
    }
  }

  /** Draining the queue takes every task in order and adds one waiting
      run per task; nothing else changes. */
  lemma {:induction false} DrainShape<R>(s: State<R>)
    ensures Drain(s).taskQueue == []
    ensures Drain(s).dispatched == s.dispatched + TaskIds(s.taskQueue)
    ensures Drain(s).waiting == s.waiting + QueuedIds(s.taskQueue)
    ensures Drain(s).taken == s.taken + QueuedIds(s.taskQueue)
    ensures Drain(s).runUid.Keys == s.runUid.Keys + QueuedIds(s.taskQueue)
    ensures Drain(s).(dispatched := s.dispatched, taskQueue := s.taskQueue, waiting := s.waiting,
                      taken := s.taken, runUid := s.runUid) == s
    decreases |s.taskQueue|
  {
    var q := s.taskQueue;
    if q != [] {
      DrainShape(DispatchStep(s));
      assert TaskIds(q) == [q[0].taskId] + TaskIds(q[1..]);
      assert QueuedIds(q) == {q[0].taskId} + QueuedIds(q[1..]);
    }
  }

  /** Each drained task's run carries that task's correlation id. */
  lemma {:induction false} DrainUids<R>(s: State<R>, k: int)
    requires UniqueIds(s.taskQueue)
    requires 0 <= k < |s.taskQueue|
    ensures s.taskQueue[k].taskId in Drain(s).runUid
    ensures Drain(s).runUid[s.taskQueue[k].taskId] == s.taskQueue[k].uid
    decreases |s.taskQueue|
  {
    var q := s.taskQueue;
    var next := DispatchStep(s);
    if k == 0 {
      DrainKeeps(next, q[0].taskId);
    } else {
      assert next.taskQueue[k - 1] == q[k];
      DrainUids(next, k - 1);
    }
  }

  /** A run that is not queued keeps its correlation id while draining. */
  lemma {:induction false} DrainKeeps<R>(s: State<R>, id: string)
    requires id in s.runUid && id !in QueuedIds(s.taskQueue)
    ensures id in Drain(s).runUid && Drain(s).runUid[id] == s.runUid[id]
    decreases |s.taskQueue|
  {
    var q := s.taskQueue;
    if q != [] {
      assert QueuedIds(q) == {q[0].taskId} + QueuedIds(q[1..]);
      DrainKeeps(DispatchStep(s), id);
    }
  }

  /** Entering the block with a free permit keeps the invariant. */
  lemma EnterPreserves<R>(s: State<R>, taskId: string)
    requires Inv(s) && taskId in s.waiting && s.permits > 0
    ensures Inv(EnterStep(s, taskId))
  {
    EnterKeepsGate(s, taskId);
    EnterKeepsRuns(s, taskId);
    EnterKeepsRegistry(s, taskId);
    EnterKeepsQueue(s, taskId);
    EnterKeepsEvents(s, taskId);
  }

  /** A run whose worker fails to start keeps the invariant. */
  lemma StrandPreserves<R>(s: State<R>, taskId: string)
    requires Inv(s) && taskId in s.waiting
    ensures Inv(StrandStep(s, taskId))
  {
    StrandKeepsQueue(s, taskId);
    StrandKeepsGate(s, taskId);
    StrandKeepsRuns(s, taskId);
    StrandKeepsRegistry(s, taskId);
    StrandKeepsEvents(s, taskId);
  }

  /** A run's turn at the semaphore: with no permit free nothing changes;
      otherwise it enters and takes a permit, or, if its worker fails to
      start, gives the permit straight back and ends with its future still
      registered. Either way no future changes. */
  lemma AcquireEffects<R>(s: State<R>, taskId: string, started: bool)
    ensures AcquireStep(s, taskId, started).handles == s.handles
    ensures AcquireStep(s, taskId, started).registered == s.registered
    ensures s.permits == 0 ==> AcquireStep(s, taskId, started) == s
    ensures s.permits > 0 && started ==>
              AcquireStep(s, taskId, started).permits == s.permits - 1 &&
              taskId in AcquireStep(s, taskId, started).holding &&
              taskId !in AcquireStep(s, taskId, started).waiting
    ensures s.permits > 0 && !started ==>
              AcquireStep(s, taskId, started).permits == s.permits &&
              taskId in AcquireStep(s, taskId, started).stranded &&
              taskId !in AcquireStep(s, taskId, started).waiting
  {
  }

  /** A run inside the block is registered, has its future, and has its
      correlation id. */
  lemma HoldingIsRegistered<R>(s: State<R>, taskId: string)
    requires GateOk(s) && QueueOk(s) && RunsOk(s) && RegistryOk(s) && taskId in s.holding
    ensures taskId in s.registered && taskId in s.handles && taskId in s.runUid
  {
  }

  /** After the `try` body the run's future is done, whatever it was. */
  lemma RecordDone<R>(s: State<R>, taskId: string, result: TaskResult<R>)
    requires taskId in s.registered && taskId in s.handles && taskId in s.runUid
    ensures taskId in RecordStep(s, taskId, result).handles
    ensures !RecordStep(s, taskId, result).handles[taskId].Pending?
  {
  }

  /** The `try` body keeps the invariant, and afterwards the run's future
      is done whatever it was before. */
  lemma RecordPreserves<R>(s: State<R>, taskId: string, result: TaskResult<R>)
    requires Inv(s) && taskId in s.holding
    ensures taskId in s.registered && taskId in s.handles && taskId in s.runUid
    ensures Inv(RecordStep(s, taskId, result))
    ensures !RecordStep(s, taskId, result).handles[taskId].Pending?
  {
    HoldingIsRegistered(s, taskId);
    RecordKeepsQueue(s, taskId, result);
    RecordKeepsEvents(s, taskId, result);
    RecordKeepsOthers(s, taskId, result);
    RecordKeepsCorr(s, taskId, result);
    RecordDone(s, taskId, result);
  }

  /** The `finally` and leaving the block keep the invariant once the
      run's future is done. */
  lemma FinishPreserves<R>(s: State<R>, taskId: string)
    requires Inv(s) && taskId in s.holding && taskId in s.handles && !s.handles[taskId].Pending?
    ensures Inv(FinishStep(s, taskId))
  {
    assert taskId in s.taken - s.finished;
    assert taskId !in QueuedIds(s.taskQueue) && taskId !in s.stranded;
    FinishKeepsQueue(s, taskId);
    FinishKeepsGate(s, taskId);
    FinishKeepsRuns(s, taskId);
    FinishKeepsRegistry(s, taskId);
    FinishKeepsEvents(s, taskId);
  }

  /** The end of a run: the future is resolved with `result` and exactly
      one event is put when it was pending, and neither happens when it was
      cancelled; every other future is untouched; the run pops only its own
      entry and releases its permit. */
  lemma ResolveEffects<R>(s: State<R>, taskId: string, result: TaskResult<R>)
    requires taskId in s.registered && taskId in s.handles && taskId in s.runUid
    ensures Settled(s.handles, ResolveStep(s, taskId, result).handles)
    ensures ResolveStep(s, taskId, result).registered == s.registered - {taskId}
    ensures s.handles[taskId].Pending? ==>
              && ResolveStep(s, taskId, result).handles == s.handles[taskId := Resolved(result)]
              && ResolveStep(s, taskId, result).completed == s.completed + [Event(s.runUid[taskId], result)]
    ensures !s.handles[taskId].Pending? ==>
              && ResolveStep(s, taskId, result).handles == s.handles
              && ResolveStep(s, taskId, result).completed == s.completed
    ensures ResolveStep(s, taskId, result).permits == s.permits + 1
  {
  }

  /** Cancelling changes only that future, and only when it is pending. */
  lemma CancelPreserves<R>(s: State<R>, taskId: string)
    requires Inv(s) && taskId in s.handles
    ensures Inv(CancelStep(s, taskId))
    ensures Settled(s.handles, CancelStep(s, taskId).handles)
    ensures CancelStep(s, taskId).handles ==
              if s.handles[taskId].Pending? then s.handles[taskId := Cancelled] else s.handles
    ensures CancelStep(s, taskId).completed == s.completed
  {
    CancelKeepsQueue(s, taskId);
    CancelKeepsEvents(s, taskId);
    CancelKeepsCorr(s, taskId);
    CancelEffects(s, taskId);
  }

  /** The semaphore never lets more than `max_processes` runs inside. */
  lemma GateBound<R>(s: State<R>)
    requires Inv(s)
    ensures |s.holding| <= s.maxProcesses && s.permits <= s.maxProcesses
  {
  }

  /** There are never more completion events than futures created. */
  lemma EventsBoundedByFutures<R>(s: State<R>)
    requires Inv(s)
    ensures |s.completed| <= |s.handles|
  {
    var keys := s.handles.Keys;
    assert keys == s.eventIds + (keys - s.eventIds);
    assert |keys| == |s.eventIds| + |keys - s.eventIds|;
  }

  /** `_runner` takes tasks in submission order: what it has taken is a
      prefix of the submissions. */
  lemma DispatchIsPrefix<R>(s: State<R>)
    requires Inv(s)
    ensures |s.dispatched| <= |s.submitted| && s.submitted[..|s.dispatched|] == s.dispatched
  {
  }

  /** A future is resolved exactly when some event names its task, and
      then it holds that event's result. */
  lemma EventsMatchFutures<R>(s: State<R>, id: string)
    requires Inv(s)
    requires id in s.handles
    ensures s.handles[id].Resolved? <==> exists k :: 0 <= k < |s.eventTasks| && s.eventTasks[k] == id
    ensures forall k :: 0 <= k < |s.eventTasks| && s.eventTasks[k] == id ==>
              s.handles[id] == Resolved(s.completed[k].result)
  {
  }

  /** Every event put on `completed_queue` carries the correlation id its
      task was submitted with (`uid or task_id`). */
  lemma EventsCarryCorrelationIds<R>(s: State<R>, k: int)
    requires Inv(s) && 0 <= k < |s.completed|
    ensures s.eventTasks[k] in s.handles && s.eventTasks[k] in s.corrIds
    ensures s.completed[k].uid == s.corrIds[s.eventTasks[k]]
  {
  }

  /** The event tasks, as many as their set, repeat none. */
  lemma EventTasksDistinct<R>(s: State<R>)
    requires EventsOk(s)
    ensures Strings.Distinct(s.eventTasks)
  {
    assert (set x | x in s.eventTasks) == s.eventIds;
    Strings.FullSetDistinct(s.eventTasks);
  }

  /** No task has two events: `set_result` runs at most once per future. */
  lemma OneEventPerTask<R>(s: State<R>, i: int, j: int)
    requires Inv(s) && 0 <= i < j < |s.eventTasks|
    ensures s.eventTasks[i] != s.eventTasks[j]
  {
    EventTasksDistinct(s);
  }

  /** Once nothing is queued or running and no worker failed to start, the
      registry is empty. */
  lemma QuiescentRegistryEmpty<R>(s: State<R>)
    requires Inv(s)
    requires s.taskQueue == [] && s.waiting == {} && s.holding == {} && s.stranded == {}
    ensures Registry(s) == map[]
  {
  }

  /** A worker that fails to start leaks its entry: one task, one permit,
      start raises, and the queue and the runs are empty while the
      registry still holds the pending future. */
  lemma StartFailureLeaks()
    ensures var s := AcquireStep(Drain(SubmitStep(Init<int>(1), "t", None)), "t", false);
            && s.taskQueue == [] && s.waiting == {} && s.holding == {}
            && Registry(s) == map["t" := Pending]
  {
    var s0 := SubmitStep(Init<int>(1), "t", None);
    assert s0.taskQueue == [QueuedTask("t", "t")];
    var s1 := DispatchStep(s0);
    assert Drain(s0) == Drain(s1);
    assert Drain(s1) == s1;
    var s2 := AcquireStep(s1, "t", false);
    assert s2.registered == {"t"} && s2.handles == map["t" := Pending];
  }

  class AsyncerMp<R> {
    /** `max_processes`, the semaphore's initial value. */
    const maxProcesses: int
    var permits: int
    var taskQueue: seq<QueuedTask>
    var handles: map<string, FutureState<R>>
    var registered: set<string>
    var completed: seq<Event<R>>
    var waiting: set<string>
    var holding: set<string>
    var runUid: map<string, string>
    ghost var submitted: seq<string>
    ghost var dispatched: seq<string>
    ghost var taken: set<string>
    ghost var finished: set<string>
    ghost var stranded: set<string>
    ghost var eventTasks: seq<string>
    ghost var eventIds: set<string>
    ghost var corrIds: map<string, string>

    /** The fields as a `State`. */
    ghost function Snap(): State<R>
      reads this
    {
      State(maxProcesses, permits, taskQueue, handles, registered, completed, waiting, holding, runUid,
            submitted, dispatched, taken, finished, stranded, eventTasks, eventIds, corrIds)
    }

    ghost predicate Valid()
      reads this
    {
      Inv(Snap())
    }

    /** `AsyncerMp(max_processes)`; `asyncio.Semaphore` rejects a negative value. */
    constructor (maxProcesses: int)
      requires maxProcesses >= 0
      ensures Valid() && Snap() == Init(maxProcesses)
    {
      this.maxProcesses := maxProcesses;
      permits := maxProcesses;
      taskQueue := [];
      handles := map[];
      registered := {};
      completed := [];
      waiting := {};
      holding := {};
      runUid := map[];
      submitted := [];
      dispatched := [];
      taken := {};
      finished := {};
      stranded := {};
      eventTasks := [];
      eventIds := {};
      corrIds := map[];
      InitValid<R>(maxProcesses);
    }

    /** The field updates of `submit`. */
    method ApplySubmit(taskId: string, uid: Option<string>)
      modifies this
      ensures Snap() == SubmitStep(old(Snap()), taskId, uid)
    {
      ghost var s0 := Snap();
      handles := handles[taskId := Pending];
      registered := registered + {taskId};
      taskQueue := taskQueue + [QueuedTask(taskId, CorrelationId(uid, taskId))];
      submitted := submitted + [taskId];
      corrIds := corrIds[taskId := CorrelationId(uid, taskId)];
      assert Snap() == SubmitStep(s0, taskId, uid);
    }

    /** `submit(task_data, async_func, uid)`, with `taskId` the fresh uuid. */
    method Submit(taskId: string, uid: Option<string>)
      requires Valid() && taskId !in handles
      modifies this
      ensures Snap() == SubmitStep(old(Snap()), taskId, uid) && Valid()
    {
      SubmitPreserves(Snap(), taskId, uid);
      ApplySubmit(taskId, uid);
    }

    /** The field updates of one `get` of `_runner` and of the
        `create_task` after it. */
    method ApplyDispatch()
      requires taskQueue != []
      modifies this
      ensures Snap() == DispatchStep(old(Snap()))
    {
      ghost var s0 := Snap();
      var item := taskQueue[0];
      taskQueue := taskQueue[1..];
      waiting := waiting + {item.taskId};
      runUid := runUid[item.taskId := item.uid];
      dispatched := dispatched + [item.taskId];
      taken := taken + {item.taskId};
      assert Snap() == DispatchStep(s0);
    }

    /** One `get` of `_runner` from a non-empty queue and the
        `create_task` that launches its run. */
    method Dispatch()
      requires Valid() && taskQueue != []
      modifies this
      ensures Snap() == DispatchStep(old(Snap())) && Valid()
    {
      DispatchPreserves(Snap());
      ApplyDispatch();
    }

    /** One wake-up of `_runner`: `get` on a non-empty queue and
        `create_task` do not suspend, so it takes every queued task before
        it waits again. */
    method RunnerWake()
      requires Valid()
      modifies this
      ensures Snap() == Drain(old(Snap())) && Valid()
    {
      while taskQueue != []
        invariant Valid()
        invariant Drain(Snap()) == Drain(old(Snap()))
        decreases |taskQueue|
      {
        Dispatch();
      }
    }

    /** The field updates of entering `async with self._semaphore`. */
    method ApplyEnter(taskId: string)
      modifies this
      ensures Snap() == EnterStep(old(Snap()), taskId)
    {
      permits := permits - 1;
      waiting := waiting - {taskId};
      holding := holding + {taskId};
    }

    /** The field updates of a run whose worker failed to start. */
    method ApplyStrand(taskId: string)
      modifies this
      ensures Snap() == StrandStep(old(Snap()), taskId)
    {
      waiting := waiting - {taskId};
      runUid := runUid - {taskId};
      finished := finished + {taskId};
      stranded := stranded + {taskId};
    }

    /** A waiting run's turn at `async with self._semaphore`; `started`
        says whether creating and starting its worker process succeeded. */
    method Acquire(taskId: string, started: bool) returns (entered: bool)
      requires Valid() && taskId in waiting
      modifies this
      ensures entered <==> old(permits) > 0
      ensures Snap() == AcquireStep(old(Snap()), taskId, started) && Valid()
    {
      entered := permits > 0;
      if entered && started {
        EnterPreserves(Snap(), taskId);
        ApplyEnter(taskId);
      } else if entered {
        StrandPreserves(Snap(), taskId);
        ApplyStrand(taskId);
      }
    }

    /** The field updates of the `try` body once `result` is in. */
    method ApplyRecord(taskId: string, result: TaskResult<R>)
      requires taskId in runUid
      modifies this
      ensures Snap() == RecordStep(old(Snap()), taskId, result)
    {
      if taskId in registered && taskId in handles && handles[taskId].Pending? {
        handles := handles[taskId := Resolved(result)];
        eventTasks := eventTasks + [taskId];
        eventIds := eventIds + {taskId};
        completed := completed + [Event(runUid[taskId], result)];
      }
    }

    /** The field updates of the `finally` and of leaving the block. */
    method ApplyFinish(taskId: string)
      modifies this
      ensures Snap() == FinishStep(old(Snap()), taskId)
    {
      ghost var s0 := Snap();
      registered := registered - {taskId};
      holding := holding - {taskId};
      runUid := runUid - {taskId};
      finished := finished + {taskId};
      permits := permits + 1;
      assert Snap() == FinishStep(s0, taskId);
    }

    /** The rest of `_run_task` once `result` is in. */
    method Resolve(taskId: string, result: TaskResult<R>)
      requires Valid() && taskId in holding
      modifies this
      ensures Snap() == ResolveStep(old(Snap()), taskId, result) && Valid()
    {
      RecordPreserves(Snap(), taskId, result);
      ApplyRecord(taskId, result);
      FinishPreserves(Snap(), taskId);
      ApplyFinish(taskId);
    }

    /** The worker's message arrives. */
    method Deliver(taskId: string, outcome: WorkerOutcome<R>)
      requires Valid() && taskId in holding
      modifies this
      ensures Snap() == ResolveStep(old(Snap()), taskId, WorkerMessage(outcome)) && Valid()
    {
      Resolve(taskId, WorkerMessage(outcome));
    }

    /** Receiving from the pipe raises with message `message`. */
    method FailReceive(taskId: string, message: string)
      requires Valid() && taskId in holding
      modifies this
      ensures Snap() == ResolveStep(old(Snap()), taskId, ReceiveFailure(message)) && Valid()
    {
      Resolve(taskId, ReceiveFailure(message));
    }

    /** The field update of `future.cancel()`. */
    method ApplyCancel(taskId: string) returns (cancelled: bool)
      requires taskId in handles
      modifies this
      ensures cancelled <==> old(handles[taskId]).Pending?
      ensures Snap() == CancelStep(old(Snap()), taskId)
    {
      cancelled := handles[taskId].Pending?;
      if cancelled {
        handles := handles[taskId := Cancelled];
      }
    }

    /** The caller cancels the future `submit` returned. */
    method CancelFuture(taskId: string) returns (cancelled: bool)
      requires Valid() && taskId in handles
      modifies this
      ensures cancelled <==> old(handles[taskId]).Pending?
      ensures Snap() == CancelStep(old(Snap()), taskId) && Valid()
    {
      CancelPreserves(Snap(), taskId);
      cancelled := ApplyCancel(taskId);
    }
  }
}

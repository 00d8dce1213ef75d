/** What a worker reports about itself, what a client asks for, and the replicated worker table. */
module WorkerTypes {
  import opened Common

  // Worker ids, tasks and names are strings that are only ever compared; numbers stand for them.
  type WorkerId = nat
  type Task = nat

  /** The name of an ISP, a region, a media format or an algorithm. */
  type Name = nat

  datatype Purpose =
    | Portal | Conference | Webrtc | Recording | Streaming | Sip | Audio | Video | Analytics
    | Quic | MediaBridge | EventBridge | OtherPurpose(name: Name)

  /** The formats a video worker (or a client) names. */
  datatype VideoFormats = VideoFormats(encode: seq<Name>, decode: seq<Name>)

  datatype Capacity = Capacity(
    isps: seq<Name>, regions: seq<Name>,
    video: Option<VideoFormats>, algorithms: seq<Name>)

  /** `None` stands for JavaScript's `undefined`. */
  datatype Info = Info(maxLoad: Option<real>, capacity: Capacity)

  datatype Preference = Preference(
    isp: Option<Name>, region: Option<Name>,
    video: Option<VideoFormats>, algorithm: Option<Name>)

  /** A worker as one scheduler keeps it. */
  datatype Worker = Worker(state: Option<int>, load: real, info: Info, tasks: seq<Task>)

  /** `info.maxLoad || 1.0`: a missing or zero maximum counts as 1. */
  function InitialLoad(info: Info): real {
    if info.maxLoad.Some? && info.maxLoad.value != 0.0 then info.maxLoad.value else 1.0
  }

  function NewWorker(info: Info): Worker {
    Worker(None, InitialLoad(info), info, [])
  }

  /** The task list after picking up `picked`, one after the other. */
  function AfterPickUp(tasks: seq<Task>, picked: seq<Task>): (r: seq<Task>)
    ensures NoDup(tasks) ==> NoDup(r)
    ensures forall t :: t in r <==> t in tasks || t in picked
    decreases |picked|
  {
    if picked == [] then tasks else Pushed(AfterPickUp(tasks, picked[..|picked| - 1]), picked[|picked| - 1])
  }

  /** A worker with the purpose it joined for. */
  datatype Record = Record(purpose: Purpose, worker: Worker)

  type Table = map<WorkerId, Record>

  /** What the leader sends its followers, one entry for each update it served. */
  datatype Entry =
    | WorkerJoin(purpose: Purpose, worker: WorkerId, info: Info)
    | WorkerQuit(worker: WorkerId)
    | WorkerState(worker: WorkerId, state: Option<int>)
    | WorkerLoad(worker: WorkerId, load: real)
    | WorkerPickup(worker: WorkerId, tasks: seq<Task>)
    | WorkerLaydown(worker: WorkerId, task: Task)
    | Scheduled(purpose: Purpose, task: Task, worker: WorkerId, reserveTime: int)
    | Unscheduled(worker: WorkerId, task: Task)

  /** The worker a table-changing entry leaves behind for a registered worker. */
  function Updated(w: Worker, e: Entry): Worker {
    match e
    case WorkerState(_, s) => w.(state := s)
    case WorkerLoad(_, l) => w.(load := l)
    case WorkerPickup(_, ts) => w.(tasks := AfterPickUp(w.tasks, ts))
    case WorkerLaydown(_, t) => w.(tasks := Without(w.tasks, t))
    case _ => w
  }

  /** The worker table after one entry. Bookings are not part of the table. */
  function Replay(t: Table, e: Entry): Table {
    match e
    case WorkerJoin(p, w, i) => t[w := Record(p, NewWorker(i))]
    case WorkerQuit(w) => t - {w}
    case Scheduled(_, _, _, _) => t
    case _ => if e.worker in t then t[e.worker := t[e.worker].(worker := Updated(t[e.worker].worker, e))] else t
  }
}

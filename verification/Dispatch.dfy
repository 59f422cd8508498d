/** The acceptor and the workers as interleaved steps: server/src/server/server.cpp,
    client_service_supervisor.cpp, client_service.cpp and client_pool.cpp.

    Descriptor numbers are reused by the system once closed; `Gen` tells connections with
    the same number apart. The code never sees it. */
module Dispatch {

  type Fd = nat
  type Gen = nat
  type WorkerId = nat

  /** An entry of a worker's event buffer. */
  datatype Notice = Io(fd: Fd, gen: Gen) | StopNotice

  /** Where a worker is between has_client, get_client, handle and rearm_device. */
  datatype Pc = Idle | Checked(fd: Fd, gen: Gen) | Busy(fd: Fd, gen: Gen) | Handled(fd: Fd, gen: Gen) | Ended

  datatype Worker = Worker(pc: Pc, todo: seq<Notice>, running: bool)

  const NEW_WORKER := Worker(Idle, [], true)

  /** The main thread: in its event loop; between a socket's registration and the client's
      insertion into the pool; in stop, waiting for the workers. */
  datatype Phase = Listening | Registered(fd: Fd) | Joining

  /** What the main thread's epoll set reports: a signal, or a connection to be accepted. */
  datatype MainEvent = Signal | Connection

  datatype Client = Client(gen: Gen, alive: bool)

  /** `sockets` are the open connections, `epoll` says which of them are armed, `pool` the
      clients. Of the main thread: `batch` is the rest of its event buffer, `running` the
      server's flag, which only the outer loop looks at, and `stopped` says that the
      supervisor's stop has returned. */
  datatype State = State(sockets: map<Fd, Gen>, epoll: map<Fd, bool>, pool: map<Fd, Client>,
                         workers: map<WorkerId, Worker>, phase: Phase, batch: seq<MainEvent>,
                         running: bool, stopped: bool, next: Gen, limit: nat)

  function Initial(workers: set<WorkerId>, limit: nat): State {
    State(map[], map[], map[], map w | w in workers :: NEW_WORKER, Listening, [], true, false, 0, limit)
  }

  datatype Step =
    | Poll(batch: seq<MainEvent>) | Accept(fd: Fd) | Spawn | BeginStop | Unwind | FinishStop
    | Deliver(w: WorkerId, notices: seq<Notice>) | Look(w: WorkerId) | Get(w: WorkerId)
    | Handle(w: WorkerId, alive: bool) | Rearm(w: WorkerId) | Finish(w: WorkerId) | Crash(w: WorkerId)

  // ---------- the event buffer ----------

  function FdsOf(todo: seq<Notice>): set<Fd> {
    if todo == [] then {}
    else (if todo[0].Io? then {todo[0].fd} else {}) + FdsOf(todo[1..])
  }

  lemma {:induction false} FdsOfExact(todo: seq<Notice>, fd: Fd)
    ensures fd in FdsOf(todo) <==> exists n <- todo :: n.Io? && n.fd == fd
  {
    if todo != [] {
      FdsOfExact(todo[1..], fd);
      assert todo == [todo[0]] + todo[1..];
    }
  }

  predicate Distinct(todo: seq<Notice>) {
    todo == [] || ((todo[0].Io? ==> todo[0].fd !in FdsOf(todo[1..])) && Distinct(todo[1..]))
  }

  /** epoll_wait hands out armed descriptors, each once; the stop pipe is readable once
      stop has been called, and stays so. */
  predicate Deliverable(s: State, notices: seq<Notice>) {
    && Distinct(notices)
    && forall n <- notices ::
         if n.StopNotice? then s.phase.Joining?
         else n.fd in s.epoll && s.epoll[n.fd] && n.fd in s.sockets && s.sockets[n.fd] == n.gen
  }

  /** One-shot: what is handed out is disarmed. */
  function Disarmed(epoll: map<Fd, bool>, fds: set<Fd>): map<Fd, bool> {
    map fd | fd in epoll :: epoll[fd] && fd !in fds
  }

  // ---------- steps ----------

  function SetWorker(s: State, w: WorkerId, worker: Worker): State { s.(workers := s.workers[w := worker]) }

  /** The outer loop: a new batch, with each descriptor once, unless the server is to end. */
  function PollStep(s: State, batch: seq<MainEvent>): State {
    if s.phase.Listening? && s.batch == [] && s.running && OncePerDevice(batch) then s.(batch := batch) else s
  }

  predicate OncePerDevice(batch: seq<MainEvent>) { |batch| <= 2 && (|batch| == 2 ==> batch[0] != batch[1]) }

  /** The inner loop is at this event; it does not look at `running`. */
  predicate At(s: State, e: MainEvent) { s.phase.Listening? && s.batch != [] && s.batch[0] == e }

  /** handle_connection and the first half of accept_connection; a connection over the limit
      is dropped. */
  function AcceptStep(s: State, fd: Fd): State {
    if !At(s, Connection) || fd in s.sockets then s
    else if |s.pool| < s.limit then
      s.(sockets := s.sockets[fd := s.next], epoll := s.epoll[fd := true], phase := Registered(fd),
         batch := s.batch[1..], next := s.next + 1)
    else s.(batch := s.batch[1..])
  }

  /** Server::stop up to the joining of the workers: only the first call does anything. */
  function StopCalled(s: State, batch: seq<MainEvent>): State {
    if s.running then s.(batch := batch, running := false, phase := Joining) else s.(batch := batch)
  }

  /** An exception leaves the event loop, and the destructor calls stop. */
  function UnwindStep(s: State): State { if s.phase.Listening? then StopCalled(s, []) else s }

  function SignalStep(s: State): State { if At(s, Signal) then StopCalled(s, s.batch[1..]) else s }

  /** spawn_client */
  function SpawnStep(s: State): State {
    if s.phase.Registered? && s.phase.fd in s.sockets then
      s.(pool := s.pool[s.phase.fd := Client(s.sockets[s.phase.fd], true)], phase := Listening)
    else s
  }

  /** The end of ClientServiceSupervisor::stop: all workers joined, then close_all; the main
      thread goes on with its batch. */
  function FinishStopStep(s: State): State {
    if s.phase.Joining? && forall w <- s.workers :: s.workers[w].pc.Ended? then
      s.(sockets := s.sockets - s.pool.Keys, epoll := s.epoll - s.pool.Keys, pool := map[],
         phase := Listening, stopped := true)
    else s
  }

  function DeliverStep(s: State, w: WorkerId, worker: Worker, notices: seq<Notice>): State {
    if worker.pc.Idle? && worker.todo == [] && worker.running && Deliverable(s, notices) then
      SetWorker(s, w, worker.(todo := notices)).(epoll := Disarmed(s.epoll, FdsOf(notices)))
    else s
  }

  /** The next event: the stop pipe, a client in the pool, or something to be ignored. */
  function LookStep(s: State, w: WorkerId, worker: Worker): State {
    if !worker.pc.Idle? || worker.todo == [] then s
    else
      var rest := worker.(todo := worker.todo[1..]);
      match worker.todo[0]
      case StopNotice => SetWorker(s, w, rest.(running := false))
      case Io(fd, gen) => SetWorker(s, w, if fd in s.pool then rest.(pc := Checked(fd, gen)) else rest)
  }

  /** get_client: a missing client is a fatal error of the worker. */
  function GetStep(s: State, w: WorkerId, worker: Worker): State {
    if !worker.pc.Checked? then s
    else if worker.pc.fd in s.pool then SetWorker(s, w, worker.(pc := Busy(worker.pc.fd, s.pool[worker.pc.fd].gen)))
    else SetWorker(s, w, Worker(Ended, [], worker.running))
  }

  /** Client::handle, after which the client may be dead. */
  function HandleStep(s: State, w: WorkerId, worker: Worker, alive: bool): State {
    if !worker.pc.Busy? || worker.pc.fd !in s.pool then s
    else
      var fd := worker.pc.fd;
      SetWorker(s, w, worker.(pc := Handled(fd, worker.pc.gen)))
        .(pool := s.pool[fd := s.pool[fd].(alive := s.pool[fd].alive && alive)])
  }

  /** rearm_device: arm again, or erase the client, which closes its socket. */
  function RearmStep(s: State, w: WorkerId, worker: Worker): State {
    if !worker.pc.Handled? || worker.pc.fd !in s.pool || worker.pc.fd !in s.epoll then s
    else
      var fd, s := worker.pc.fd, SetWorker(s, w, worker.(pc := Idle));
      if s.pool[fd].alive then s.(epoll := s.epoll[fd := true])
      else s.(pool := s.pool - {fd}, sockets := s.sockets - {fd}, epoll := s.epoll - {fd})
  }

  /** The end of main_loop. */
  function FinishStep(s: State, w: WorkerId, worker: Worker): State {
    if worker.pc.Idle? && worker.todo == [] && !worker.running then SetWorker(s, w, worker.(pc := Ended)) else s
  }

  function Next(s: State, e: Step): State {
    match e
    case Poll(batch) => PollStep(s, batch)
    case Accept(fd) => AcceptStep(s, fd)
    case Spawn => SpawnStep(s)
    case BeginStop => SignalStep(s)
    case Unwind => UnwindStep(s)
    case FinishStop => FinishStopStep(s)
    case _ =>
      if e.w !in s.workers then s
      else
        var worker := s.workers[e.w];
        match e
        case Deliver(w, notices) => DeliverStep(s, w, worker, notices)
        case Look(w) => LookStep(s, w, worker)
        case Get(w) => GetStep(s, w, worker)
        case Handle(w, alive) => HandleStep(s, w, worker, alive)
        case Rearm(w) => RearmStep(s, w, worker)
        case Finish(w) => FinishStep(s, w, worker)
        case Crash(w) => SetWorker(s, w, Worker(Ended, [], worker.running))
  }

  function Run(s: State, steps: seq<Step>): State
    decreases |steps|
  {
    if steps == [] then s else Run(Next(s, steps[0]), steps[1..])
  }

  // ---------- ownership ----------

  /** Between has_client and the end of rearm_device. */
  predicate Touches(worker: Worker) { worker.pc.Checked? || worker.pc.Busy? || worker.pc.Handled? }

  function Holding(pc: Pc): set<Fd> { if pc.Checked? || pc.Busy? || pc.Handled? then {pc.fd} else {} }

  function Claims(worker: Worker): set<Fd> { Holding(worker.pc) + FdsOf(worker.todo) }

  /** A descriptor handed out and not yet given back: open, disarmed, and still the
      connection it was when it was handed out. */
  ghost predicate Claimed(s: State, fd: Fd, gen: Gen) {
    fd in s.sockets && s.sockets[fd] == gen && fd in s.epoll && !s.epoll[fd]
  }

  ghost predicate WorkerOk(s: State, worker: Worker) {
    && Distinct(worker.todo) && Holding(worker.pc) !! FdsOf(worker.todo)
    && (forall n <- worker.todo :: n.Io? ==> Claimed(s, n.fd, n.gen))
    && (Touches(worker) ==>
          Claimed(s, worker.pc.fd, worker.pc.gen) && worker.pc.fd in s.pool)
    && (worker.pc.Ended? ==> worker.todo == [])
  }

  /** Connections have different generations, all of them given out. */
  ghost predicate GensOk(sockets: map<Fd, Gen>, next: Gen) {
    && (forall fd <- sockets :: sockets[fd] < next)
    && forall i, j | i in sockets && j in sockets :: sockets[i] == sockets[j] ==> i == j
  }

  ghost predicate TablesOk(s: State) {
    && s.epoll.Keys == s.sockets.Keys
    && (forall fd <- s.pool :: fd in s.sockets && s.pool[fd].gen == s.sockets[fd])
    && (forall fd <- s.sockets :: fd in s.pool || s.phase == Registered(fd))
    && GensOk(s.sockets, s.next)
    && (s.phase.Registered? ==> s.phase.fd in s.sockets && s.phase.fd !in s.pool)
    && |s.pool| <= s.limit && (s.phase.Registered? ==> |s.pool| < s.limit)
  }

  /** After stop no worker is left, and at most one connection: the one the batch may still
      hold. */
  ghost predicate MainOk(s: State) {
    && OncePerDevice(s.batch)
    && (s.phase.Joining? ==> !s.running && !s.stopped) && (s.stopped ==> !s.running)
    && (!s.running && !s.stopped ==> s.phase.Joining?)
    && (s.stopped ==> (forall w <- s.workers :: s.workers[w].pc.Ended?) && Late(s) <= 1)
  }

  /** Clients there are, or may still come with the rest of the batch. */
  ghost function Late(s: State): nat {
    |s.pool| + (if s.phase.Registered? then 1 else 0) + (if Connection in s.batch then 1 else 0)
  }

  ghost predicate Apart(s: State) {
    forall v, w | v in s.workers && w in s.workers && v != w :: Claims(s.workers[v]) !! Claims(s.workers[w])
  }

  ghost predicate Inv(s: State) {
    TablesOk(s) && MainOk(s) && Apart(s) && WorkersOk(s)
  }

  ghost predicate WorkersOk(s: State) { forall w <- s.workers :: WorkerOk(s, s.workers[w]) }

  lemma InitialInv(workers: set<WorkerId>, limit: nat)
    ensures Inv(Initial(workers, limit))
  {
  }

  /** A worker that claims nothing new keeps apart from the others. */
  lemma ShrinkApart(s: State, w: WorkerId, worker: Worker)
    requires Apart(s) && w in s.workers && Claims(worker) <= Claims(s.workers[w])
    ensures Apart(SetWorker(s, w, worker))
  {
    var s' := SetWorker(s, w, worker);
    forall u, v | u in s'.workers && v in s'.workers && u != v
      ensures Claims(s'.workers[u]) !! Claims(s'.workers[v])
    {
      assert Claims(s.workers[u]) !! Claims(s.workers[v]);
    }
  }

  lemma SameApart(s: State, s': State)
    requires Apart(s) && s'.workers == s.workers
    ensures Apart(s')
  {
  }

  /** For these descriptors, nothing a worker relies on has changed. */
  ghost predicate Agree(s: State, s': State, fds: set<Fd>) {
    forall fd <- fds :: fd in s.sockets && fd in s.epoll ==>
      && fd in s'.sockets && s'.sockets[fd] == s.sockets[fd] && fd in s'.epoll && s'.epoll[fd] == s.epoll[fd]
      && (fd in s.pool ==> fd in s'.pool)
  }

  lemma WorkerFrame(s: State, s': State, worker: Worker)
    requires WorkerOk(s, worker) && Agree(s, s', Claims(worker))
    ensures WorkerOk(s', worker)
  {
    forall n | n in worker.todo && n.Io? ensures Claimed(s', n.fd, n.gen) {
      FdsOfExact(worker.todo, n.fd);
      assert n.fd in Claims(worker) && Claimed(s, n.fd, n.gen);
    }
    assert Touches(worker) ==> worker.pc.fd in Claims(worker);
  }

  lemma AllFramed(s: State, s': State)
    requires WorkersOk(s) && s'.workers == s.workers && forall w <- s.workers :: Agree(s, s', Claims(s.workers[w]))
    ensures WorkersOk(s')
  {
    forall w | w in s'.workers ensures WorkerOk(s', s'.workers[w]) {
      WorkerFrame(s, s', s.workers[w]);
    }
  }

  /** One worker moves, the others see nothing of it. */
  lemma OthersFramed(s: State, s': State, w: WorkerId, worker: Worker)
    requires WorkersOk(s) && s'.workers == s.workers[w := worker] && WorkerOk(s', worker)
    requires forall v <- s.workers :: v != w ==> Agree(s, s', Claims(s.workers[v]))
    ensures WorkersOk(s')
  {
    forall v | v in s'.workers && v != w ensures WorkerOk(s', s'.workers[v]) {
      WorkerFrame(s, s', s.workers[v]);
    }
  }

  /** What a worker claims is disarmed. */
  lemma ClaimsDisarmed(s: State, worker: Worker, fd: Fd)
    requires WorkerOk(s, worker) && fd in Claims(worker)
    ensures fd in s.sockets && fd in s.epoll && !s.epoll[fd]
  {
    if fd in FdsOf(worker.todo) {
      FdsOfExact(worker.todo, fd);
      var n :| n in worker.todo && n.Io? && n.fd == fd;
      assert Claimed(s, n.fd, n.gen);
    }
  }

  lemma AcceptKeeps(s: State, fd: Fd)
    requires Inv(s)
    ensures Inv(AcceptStep(s, fd))
  {
    AcceptAgrees(s, fd);
    hide TablesOk, MainOk, Apart, WorkersOk, Agree, AcceptStep;
    AcceptTables(s, fd);
    AcceptMain(s, fd);
    SameApart(s, AcceptStep(s, fd));
    AllFramed(s, AcceptStep(s, fd));
  }

  lemma AcceptAgrees(s: State, fd: Fd)
    ensures AcceptStep(s, fd).workers == s.workers
    ensures forall w <- s.workers :: Agree(s, AcceptStep(s, fd), Claims(s.workers[w]))
  {
    hide Claims;
  }

  lemma AcceptTables(s: State, fd: Fd)
    requires TablesOk(s)
    ensures TablesOk(AcceptStep(s, fd))
  {
    hide TablesOk;
    var s' := AcceptStep(s, fd);
    if At(s, Connection) && fd !in s.sockets && |s.pool| < s.limit {
      AdmitTables(s, s', fd);
    } else {
      SameTables(s, s');
    }
  }

  lemma SameTables(s: State, s': State)
    requires TablesOk(s) && s' == s.(batch := s'.batch)
    ensures TablesOk(s')
  {
  }

  lemma AdmitTables(s: State, s': State, fd: Fd)
    requires TablesOk(s) && s.phase.Listening? && fd !in s.sockets && |s.pool| < s.limit
    requires s'.sockets == s.sockets[fd := s.next] && s'.epoll == s.epoll[fd := true] && s'.next == s.next + 1
    requires s'.pool == s.pool && s'.phase == Registered(fd) && s'.limit == s.limit
    ensures TablesOk(s')
  {
    NewGen(s.sockets, s.next, fd);
    hide GensOk;
    forall f | f in s'.sockets ensures f in s'.pool || s'.phase == Registered(f) {
      assert f != fd ==> f in s.sockets;
    }
  }

  lemma NewGen(sockets: map<Fd, Gen>, next: Gen, fd: Fd)
    requires GensOk(sockets, next)
    ensures fd !in sockets ==> GensOk(sockets[fd := next], next + 1)
  {
  }

  lemma AcceptMain(s: State, fd: Fd)
    requires MainOk(s)
    ensures MainOk(AcceptStep(s, fd))
  {
    if At(s, Connection) { NextEvent(s.batch); }
  }

  /** What the main thread relies on, when a worker moves. */
  lemma MainFrame(s: State, s': State)
    requires MainOk(s) && |s'.pool| <= |s.pool|
    requires s'.phase == s.phase && s'.batch == s.batch && s'.running == s.running && s'.stopped == s.stopped
    requires s.stopped ==> forall w <- s'.workers :: s'.workers[w].pc.Ended?
    ensures MainOk(s')
  {
  }

  lemma NextEvent(batch: seq<MainEvent>)
    requires OncePerDevice(batch) && batch != []
    ensures OncePerDevice(batch[1..]) && batch[0] !in batch[1..] && forall e <- batch[1..] :: e in batch
  {
  }

  lemma SpawnKeeps(s: State)
    requires Inv(s)
    ensures Inv(SpawnStep(s))
  {
    hide TablesOk, MainOk, Apart, WorkersOk, Claims;
    SpawnTables(s);
    SpawnMain(s);
    SameApart(s, SpawnStep(s));
    AllFramed(s, SpawnStep(s));
  }

  lemma SpawnTables(s: State)
    requires TablesOk(s)
    ensures TablesOk(SpawnStep(s))
  {
    if s.phase.Registered? { OneMore(s.pool, s.phase.fd, Client(s.sockets[s.phase.fd], true)); }
  }

  lemma SpawnMain(s: State)
    requires MainOk(s) && TablesOk(s)
    ensures MainOk(SpawnStep(s))
  {
    if s.phase.Registered? { OneMore(s.pool, s.phase.fd, Client(s.sockets[s.phase.fd], true)); }
  }

  lemma OneMore(pool: map<Fd, Client>, fd: Fd, client: Client)
    requires fd !in pool
    ensures |pool[fd := client]| == |pool| + 1
  {
    var pool' := pool[fd := client];
    assert pool'.Keys == pool.Keys + {fd};
    assert |pool'| == |pool'.Keys| && |pool| == |pool.Keys|;
  }

  lemma FinishStopKeeps(s: State)
    requires Inv(s)
    ensures Inv(FinishStopStep(s))
  {
    StopMain(s);
    hide TablesOk, MainOk, Apart, WorkersOk;
    SameApart(s, FinishStopStep(s));
    if s.phase.Joining? && forall w <- s.workers :: s.workers[w].pc.Ended? {
      StopTables(s);
      AllEnded(s, FinishStopStep(s));
    }
  }

  lemma StopMain(s: State)
    requires MainOk(s)
    ensures MainOk(FinishStopStep(s))
  {
  }

  lemma StopTables(s: State)
    requires TablesOk(s)
    ensures TablesOk(FinishStopStep(s))
  {
  }

  lemma AllEnded(s: State, s': State)
    requires WorkersOk(s) && s'.workers == s.workers && forall w <- s.workers :: s.workers[w].pc.Ended?
    ensures WorkersOk(s')
  {
    forall w | w in s'.workers ensures WorkerOk(s', s'.workers[w]) {
      assert WorkerOk(s, s.workers[w]);
    }
  }

  /** What is handed out was claimed by nobody. */
  lemma DeliveredFresh(s: State, notices: seq<Notice>, v: WorkerId)
    requires WorkersOk(s) && Deliverable(s, notices) && v in s.workers
    ensures Claims(s.workers[v]) !! FdsOf(notices)
  {
    forall fd | fd in Claims(s.workers[v]) ensures fd !in FdsOf(notices) {
      ClaimsDisarmed(s, s.workers[v], fd);
      FdsOfExact(notices, fd);
    }
  }

  lemma DeliverApart(s: State, w: WorkerId, notices: seq<Notice>)
    requires Apart(s) && w in s.workers && s.workers[w].pc.Idle? && s.workers[w].todo == []
    requires forall v <- s.workers :: Claims(s.workers[v]) !! FdsOf(notices)
    ensures Apart(SetWorker(s, w, s.workers[w].(todo := notices)))
  {
    var s' := SetWorker(s, w, s.workers[w].(todo := notices));
    assert Claims(s'.workers[w]) == FdsOf(notices);
    forall u, v | u in s'.workers && v in s'.workers && u != v
      ensures Claims(s'.workers[u]) !! Claims(s'.workers[v])
    {
      assert Claims(s.workers[u]) !! Claims(s.workers[v]);
    }
  }

  lemma DeliverTables(s: State, w: WorkerId, notices: seq<Notice>)
    requires TablesOk(s) && w in s.workers
    ensures TablesOk(DeliverStep(s, w, s.workers[w], notices))
  {
    assert Disarmed(s.epoll, FdsOf(notices)).Keys == s.epoll.Keys;
  }

  lemma DeliverOk(s: State, s': State, worker: Worker, notices: seq<Notice>)
    requires worker.pc.Idle? && Deliverable(s, notices)
    requires s'.sockets == s.sockets && s'.epoll == Disarmed(s.epoll, FdsOf(notices))
    ensures WorkerOk(s', worker.(todo := notices))
  {
    forall n | n in notices && n.Io? ensures Claimed(s', n.fd, n.gen) {
      FdsOfExact(notices, n.fd);
    }
  }

  lemma DeliverKeeps(s: State, w: WorkerId, notices: seq<Notice>)
    requires Inv(s) && w in s.workers
    ensures Inv(DeliverStep(s, w, s.workers[w], notices))
  {
    hide TablesOk, MainOk, Apart, WorkersOk, Claims, Deliverable, FdsOf;
    var worker, s' := s.workers[w], DeliverStep(s, w, s.workers[w], notices);
    if worker.pc.Idle? && worker.todo == [] && worker.running && Deliverable(s, notices) {
      DeliverTables(s, w, notices);
      if s.stopped { EndedOf(s, w); }
      MainFrame(s, s');
      forall v | v in s.workers ensures Claims(s.workers[v]) !! FdsOf(notices) {
        DeliveredFresh(s, notices, v);
      }
      DeliverApart(s, w, notices);
      SameApart(SetWorker(s, w, worker.(todo := notices)), s');
      DeliverOk(s, s', worker, notices);
      OthersFramed(s, s', w, worker.(todo := notices));
    }
  }

  lemma FdsOfHead(todo: seq<Notice>)
    requires todo != []
    ensures FdsOf(todo) == (if todo[0].Io? then {todo[0].fd} else {}) + FdsOf(todo[1..])
  {
  }

  lemma LookOk(s: State, w: WorkerId)
    requires w in s.workers && WorkerOk(s, s.workers[w]) && s.workers[w].pc.Idle? && s.workers[w].todo != []
    ensures var worker' := LookStep(s, w, s.workers[w]).workers[w];
      WorkerOk(s, worker') && Claims(worker') <= Claims(s.workers[w])
  {
    var todo := s.workers[w].todo;
    FdsOfHead(todo);
    assert todo[0] in todo && forall n <- todo[1..] :: n in todo;
  }

  /** A step of one worker that leaves the tables alone. */
  lemma WorkerStep(s: State, w: WorkerId, worker: Worker)
    requires Inv(s) && w in s.workers && WorkerOk(s, worker) && Claims(worker) <= Claims(s.workers[w])
    requires s.stopped ==> worker.pc.Ended?
    ensures Inv(SetWorker(s, w, worker))
  {
    hide TablesOk, MainOk, Apart, WorkersOk, Claims;
    WorkerTables(s, w, worker);
    WorkerMain(s, w, worker);
    ShrinkApart(s, w, worker);
    WorkerFrame(s, SetWorker(s, w, worker), worker);
    OthersFramed(s, SetWorker(s, w, worker), w, worker);
  }

  lemma WorkerTables(s: State, w: WorkerId, worker: Worker)
    requires TablesOk(s) && w in s.workers
    ensures TablesOk(SetWorker(s, w, worker))
  {
  }

  lemma WorkerMain(s: State, w: WorkerId, worker: Worker)
    requires MainOk(s) && w in s.workers && (s.stopped ==> worker.pc.Ended?)
    ensures MainOk(SetWorker(s, w, worker))
  {
  }

  lemma OkOf(s: State, w: WorkerId)
    requires WorkersOk(s) && w in s.workers
    ensures WorkerOk(s, s.workers[w])
  {
  }

  lemma EndedOf(s: State, w: WorkerId)
    requires MainOk(s) && w in s.workers && s.stopped
    ensures s.workers[w].pc.Ended?
  {
  }

  lemma LookKeeps(s: State, w: WorkerId)
    requires Inv(s) && w in s.workers
    ensures Inv(LookStep(s, w, s.workers[w]))
  {
    hide TablesOk, MainOk, Apart, WorkersOk;
    OkOf(s, w);
    if s.workers[w].pc.Idle? && s.workers[w].todo != [] {
      if s.stopped { EndedOf(s, w); }
      LookOk(s, w);
      WorkerStep(s, w, LookStep(s, w, s.workers[w]).workers[w]);
    }
  }

  lemma GenOf(s: State, fd: Fd)
    requires TablesOk(s) && fd in s.pool
    ensures fd in s.sockets && s.pool[fd].gen == s.sockets[fd] && fd in s.epoll
  {
  }

  lemma GetKeeps(s: State, w: WorkerId)
    requires Inv(s) && w in s.workers
    ensures Inv(GetStep(s, w, s.workers[w]))
  {
    hide TablesOk, MainOk, Apart, WorkersOk;
    OkOf(s, w);
    if s.workers[w].pc.Checked? {
      if s.stopped { EndedOf(s, w); }
      GenOf(s, s.workers[w].pc.fd);
      WorkerStep(s, w, GetStep(s, w, s.workers[w]).workers[w]);
    }
  }

  lemma HandleKeeps(s: State, w: WorkerId, alive: bool)
    requires Inv(s) && w in s.workers
    ensures Inv(HandleStep(s, w, s.workers[w], alive))
  {
    hide TablesOk, MainOk, Apart, WorkersOk;
    var worker, s' := s.workers[w], HandleStep(s, w, s.workers[w], alive);
    OkOf(s, w);
    if worker.pc.Busy? {
      if s.stopped { EndedOf(s, w); }
      assert s'.pool.Keys == s.pool.Keys && |s'.pool| == |s'.pool.Keys| && |s.pool| == |s.pool.Keys|;
      MainFrame(s, s');
      var worker' := worker.(pc := Handled(worker.pc.fd, worker.pc.gen));
      HandleTables(s, w, alive);
      ShrinkApart(s, w, worker');
      SameApart(SetWorker(s, w, worker'), s');
      WorkerFrame(s, s', worker');
      OthersFramed(s, s', w, worker');
    }
  }

  lemma HandleTables(s: State, w: WorkerId, alive: bool)
    requires TablesOk(s) && w in s.workers && s.workers[w].pc.Busy?
    ensures TablesOk(HandleStep(s, w, s.workers[w], alive))
  {
    var s' := HandleStep(s, w, s.workers[w], alive);
    assert s'.pool.Keys == s.pool.Keys && |s'.pool| == |s'.pool.Keys| && |s.pool| == |s.pool.Keys|;
  }

  lemma RearmTables(s: State, w: WorkerId)
    requires TablesOk(s) && w in s.workers && s.workers[w].pc.Handled? && s.workers[w].pc.fd in s.pool
    ensures TablesOk(RearmStep(s, w, s.workers[w]))
  {
    var fd, s' := s.workers[w].pc.fd, RearmStep(s, w, s.workers[w]);
    if !s.pool[fd].alive {
      assert s'.pool.Keys == s.pool.Keys - {fd} && |s'.pool| == |s'.pool.Keys| && |s.pool| == |s.pool.Keys|;
    }
  }

  /** The worker gives its descriptor back; nobody else has a claim to it. */
  lemma RearmKeeps(s: State, w: WorkerId)
    requires Inv(s) && w in s.workers
    ensures Inv(RearmStep(s, w, s.workers[w]))
  {
    hide TablesOk, MainOk, WorkersOk, Apart, RearmStep;
    var worker, s' := s.workers[w], RearmStep(s, w, s.workers[w]);
    OkOf(s, w);
    if !worker.pc.Handled? {
      RearmNothing(s, w);
    } else {
      var worker' := worker.(pc := Idle);
      RearmShape(s, w);
      RearmTables(s, w);
      if s.stopped { EndedOf(s, w); }
      MainFrame(s, s');
      ShrinkApart(s, w, worker');
      SameApart(SetWorker(s, w, worker'), s');
      RearmSpares(s, w);
      WorkerFrame(s, s', worker');
      OthersFramed(s, s', w, worker');
    }
  }

  lemma RearmNothing(s: State, w: WorkerId)
    requires w in s.workers && !s.workers[w].pc.Handled?
    ensures RearmStep(s, w, s.workers[w]) == s
  {
  }

  lemma RearmShape(s: State, w: WorkerId)
    requires w in s.workers && s.workers[w].pc.Handled? && s.workers[w].pc.fd in s.pool && s.workers[w].pc.fd in s.epoll
    ensures var s' := RearmStep(s, w, s.workers[w]);
      && s'.workers == s.workers[w := s.workers[w].(pc := Idle)] && |s'.pool| <= |s.pool|
      && s'.phase == s.phase && s'.batch == s.batch && s'.running == s.running && s'.stopped == s.stopped
  {
    var fd, s' := s.workers[w].pc.fd, RearmStep(s, w, s.workers[w]);
    if !s.pool[fd].alive {
      assert s'.pool.Keys == s.pool.Keys - {fd} && |s'.pool| == |s'.pool.Keys| && |s.pool| == |s.pool.Keys|;
    }
  }

  lemma RearmSpares(s: State, w: WorkerId)
    requires Apart(s) && w in s.workers && s.workers[w].pc.Handled?
    ensures forall v <- s.workers :: v != w ==> Agree(s, RearmStep(s, w, s.workers[w]), Claims(s.workers[v]))
    ensures Agree(s, RearmStep(s, w, s.workers[w]), Claims(s.workers[w]) - {s.workers[w].pc.fd})
  {
    hide Apart;
    forall v | v in s.workers && v != w ensures Agree(s, RearmStep(s, w, s.workers[w]), Claims(s.workers[v])) {
      ApartOf(s, v, w);
      assert s.workers[w].pc.fd in Claims(s.workers[w]);
    }
  }

  lemma ApartOf(s: State, v: WorkerId, w: WorkerId)
    requires Apart(s) && v in s.workers && w in s.workers && v != w
    ensures Claims(s.workers[v]) !! Claims(s.workers[w])
  {
  }

  lemma LeaveKeeps(s: State, w: WorkerId, worker: Worker)
    requires Inv(s) && w in s.workers && worker.pc.Ended? && worker.todo == []
    ensures Inv(SetWorker(s, w, worker))
  {
    hide TablesOk, MainOk, WorkersOk, Apart;
    WorkerStep(s, w, worker);
  }

  /** Steps of the main thread that leave the tables alone. */
  lemma MainKeeps(s: State, s': State)
    requires Inv(s) && TablesOk(s') && MainOk(s')
    requires s' == s.(phase := s'.phase, batch := s'.batch, running := s'.running)
    ensures Inv(s')
  {
    hide TablesOk, MainOk, WorkersOk, Apart;
    SameApart(s, s');
    AllFramed(s, s');
  }

  lemma MainTables(s: State, e: Step)
    requires TablesOk(s) && MainOk(s) && (e.Poll? || e.BeginStop? || e.Unwind?)
    ensures var s' := Next(s, e); TablesOk(s') && MainOk(s') && s' == s.(phase := s'.phase, batch := s'.batch, running := s'.running)
  {
    if s.batch != [] { NextEvent(s.batch); }
  }

  lemma MainStepKeeps(s: State, e: Step)
    requires Inv(s) && (e.Poll? || e.BeginStop? || e.Unwind?)
    ensures Inv(Next(s, e))
  {
    hide TablesOk, MainOk, WorkersOk, Apart, Next;
    MainTables(s, e);
    MainKeeps(s, Next(s, e));
  }

  lemma NextKeeps(s: State, e: Step)
    requires Inv(s)
    ensures Inv(Next(s, e))
  {
    hide Inv;
    match e
    case Poll(batch) => MainStepKeeps(s, e);
    case BeginStop => MainStepKeeps(s, e);
    case Unwind => MainStepKeeps(s, e);
    case Accept(fd) => AcceptKeeps(s, fd);
    case Spawn => SpawnKeeps(s);
    case FinishStop => FinishStopKeeps(s);
    case Deliver(w, notices) => if w in s.workers { DeliverKeeps(s, w, notices); }
    case Look(w) => if w in s.workers { LookKeeps(s, w); }
    case Get(w) => if w in s.workers { GetKeeps(s, w); }
    case Handle(w, alive) => if w in s.workers { HandleKeeps(s, w, alive); }
    case Rearm(w) => if w in s.workers { RearmKeeps(s, w); }
    case Finish(w) => if w in s.workers { LeaveKeeps(s, w, s.workers[w].(pc := Ended, todo := [])); }
    case Crash(w) => if w in s.workers { LeaveKeeps(s, w, Worker(Ended, [], s.workers[w].running)); }
  }

  lemma {:induction false} RunKeeps(s: State, steps: seq<Step>)
    requires Inv(s)
    ensures Inv(Run(s, steps))
    decreases |steps|
  {
    hide Inv;
    if steps != [] {
      NextKeeps(s, steps[0]);
      RunKeeps(Next(s, steps[0]), steps[1..]);
    }
  }

  // ---------- what it gives ----------

  ghost predicate Sole(s: State, v: WorkerId)
    requires v in s.workers && Touches(s.workers[v])
  {
    var pc := s.workers[v].pc;
    && pc.fd in s.pool && s.pool[pc.fd].gen == pc.gen
    && (forall w <- s.workers :: w != v ==> pc.fd !in Claims(s.workers[w]))
    && (forall notices :: Deliverable(s, notices) ==> pc.fd !in FdsOf(notices))
  }

  lemma SoleWorker(s: State, v: WorkerId)
    requires Inv(s) && v in s.workers && Touches(s.workers[v])
    ensures Sole(s, v)
  {
    hide TablesOk, Apart, WorkersOk, Deliverable;
    OkOf(s, v);
    var pc := s.workers[v].pc;
    GenOf(s, pc.fd);
    forall w | w in s.workers && w != v ensures pc.fd !in Claims(s.workers[w]) {
      ApartOf(s, v, w);
    }
    forall notices | Deliverable(s, notices) ensures pc.fd !in FdsOf(notices) {
      DeliveredFresh(s, notices, v);
    }
  }

  /** In every interleaving: a worker between has_client and rearm_device works on a client
      that is in the pool and is the one the event was for, whatever became of descriptor
      numbers; nobody else works on it or has an event for it, and no event can be
      delivered for it. */
  lemma OneWorkerPerClient(workers: set<WorkerId>, limit: nat, steps: seq<Step>, v: WorkerId)
    requires var s := Run(Initial(workers, limit), steps); v in s.workers && Touches(s.workers[v])
    ensures Sole(Run(Initial(workers, limit), steps), v)
  {
    hide Run, Inv, Sole;
    InitialInv(workers, limit);
    RunKeeps(Initial(workers, limit), steps);
    SoleWorker(Run(Initial(workers, limit), steps), v);
  }

  // ---------- after stop ----------

  /** When stop returns, the pool is empty and all workers have ended. */
  lemma StopReturns(s: State)
    requires Inv(s)
    ensures var s' := Next(s, FinishStop);
      s'.stopped && !s.stopped ==> s'.pool == map[] && s'.sockets == map[] && forall w <- s'.workers :: s'.workers[w].pc.Ended?
  {
    hide Apart, WorkersOk;
    if s.phase.Joining? { assert s.sockets - s.pool.Keys == map[]; }
  }

  /** No worker is left: none works on a client, has an event for one, or can get one. */
  ghost predicate Deserted(s: State) {
    forall w <- s.workers :: s.workers[w].pc.Ended? && Claims(s.workers[w]) == {}
  }

  lemma StoppedDeserted(s: State)
    requires Inv(s) && s.stopped
    ensures Deserted(s) && |s.pool| <= 1
  {
    hide Apart;
    forall w | w in s.workers ensures s.workers[w].pc.Ended? && Claims(s.workers[w]) == {} {
      OkOf(s, w);
    }
  }

  lemma StoppedStays(s: State, e: Step)
    requires Inv(s) && s.stopped
    ensures Next(s, e).stopped
  {
    hide TablesOk, Apart, WorkersOk;
  }

  lemma {:induction false} StoppedForGood(s: State, steps: seq<Step>)
    requires Inv(s) && s.stopped
    ensures Run(s, steps).stopped
    decreases |steps|
  {
    hide Inv, Next;
    if steps != [] {
      NextKeeps(s, steps[0]);
      StoppedStays(s, steps[0]);
      StoppedForGood(Next(s, steps[0]), steps[1..]);
    }
  }

  /** The pool never exceeds the configured limit; and once stop has returned, whatever
      happens: it has returned for good, no worker ever has to do with a client again, and
      there is one client at most. */
  lemma StopIsFinal(workers: set<WorkerId>, limit: nat, steps: seq<Step>, more: seq<Step>)
    ensures var s := Run(Initial(workers, limit), steps);
      && |s.pool| <= s.limit
      && (s.stopped ==> var s' := Run(s, more); s'.stopped && Deserted(s') && |s'.pool| <= 1)
  {
    hide Run, Inv, Deserted;
    InitialInv(workers, limit);
    RunKeeps(Initial(workers, limit), steps);
    var s := Run(Initial(workers, limit), steps);
    WithinLimit(s);
    if s.stopped {
      RunKeeps(s, more);
      StoppedForGood(s, more);
      StoppedDeserted(Run(s, more));
    }
  }

  lemma WithinLimit(s: State)
    requires Inv(s)
    ensures |s.pool| <= s.limit
  {
  }

  /** Nobody is connected and nobody is to be admitted. */
  ghost predicate Quiet(s: State) {
    s.stopped && s.pool == map[] && s.phase.Listening? && (Connection !in s.batch || s.limit == 0)
  }

  lemma QuietStays(s: State, e: Step)
    requires Inv(s) && Quiet(s)
    ensures Quiet(Next(s, e))
  {
    if s.batch != [] { NextEvent(s.batch); }
    if e.Look? || e.Get? || e.Handle? || e.Rearm? || e.Deliver? || e.Finish? || e.Crash? {
      hide Apart, WorkersOk;
    }
  }

  lemma {:induction false} QuietForGood(s: State, steps: seq<Step>)
    requires Inv(s) && Quiet(s)
    ensures Quiet(Run(s, steps))
    decreases |steps|
  {
    hide Inv, Next, Quiet;
    if steps != [] {
      NextKeeps(s, steps[0]);
      QuietStays(s, steps[0]);
      QuietForGood(Next(s, steps[0]), steps[1..]);
    }
  }

  /** The connection that is left in the batch is accepted. */
  lemma LateArrival(s: State) returns (steps: seq<Step>)
    requires Inv(s) && s.stopped && s.pool == map[] && s.phase.Listening? && Connection in s.batch && s.limit > 0
    ensures Run(s, steps).pool != map[]
  {
    hide Apart, WorkersOk;
    assert s.sockets == map[];
    var s1 := Next(s, BeginStop);
    if s.batch[0] == Connection {
      AcceptsAndSpawns(s);
      steps := [Accept(0), Spawn];
    } else {
      assert s1 == s.(batch := s.batch[1..]);
      AcceptsAndSpawns(s1);
      RunFirst(s, BeginStop, [Accept(0), Spawn]);
      steps := [BeginStop] + [Accept(0), Spawn];
    }
  }

  lemma AcceptsAndSpawns(s: State)
    requires At(s, Connection) && s.sockets == map[] && |s.pool| < s.limit
    ensures Run(s, [Accept(0), Spawn]).pool != map[]
  {
    var s1 := Next(s, Accept(0));
    var s2 := Next(s1, Spawn);
    assert 0 in s2.pool;
    assert [Accept(0), Spawn][1..] == [Spawn] && [Spawn][1..] == [];
    assert Run(s2, []) == s2;
    assert Run(s1, [Spawn]) == s2;
  }

  /** After stop has returned the pool stays empty, whatever happens, if and only if no
      connection that can be admitted is left in the main thread's batch. */
  lemma EmptyExactlyWhen(s: State)
    requires Inv(s) && s.stopped && s.pool == map[] && s.phase.Listening?
    ensures (forall steps :: Run(s, steps).pool == map[]) <==> Connection !in s.batch || s.limit == 0
  {
    hide Inv, Run;
    if Connection !in s.batch || s.limit == 0 {
      forall steps ensures Run(s, steps).pool == map[] { QuietForGood(s, steps); }
    } else {
      var steps := LateArrival(s);
      assert Run(s, steps).pool != map[];
    }
  }

  /** A signal and a connection in one batch, the signal first. */
  const LATE: seq<Step> :=
    [Poll([Signal, Connection]), BeginStop, Deliver(0, [StopNotice]), Look(0), Finish(0), FinishStop, Accept(5), Spawn]

  lemma RunSuffix(s: State, steps: seq<Step>, k: nat)
    requires k < |steps|
    ensures Run(s, steps[k..]) == Run(Next(s, steps[k]), steps[k + 1..])
  {
    hide Next;
    assert steps[k..][0] == steps[k] && steps[k..][1..] == steps[k + 1..];
  }

  /** The server admits a client after its stop has returned. */
  lemma ClientAfterStop()
    ensures Run(Initial({0}, 1), LATE[..6]).stopped && Run(Initial({0}, 1), LATE[..6]).pool == map[]
    ensures 5 in Run(Initial({0}, 1), LATE).pool
  {
    hide Run;
    StopComes();
    var s := Run(Initial({0}, 1), LATE[..6]);
    assert LATE == LATE[..6] + [Accept(5), Spawn];
    RunThen(Initial({0}, 1), LATE[..6], [Accept(5), Spawn]);
    RunFirst(s, Accept(5), [Spawn]);
    assert [Accept(5)] + [Spawn] == [Accept(5), Spawn] && [Spawn] + [] == [Spawn];
    RunFirst(Next(s, Accept(5)), Spawn, []);
    RunNothing(Next(Next(s, Accept(5)), Spawn));
  }

  lemma RunNothing(s: State)
    ensures Run(s, []) == s
  {
  }

  lemma MainStops(s: State)
    requires s == Initial({0}, 1)
    ensures var s1 := s.(batch := [Signal, Connection]);
      Next(s, Poll([Signal, Connection])) == s1 &&
      Next(s1, BeginStop) == s1.(batch := [Connection], running := false, phase := Joining)
  {
    assert [Signal, Connection][1..] == [Connection];
  }

  lemma WorkerStops(s: State)
    requires s.phase.Joining? && s.workers == map[0 := NEW_WORKER] && s.epoll == map[]
    ensures var s3 := SetWorker(s, 0, Worker(Idle, [StopNotice], true));
      var s4 := SetWorker(s3, 0, Worker(Idle, [], false));
      && Next(s, Deliver(0, [StopNotice])) == s3 && Next(s3, Look(0)) == s4
      && Next(s4, Finish(0)) == SetWorker(s4, 0, Worker(Ended, [], false))
  {
    assert [StopNotice][1..] == [];
    assert Deliverable(s, [StopNotice]) && Disarmed(map[], FdsOf([StopNotice])) == map[];
  }

  lemma StopComes()
    ensures var s := Run(Initial({0}, 1), LATE[..6]);
      s == State(map[], map[], map[], map[0 := Worker(Ended, [], false)], Listening, [Connection], false, true, 0, 1)
  {
    var steps := LATE[..6];
    var s0 := Initial({0}, 1);
    var s1 := s0.(batch := [Signal, Connection]);
    var s2 := s1.(batch := [Connection], running := false, phase := Joining);
    var s3 := SetWorker(s2, 0, Worker(Idle, [StopNotice], true));
    var s4 := SetWorker(s3, 0, Worker(Idle, [], false));
    var s5 := SetWorker(s4, 0, Worker(Ended, [], false));
    assert s0.workers == map[0 := NEW_WORKER];
    MainStops(s0);
    WorkerStops(s2);
    var s6 := Next(s5, FinishStop);
    assert s6 == State(map[], map[], map[], map[0 := Worker(Ended, [], false)], Listening, [Connection], false, true, 0, 1);
    hide Next;
    RunSuffix(s0, steps, 0);
    RunSuffix(s1, steps, 1);
    RunSuffix(s2, steps, 2);
    RunSuffix(s3, steps, 3);
    RunSuffix(s4, steps, 4);
    RunSuffix(s5, steps, 5);
    assert steps[0..] == steps && steps[6..] == [];
    RunNothing(s6);
  }

  // ---------- stopping ----------

  /** What a worker does next once stop has been called. */
  function OwnStep(w: WorkerId, worker: Worker): Step {
    match worker.pc
    case Checked(_, _) => Get(w)
    case Busy(_, _) => Handle(w, true)
    case Handled(_, _) => Rearm(w)
    case Idle => if worker.todo != [] then Look(w) else if worker.running then Deliver(w, [StopNotice]) else Finish(w)
    case Ended => Finish(w)
  }

  /** How many steps of its own a worker is away from its end, at most. */
  function Distance(worker: Worker): nat {
    match worker.pc
    case Ended => 0
    case _ =>
      1 + 4 * |worker.todo| + (if worker.running && StopNotice !in worker.todo then 5 else 0)
      + (if worker.pc.Checked? then 3 else if worker.pc.Busy? then 2 else if worker.pc.Handled? then 1 else 0)
  }

  lemma LookCloser(s: State, w: WorkerId)
    requires w in s.workers && s.workers[w].pc.Idle? && s.workers[w].todo != []
    ensures var s' := LookStep(s, w, s.workers[w]);
      && w in s'.workers && Distance(s'.workers[w]) < Distance(s.workers[w])
      && s' == SetWorker(s, w, s'.workers[w])
  {
    var todo := s.workers[w].todo;
    assert todo == [todo[0]] + todo[1..];
  }

  /** Every such step can be taken, brings the worker closer to its end, and leaves the
      other workers alone. */
  lemma Closer(s: State, w: WorkerId)
    requires Inv(s) && s.phase.Joining? && w in s.workers && !s.workers[w].pc.Ended?
    ensures var s' := Next(s, OwnStep(w, s.workers[w]));
      && Inv(s') && s'.phase.Joining? && s'.workers.Keys == s.workers.Keys
      && Distance(s'.workers[w]) < Distance(s.workers[w])
      && forall v <- s.workers :: v != w ==> s'.workers[v] == s.workers[v]
  {
    hide TablesOk, MainOk, Apart, WorkersOk;
    NextKeeps(s, OwnStep(w, s.workers[w]));
    OkOf(s, w);
    CloserBy(s, w);
  }

  lemma CloserBy(s: State, w: WorkerId)
    requires s.phase.Joining? && w in s.workers && !s.workers[w].pc.Ended? && WorkerOk(s, s.workers[w])
    ensures var s' := Next(s, OwnStep(w, s.workers[w]));
      && s'.phase.Joining? && s'.workers.Keys == s.workers.Keys
      && Distance(s'.workers[w]) < Distance(s.workers[w])
      && forall v <- s.workers :: v != w ==> s'.workers[v] == s.workers[v]
  {
    hide WorkerOk, Next, Distance;
    var worker := s.workers[w];
    if !worker.pc.Idle? {
      TouchingCloser(s, w);
    } else if worker.todo != [] {
      LookCloser(s, w);
      LookIsNext(s, w);
    } else {
      WaitingCloser(s, w);
    }
  }

  lemma TouchingCloser(s: State, w: WorkerId)
    requires s.phase.Joining? && w in s.workers && Touches(s.workers[w]) && WorkerOk(s, s.workers[w])
    ensures var s' := Next(s, OwnStep(w, s.workers[w]));
      && s'.phase.Joining? && s'.workers == s.workers[w := s'.workers[w]] && w in s'.workers
      && Distance(s'.workers[w]) < Distance(s.workers[w])
  {
    hide Distinct, FdsOf;
    assert s.workers[w].pc.fd in s.pool && s.workers[w].pc.fd in s.epoll;
    hide WorkerOk;
  }

  lemma LookIsNext(s: State, w: WorkerId)
    requires w in s.workers && s.workers[w].pc.Idle? && s.workers[w].todo != []
    ensures Next(s, OwnStep(w, s.workers[w])) == LookStep(s, w, s.workers[w])
  {
    hide LookStep;
  }

  lemma WaitingCloser(s: State, w: WorkerId)
    requires s.phase.Joining? && w in s.workers && s.workers[w].pc.Idle? && s.workers[w].todo == []
    ensures var s' := Next(s, OwnStep(w, s.workers[w]));
      && s'.phase.Joining? && s'.workers == s.workers[w := s'.workers[w]] && w in s'.workers
      && Distance(s'.workers[w]) < Distance(s.workers[w])
  {
    assert Deliverable(s, [StopNotice]);
    hide Disarmed, FdsOf, Deliverable;
  }

  lemma RunFirst(s: State, e: Step, steps: seq<Step>)
    ensures Run(s, [e] + steps) == Run(Next(s, e), steps)
  {
    hide Next;
    assert ([e] + steps)[1..] == steps;
  }

  lemma {:induction false} RunThen(s: State, a: seq<Step>, b: seq<Step>)
    ensures Run(s, a + b) == Run(Run(s, a), b)
    decreases |a|
  {
    hide Next;
    if a == [] {
      assert a + b == b;
    } else {
      assert (a + b)[0] == a[0] && (a + b)[1..] == a[1..] + b;
      RunThen(Next(s, a[0]), a[1..], b);
    }
  }

  /** A worker can always come to its end by steps of its own. */
  lemma {:induction false} CanEnd(s: State, w: WorkerId) returns (steps: seq<Step>)
    requires Inv(s) && s.phase.Joining? && w in s.workers
    ensures var s' := Run(s, steps);
      && Inv(s') && s'.phase.Joining? && s'.workers.Keys == s.workers.Keys && s'.workers[w].pc.Ended?
      && forall v <- s.workers :: v != w ==> s'.workers[v] == s.workers[v]
    decreases Distance(s.workers[w])
  {
    hide Inv, Next;
    steps := [];
    if !s.workers[w].pc.Ended? {
      var e := OwnStep(w, s.workers[w]);
      Closer(s, w);
      var more := CanEnd(Next(s, e), w);
      RunFirst(s, e, more);
      steps := [e] + more;
    }
  }

  ghost function Unfinished(s: State): set<WorkerId> { set w | w in s.workers && !s.workers[w].pc.Ended? }

  /** Once stop has been called it can always be completed: from every reachable state there
      are steps of the workers after which it returns. */
  lemma {:induction false} StopCanComplete(s: State) returns (steps: seq<Step>)
    requires Inv(s) && s.phase.Joining?
    ensures Run(s, steps).stopped && Run(s, steps).pool == map[]
    decreases |Unfinished(s)|
  {
    hide Inv;
    if Unfinished(s) == {} {
      steps := [FinishStop];
      forall w | w in s.workers ensures s.workers[w].pc.Ended? { assert w !in Unfinished(s); }
      assert Next(s, FinishStop) == FinishStopStep(s);
      RunFirst(s, FinishStop, []);
      assert [FinishStop] + [] == [FinishStop];
    } else {
      var w :| w in Unfinished(s);
      var own := CanEnd(s, w);
      var s' := Run(s, own);
      assert Unfinished(s') == Unfinished(s) - {w};
      var more := StopCanComplete(s');
      RunThen(s, own, more);
      steps := own + more;
    }
  }

  // ---------- what the steps do ----------

  /** The outer loop fetches a batch once the last one is used up, while the server runs. */
  lemma PollEffect(s: State, batch: seq<MainEvent>)
    requires batch in {[], [Signal], [Connection], [Signal, Connection], [Connection, Signal]}
    ensures Next(s, Poll(batch)) == if s.phase == Listening && s.batch == [] && s.running then s.(batch := batch) else s
  {
  }

  /** A signal and an exception both stop the server, once; only an exception drops the rest
      of the batch. */
  lemma StopEffect(s: State)
    requires s.phase == Listening
    ensures Next(s, Unwind) == s.(batch := [], running := false, phase := if s.running then Joining else Listening)
    ensures s.batch != [] && s.batch[0] == Signal ==>
      Next(s, BeginStop) == s.(batch := s.batch[1..], running := false, phase := if s.running then Joining else Listening)
  {
  }

  /** A worker that dies leaves what it claimed to nobody. */
  lemma CrashEffect(s: State, w: WorkerId)
    requires w in s.workers
    ensures var s' := Next(s, Crash(w));
      && s' == s.(workers := s.workers[w := s'.workers[w]]) && s'.workers[w].pc == Ended && Claims(s'.workers[w]) == {}
  {
  }

  /** An admitted connection is registered and armed; one over the limit is dropped. */
  lemma AcceptEffect(s: State, fd: Fd)
    requires s.phase.Listening? && s.batch != [] && s.batch[0] == Connection && fd !in s.sockets
    ensures Next(s, Accept(fd)) ==
      if |s.pool| < s.limit
      then s.(sockets := s.sockets[fd := s.next], epoll := s.epoll[fd := true], phase := Registered(fd),
              batch := s.batch[1..], next := s.next + 1)
      else s.(batch := s.batch[1..])
  {
  }

  lemma SpawnEffect(s: State)
    requires s.phase.Registered? && s.phase.fd in s.sockets
    ensures Next(s, Spawn) ==
      s.(pool := s.pool[s.phase.fd := Client(s.sockets[s.phase.fd], true)], phase := Listening)
  {
  }

  /** A waiting worker gets the events it is given, and their descriptors are disarmed. */
  lemma DeliverEffect(s: State, w: WorkerId, notices: seq<Notice>)
    requires w in s.workers && s.workers[w] == Worker(Idle, [], true) && Deliverable(s, notices)
    ensures var s' := Next(s, Deliver(w, notices));
      && s' == s.(workers := s.workers[w := Worker(Idle, notices, true)], epoll := s'.epoll)
      && s'.epoll.Keys == s.epoll.Keys
      && forall fd <- s.epoll :: s'.epoll[fd] <==> s.epoll[fd] && forall n <- notices :: n.Io? ==> n.fd != fd
  {
    forall fd | fd in s.epoll ensures fd in FdsOf(notices) <==> exists n <- notices :: n.Io? && n.fd == fd {
      FdsOfExact(notices, fd);
    }
    hide Deliverable, FdsOf;
  }

  /** The events are taken in order: the stop pipe ends the loop, an event for a client in
      the pool is served, another is ignored. */
  lemma LookEffect(s: State, w: WorkerId)
    requires w in s.workers && s.workers[w].pc.Idle? && s.workers[w].todo != []
    ensures var worker := s.workers[w];
      var n, rest := worker.todo[0], worker.todo[1..];
      Next(s, Look(w)) == s.(workers := s.workers[w :=
        if n.StopNotice? then Worker(Idle, rest, false)
        else if n.fd in s.pool then Worker(Checked(n.fd, n.gen), rest, worker.running)
        else Worker(Idle, rest, worker.running)])
  {
  }

  /** A worker finds the client it looked for, and it is the one the event was for. */
  lemma GetEffect(s: State, w: WorkerId)
    requires Inv(s) && w in s.workers && s.workers[w].pc.Checked?
    ensures var worker := s.workers[w];
      Next(s, Get(w)) == s.(workers := s.workers[w := worker.(pc := Busy(worker.pc.fd, worker.pc.gen))])
  {
    hide TablesOk, MainOk, Apart, WorkersOk;
    OkOf(s, w);
    GenOf(s, s.workers[w].pc.fd);
  }

  /** Handling is for the client at hand, which may die of it and does not come back. */
  lemma HandleEffect(s: State, w: WorkerId, alive: bool)
    requires Inv(s) && w in s.workers && s.workers[w].pc.Busy?
    ensures var s', worker, fd := Next(s, Handle(w, alive)), s.workers[w], s.workers[w].pc.fd;
      && fd in s.pool
      && s' == s.(workers := s.workers[w := worker.(pc := Handled(fd, worker.pc.gen))],
                  pool := s.pool[fd := Client(s.pool[fd].gen, s.pool[fd].alive && alive)])
  {
    hide TablesOk, MainOk, Apart, WorkersOk;
    OkOf(s, w);
  }

  /** A client that lives is armed again and stays; one that is dead is out of the pool, its
      socket closed and its descriptor free. Nothing else changes. */
  lemma RearmEffect(s: State, w: WorkerId)
    requires Inv(s) && w in s.workers && s.workers[w].pc.Handled?
    ensures var s', worker, fd := Next(s, Rearm(w)), s.workers[w], s.workers[w].pc.fd;
      && fd in s.pool && fd in s.epoll
      && s'.workers == s.workers[w := worker.(pc := Idle)]
      && s' == s.(workers := s'.workers, pool := s'.pool, sockets := s'.sockets, epoll := s'.epoll)
      && (s.pool[fd].alive ==> s'.pool == s.pool && s'.sockets == s.sockets && s'.epoll == s.epoll[fd := true])
      && (!s.pool[fd].alive ==>
            && fd !in s'.pool && fd !in s'.sockets && fd !in s'.epoll
            && s'.pool == s.pool - {fd} && s'.sockets == s.sockets - {fd} && s'.epoll == s.epoll - {fd})
  {
    hide TablesOk, MainOk, Apart, WorkersOk;
    OkOf(s, w);
  }

  /** A worker that was told to stop and has nothing left to do ends. */
  lemma FinishEffect(s: State, w: WorkerId)
    requires w in s.workers && s.workers[w] == Worker(Idle, [], false)
    ensures Next(s, Finish(w)) == s.(workers := s.workers[w := Worker(Ended, [], false)])
  {
  }

  // ---------- the dead do not linger ----------

  ghost predicate HandledBy(s: State, w: WorkerId, fd: Fd) {
    w in s.workers && s.workers[w].pc.Handled? && s.workers[w].pc.fd == fd
  }

  /** A client in the pool that is not alive is about to be closed by the worker that has
      just handled it. */
  ghost predicate DeadHeld(s: State) {
    forall fd <- s.pool :: !s.pool[fd].alive ==> exists w :: HandledBy(s, w, fd)
  }

  /** The clients and workers that a step leaves alone. */
  lemma DeadFrame(s: State, s': State, w: WorkerId)
    requires DeadHeld(s)
    requires forall v <- s.workers :: v != w ==> v in s'.workers && s'.workers[v].pc == s.workers[v].pc
    requires forall fd <- s'.pool :: !s'.pool[fd].alive ==>
      (fd in s.pool && !s.pool[fd].alive && !HandledBy(s, w, fd)) || HandledBy(s', w, fd)
    ensures DeadHeld(s')
  {
    forall fd | fd in s'.pool && !s'.pool[fd].alive ensures exists v :: HandledBy(s', v, fd) {
      if !HandledBy(s', w, fd) {
        var v :| HandledBy(s, v, fd);
        assert HandledBy(s', v, fd);
      }
    }
  }

  lemma NextDead(s: State, e: Step)
    requires Inv(s) && DeadHeld(s) && !e.Crash?
    ensures DeadHeld(Next(s, e))
  {
    hide TablesOk, MainOk, Apart, WorkersOk;
    match e
    case Handle(w, alive) => if w in s.workers { HandleDead(s, w, alive); }
    case Rearm(w) => if w in s.workers { RearmDead(s, w); }
    case Deliver(w, notices) => if w in s.workers { WorkerDead(s, e, w); }
    case Look(w) => if w in s.workers { WorkerDead(s, e, w); }
    case Get(w) => if w in s.workers { WorkerDead(s, e, w); }
    case Finish(w) => if w in s.workers { WorkerDead(s, e, w); }
    case _ => MainDead(s, e);
  }

  lemma MainDead(s: State, e: Step)
    requires DeadHeld(s) && (e.Poll? || e.Accept? || e.Spawn? || e.BeginStop? || e.Unwind? || e.FinishStop?)
    ensures DeadHeld(Next(s, e))
  {
    var s' := Next(s, e);
    MainAdds(s, e);
    hide Next;
    forall fd | fd in s'.pool && !s'.pool[fd].alive ensures exists v :: HandledBy(s', v, fd) {
      var v :| HandledBy(s, v, fd);
      assert HandledBy(s', v, fd);
    }
  }

  lemma MainAdds(s: State, e: Step)
    requires e.Poll? || e.Accept? || e.Spawn? || e.BeginStop? || e.Unwind? || e.FinishStop?
    ensures var s' := Next(s, e);
      s'.workers == s.workers && forall fd <- s'.pool :: s'.pool[fd].alive || (fd in s.pool && s'.pool[fd] == s.pool[fd])
  {
    match e
    case Poll(_) =>
    case Accept(_) =>
    case Spawn =>
    case _ => StopAdds(s, e);
  }

  lemma StopAdds(s: State, e: Step)
    requires e.BeginStop? || e.Unwind? || e.FinishStop?
    ensures var s' := Next(s, e); s'.workers == s.workers && (s'.pool == s.pool || s'.pool == map[])
  {
  }

  /** Only this worker moves, and only if it is not at Handled. */
  ghost predicate MovesOnly(s: State, s': State, w: WorkerId) {
    || s' == s
    || (w in s.workers && w in s'.workers && !s.workers[w].pc.Handled? && s'.pool == s.pool
        && s'.workers == s.workers[w := s'.workers[w]])
  }

  lemma MovesDead(s: State, s': State, w: WorkerId)
    requires DeadHeld(s) && MovesOnly(s, s', w)
    ensures DeadHeld(s')
  {
    if s' != s {
      DeadFrame(s, s', w);
    }
  }

  lemma DeliverMoves(s: State, w: WorkerId, worker: Worker, notices: seq<Notice>)
    requires w in s.workers && s.workers[w] == worker
    ensures MovesOnly(s, DeliverStep(s, w, worker, notices), w)
  {
    hide Deliverable, Disarmed, FdsOf;
  }

  lemma LookMoves(s: State, w: WorkerId, worker: Worker)
    requires w in s.workers && s.workers[w] == worker
    ensures MovesOnly(s, LookStep(s, w, worker), w)
  {
  }

  lemma GetMoves(s: State, w: WorkerId, worker: Worker)
    requires w in s.workers && s.workers[w] == worker
    ensures MovesOnly(s, GetStep(s, w, worker), w) && MovesOnly(s, FinishStep(s, w, worker), w)
  {
  }

  /** Steps of a worker that is not at Handled, and not about to be. */
  lemma WorkerDead(s: State, e: Step, w: WorkerId)
    requires DeadHeld(s) && w in s.workers
    requires e == Look(w) || e == Get(w) || e == Finish(w) || (e.Deliver? && e.w == w)
    ensures DeadHeld(Next(s, e))
  {
    hide DeadHeld, MovesOnly, DeliverStep, LookStep, GetStep, FinishStep;
    if e.Deliver? { DeliverMoves(s, w, s.workers[w], e.notices); }
    LookMoves(s, w, s.workers[w]);
    GetMoves(s, w, s.workers[w]);
    MovesDead(s, Next(s, e), w);
  }

  lemma HandleDead(s: State, w: WorkerId, alive: bool)
    requires Inv(s) && DeadHeld(s) && w in s.workers
    ensures DeadHeld(Next(s, Handle(w, alive)))
  {
    hide DeadHeld, Inv;
    if s.workers[w].pc.Busy? {
      HandleEffect(s, w, alive);
      DeadFrame(s, Next(s, Handle(w, alive)), w);
    }
  }

  lemma RearmDead(s: State, w: WorkerId)
    requires Inv(s) && DeadHeld(s) && w in s.workers
    ensures DeadHeld(Next(s, Rearm(w)))
  {
    hide DeadHeld, Inv;
    if s.workers[w].pc.Handled? {
      RearmEffect(s, w);
      DeadFrame(s, Next(s, Rearm(w)), w);
    }
  }

  /** In every interleaving in which no worker dies of an exception: a dead client is only
      still in the pool while the worker that handled it is on its way to closing it. */
  lemma {:induction false} DeadAreClosed(s: State, steps: seq<Step>)
    requires Inv(s) && DeadHeld(s) && forall e <- steps :: !e.Crash?
    ensures DeadHeld(Run(s, steps))
    decreases |steps|
  {
    hide Inv, DeadHeld, Next;
    if steps != [] {
      assert steps[0] in steps && forall e <- steps[1..] :: e in steps;
      NextKeeps(s, steps[0]);
      NextDead(s, steps[0]);
      DeadAreClosed(Next(s, steps[0]), steps[1..]);
    }
  }

  lemma DeadDoNotLinger(workers: set<WorkerId>, limit: nat, steps: seq<Step>)
    requires forall e <- steps :: !e.Crash?
    ensures DeadHeld(Run(Initial(workers, limit), steps))
  {
    hide Run, Inv;
    InitialInv(workers, limit);
    DeadAreClosed(Initial(workers, limit), steps);
  }

  // ---------- the workers serve until stop ----------

  /** While the server runs, no worker has ended or been told to. */
  ghost predicate Serving(s: State) {
    s.running ==> forall w <- s.workers :: Serves(s.workers[w])
  }

  ghost predicate Serves(worker: Worker) { worker.running && !worker.pc.Ended? && StopNotice !in worker.todo }

  lemma NextServing(s: State, e: Step)
    requires Inv(s) && Serving(s) && !e.Crash?
    ensures Serving(Next(s, e))
  {
    hide TablesOk, Apart, WorkersOk;
    match e
    case Deliver(w, notices) => if w in s.workers { DeliverServing(s, w, notices); }
    case Look(w) => if w in s.workers { LookServing(s, w); }
    case Get(w) =>
      if w in s.workers && s.workers[w].pc.Checked? { GetEffect(s, w); }
    case Handle(w, alive) =>
    case Rearm(w) =>
    case Finish(w) =>
    case _ =>
  }

  lemma DeliverServing(s: State, w: WorkerId, notices: seq<Notice>)
    requires MainOk(s) && Serving(s) && w in s.workers
    ensures Serving(Next(s, Deliver(w, notices)))
  {
    hide Distinct, Disarmed, FdsOf;
    assert s.running && Deliverable(s, notices) ==> StopNotice !in notices;
  }

  lemma LookServing(s: State, w: WorkerId)
    requires Serving(s) && w in s.workers
    ensures Serving(Next(s, Look(w)))
  {
    var todo := s.workers[w].todo;
    assert todo != [] ==> todo[0] in todo && forall n <- todo[1..] :: n in todo;
  }

  /** In every interleaving in which no worker dies of an exception: as long as neither a
      signal nor an exception has stopped the server, all its workers are at work. */
  lemma {:induction false} RunServing(s: State, steps: seq<Step>)
    requires Inv(s) && Serving(s) && forall e <- steps :: !e.Crash?
    ensures Serving(Run(s, steps))
    decreases |steps|
  {
    hide Inv, Serving, Next;
    if steps != [] {
      assert steps[0] in steps && forall e <- steps[1..] :: e in steps;
      NextKeeps(s, steps[0]);
      NextServing(s, steps[0]);
      RunServing(Next(s, steps[0]), steps[1..]);
    }
  }

  lemma WorkersServe(workers: set<WorkerId>, limit: nat, steps: seq<Step>)
    requires forall e <- steps :: !e.Crash?
    ensures Serving(Run(Initial(workers, limit), steps))
  {
    hide Run, Inv;
    InitialInv(workers, limit);
    RunServing(Initial(workers, limit), steps);
  }
}

/** The job queue: a buffered channel of 64 jobs, one worker started by the first enqueue, and a shutdown
    that closes the channel.  Each bot's loop enqueues one job at a time: it may have to wait for room
    after it let the lock go. */
module JobQueue {
  import opened Text
  import Bridge

  const CAPACITY := 64

  type Job = Bridge.Job

  /** `pending` maps a bot to the job its loop is about to send.  `arrived` and `sent` are the jobs in the
      order they were accepted under the lock and put into the channel; `started` counts the workers ever
      started and `dropped` the enqueues after shutdown; a send on the closed channel has `panicked`. */
  datatype State = State(
    closed: bool, workerStarted: bool,
    pending: map<nat, Job>, buffer: seq<Job>,
    workers: nat, current: Option<Job>, processed: seq<Job>,
    arrived: seq<Job>, sent: seq<Job>, started: nat, dropped: nat, panicked: bool)

  const INIT := State(false, false, map[], [], 0, None, [], [], [], 0, 0, false)

  datatype Event = Enqueue(job: Job) | Send(bot: nat) | Take | Finish | Close | Exit

  predicate Enabled(s: State, e: Event) {
    !s.panicked &&
    match e
    case Enqueue(job) => job.bot !in s.pending
    case Send(bot) => bot in s.pending && (|s.buffer| < CAPACITY || s.closed)
    case Take => s.workers > 0 && s.current.None? && s.buffer != []
    case Finish => s.current.Some?
    case Close => true
    case Exit => s.workers > 0 && s.current.None? && s.buffer == [] && s.closed
  }

  function Step(s: State, e: Event): (r: State)
    requires Enabled(s, e)
  {
    match e
    case Enqueue(job) =>
      if s.closed then s.(dropped := s.dropped + 1)
      else s.(workerStarted := true,
              workers := if s.workerStarted then s.workers else s.workers + 1,
              started := if s.workerStarted then s.started else s.started + 1,
              pending := s.pending[job.bot := job],
              arrived := s.arrived + [job])
    case Send(bot) =>
      if s.closed then s.(panicked := true)
      else s.(pending := s.pending - {bot}, buffer := s.buffer + [s.pending[bot]], sent := s.sent + [s.pending[bot]])
    case Take => s.(current := Some(s.buffer[0]), buffer := s.buffer[1..])
    case Finish => s.(current := None, processed := s.processed + [s.current.value])
    case Close => if s.closed then s else s.(closed := true, workerStarted := false)
    case Exit => s.(workers := s.workers - 1)
  }

  ghost predicate IsRun(es: seq<Event>)
    decreases |es|, 0
  {
    es == [] || (IsRun(es[..|es| - 1]) && Enabled(After(es[..|es| - 1]), es[|es| - 1]))
  }

  ghost function After(es: seq<Event>): (r: State)
    requires IsRun(es)
    decreases |es|, 1
  {
    if es == [] then INIT else Step(After(es[..|es| - 1]), es[|es| - 1])
  }

  function CurrentSeq(s: State): (r: seq<Job>) {
    if s.current.Some? then [s.current.value] else []
  }

  /** The jobs of one bot, in order. */
  function OfBot(jobs: seq<Job>, bot: nat): (r: seq<Job>) {
    if jobs == [] then []
    else OfBot(jobs[..|jobs| - 1], bot) + if jobs[|jobs| - 1].bot == bot then [jobs[|jobs| - 1]] else []
  }

  function PendingOf(s: State, bot: nat): (r: seq<Job>) {
    if bot in s.pending then [s.pending[bot]] else []
  }

  /** One worker at most, ever; while the queue is open it is there as soon as a job was accepted. */
  ghost predicate WorkerOk(s: State) {
    && s.workers <= s.started <= 1
    && (s.current.Some? ==> s.workers == 1)
    && (!s.closed ==> (s.workerStarted <==> s.workers == 1) && s.started == s.workers)
    && (s.closed ==> !s.workerStarted)
    && (s.workers == 0 ==> s.buffer == [] && (s.closed || s.pending == map[]))
  }

  /** Nothing is lost, repeated or reordered between the channel's two ends. */
  ghost predicate ChannelOk(s: State) {
    && |s.buffer| <= CAPACITY
    && s.processed + CurrentSeq(s) + s.buffer == s.sent
  }

  /** What a bot's loop was accepted for is what it sent, in order, plus the one it is about to send. */
  ghost predicate OrderOk(s: State) {
    && (forall bot | bot in s.pending :: s.pending[bot].bot == bot)
    && (forall bot: nat :: OfBot(s.arrived, bot) == OfBot(s.sent, bot) + PendingOf(s, bot))
  }

  ghost predicate Inv(s: State) {
    WorkerOk(s) && ChannelOk(s) && OrderOk(s)
  }

  lemma OfBotAppend(jobs: seq<Job>, j: Job, bot: nat)
    ensures OfBot(jobs + [j], bot) == OfBot(jobs, bot) + if j.bot == bot then [j] else []
  {
    assert (jobs + [j])[..|jobs|] == jobs;
  }

  lemma OrderKept(s: State, e: Event)
    requires OrderOk(s) && Enabled(s, e)
    ensures OrderOk(Step(s, e))
  {
    hide OfBot;
    var t := Step(s, e);
    forall bot: nat ensures OfBot(t.arrived, bot) == OfBot(t.sent, bot) + PendingOf(t, bot) {
      assert OfBot(s.arrived, bot) == OfBot(s.sent, bot) + PendingOf(s, bot);
      match e
      case Enqueue(job) => OfBotAppend(s.arrived, job, bot);
      case Send(b) => if !s.closed { OfBotAppend(s.sent, s.pending[b], bot); }
      case _ =>
    }
  }

  lemma ChannelKept(s: State, e: Event)
    requires WorkerOk(s) && ChannelOk(s) && Enabled(s, e)
    ensures ChannelOk(Step(s, e))
  {
  }

  lemma {:induction false} Reachable(es: seq<Event>)
    requires IsRun(es)
    ensures Inv(After(es))
  {
    hide OfBot;
    if es == [] {
      assert OrderOk(INIT) by { NoJobs(); }
    } else {
      var s, e := After(es[..|es| - 1]), es[|es| - 1];
      Reachable(es[..|es| - 1]);
      OrderKept(s, e);
      ChannelKept(s, e);
    }
  }

  lemma NoJobs()
    ensures OrderOk(INIT)
  {
  }

  // ------------------------------------------------------------ main results

  /** In every reachable state there is at most one worker and never was another, the buffer holds at
      most 64 jobs, and processed, current and buffered jobs together are exactly the jobs sent. */
  lemma QueueSafety(es: seq<Event>)
    requires IsRun(es)
    ensures var s := After(es);
      && s.workers <= s.started <= 1 && |s.buffer| <= 64
      && s.processed + CurrentSeq(s) + s.buffer == s.sent
  {
    Reachable(es);
  }

  lemma {:induction false} OfBotConcat(a: seq<Job>, b: seq<Job>, bot: nat)
    ensures OfBot(a + b, bot) == OfBot(a, bot) + OfBot(b, bot)
  {
    if b == [] {
      assert a + b == a;
    } else {
      assert (a + b)[..|a + b| - 1] == a + b[..|b| - 1];
      OfBotConcat(a, b[..|b| - 1], bot);
    }
  }

  /** The jobs of one bot are processed in the order in which they were accepted. */
  lemma PerBotOrder(es: seq<Event>, bot: nat)
    requires IsRun(es)
    ensures OfBot(After(es).processed, bot) <= OfBot(After(es).arrived, bot)
  {
    hide After, IsRun, OfBot;
    Reachable(es);
    var s := After(es);
    var rest := CurrentSeq(s) + s.buffer;
    assert s.sent == s.processed + rest;
    OfBotConcat(s.processed, rest, bot);
    assert OfBot(s.arrived, bot) == OfBot(s.sent, bot) + PendingOf(s, bot);
  }

  function Work(s: State): (r: nat) {
    2 * |s.buffer| + |CurrentSeq(s)| + s.workers
  }

  lemma PrefixIsRun(es: seq<Event>, e: Event)
    requires IsRun(es) && Enabled(After(es), e)
    ensures IsRun(es + [e]) && After(es + [e]) == Step(After(es), e)
  {
    assert (es + [e])[..|es|] == es;
  }

  function WorkerStep(s: State): (r: Event) {
    if s.current.Some? then Finish else if s.buffer != [] then Take else Exit
  }

  lemma WorkerGoesOn(s: State)
    requires Inv(s) && s.closed && !s.panicked
    ensures s.workers == 0 ==> Work(s) == 0 && s.processed == s.sent
    ensures s.workers != 0 ==> Enabled(s, WorkerStep(s)) && var t := Step(s, WorkerStep(s));
      t.closed && !t.panicked && t.sent == s.sent && Work(t) == Work(s) - 1
  {
    hide OfBot, OrderOk;
  }

  /** After the close the worker can always go on, and each of its steps brings the end nearer: it stops
      having processed every job sent before the close exactly once, in the order sent. */
  lemma {:induction false} Drain(es: seq<Event>) returns (more: seq<Event>)
    requires IsRun(es) && After(es).closed && !After(es).panicked
    ensures IsRun(es + more) && After(es + more).workers == 0
    ensures After(es + more).processed == After(es).sent && |more| == Work(After(es))
    decreases Work(After(es))
  {
    hide After, IsRun, Inv, Work, Step, Enabled;
    Reachable(es);
    var s := After(es);
    WorkerGoesOn(s);
    if s.workers == 0 {
      more := [];
      assert es + more == es;
    } else {
      var e := WorkerStep(s);
      PrefixIsRun(es, e);
      var rest := Drain(es + [e]);
      more := [e] + rest;
      assert es + [e] + rest == es + more;
    }
  }

  /** Whenever the worker is gone, however the run went, nothing sent is left unprocessed; and it only goes
      after the close. */
  lemma StoppedMeansProcessed(es: seq<Event>)
    requires IsRun(es) && After(es).workers == 0
    ensures After(es).processed == After(es).sent
    ensures After(es).arrived != [] ==> After(es).closed
  {
    Reachable(es);
    var s := After(es);
    if !s.closed { NothingAccepted(es); }
  }

  lemma {:induction false} NothingAccepted(es: seq<Event>)
    requires IsRun(es) && After(es).workers == 0 && !After(es).closed
    ensures After(es).arrived == []
  {
    if es != [] {
      Reachable(es);
      Reachable(es[..|es| - 1]);
      NothingAccepted(es[..|es| - 1]);
    }
  }

  lemma {:induction false} NoSendLeft(es: seq<Event>, more: seq<Event>)
    requires IsRun(es) && IsRun(es + more)
    requires After(es).closed && After(es).pending == map[] && !After(es).panicked
    ensures After(es + more).closed && After(es + more).pending == map[] && !After(es + more).panicked
    decreases |more|
  {
    if more == [] {
      assert es + more == es;
    } else {
      var all := es + more;
      assert all[..|all| - 1] == es + more[..|more| - 1];
      NoSendLeft(es, more[..|more| - 1]);
    }
  }

  /** A shutdown can be followed by a send on the closed channel exactly when some enqueue was still waiting to
      send when the channel was closed. */
  lemma ShutdownSafeIff(es: seq<Event>)
    requires IsRun(es) && !After(es).closed && !After(es).panicked
    ensures (exists more :: IsRun(es + [Close] + more) && After(es + [Close] + more).panicked)
       <==> After(es).pending != map[]
  {
    PrefixIsRun(es, Close);
    var closed := es + [Close];
    if After(es).pending != map[] {
      var bot :| bot in After(es).pending;
      PrefixIsRun(closed, Send(bot));
      assert After(closed + [Send(bot)]).panicked;
    } else {
      forall more | IsRun(closed + more) ensures !After(closed + more).panicked { NoSendLeft(closed, more); }
    }
  }

  // -------------------------------------------------- the queue manager itself

  class Channel {
    var buf: seq<Job>
    var closed: bool

    constructor ()
      ensures buf == [] && !closed
    {
      buf, closed := [], false;
    }
  }

  class QueueManager {
    var jobs: Channel?
    var workerStarted: bool

    constructor ()
      ensures jobs != null && fresh(jobs) && Represents(INIT, jobs)
    {
      jobs := new Channel();
      workerStarted := false;
    }

    /** The manager and its channel stand for state `s`. */
    ghost predicate Represents(s: State, ch: Channel)
      reads this, ch
    {
      && (if s.closed then jobs == null else jobs == ch)
      && workerStarted == s.workerStarted
      && ch.buf == s.buffer && ch.closed == s.closed
    }

    /** The locked part of an enqueue: nil when shut down, otherwise the channel to send to, and whether
        this call starts the worker. */
    method Accept(job: Job, ghost s: State, ghost ch: Channel) returns (to: Channel?, start: bool)
      requires Represents(s, ch) && Enabled(s, Enqueue(job))
      modifies this
      ensures Represents(Step(s, Enqueue(job)), ch)
      ensures to == (if s.closed then null else ch)
      ensures start <==> Step(s, Enqueue(job)).started == s.started + 1
    {
      if jobs == null { return null, false; }
      start := !workerStarted;
      if !workerStarted { workerStarted := true; }
      to := jobs;
    }

    /** The send that follows, once there is room; it panics when the channel was closed meanwhile. */
    method SendJob(to: Channel, job: Job, ghost s: State) returns (panicked: bool)
      requires Represents(s, to) && Enabled(s, Send(job.bot)) && s.pending[job.bot] == job
      modifies to
      ensures Represents(Step(s, Send(job.bot)), to)
      ensures panicked == Step(s, Send(job.bot)).panicked
    {
      panicked := to.closed;
      if !to.closed { to.buf := to.buf + [job]; }
    }

    method Shutdown(ghost s: State, ghost ch: Channel)
      requires Represents(s, ch) && Enabled(s, Close)
      modifies this, jobs
      ensures Represents(Step(s, Close), ch)
    {
      if jobs != null {
        jobs.closed := true;
        jobs := null;
        workerStarted := false;
      }
    }

    /** The worker's next turn: a job, or the end of a closed and empty channel. */
    method TakeJob(from: Channel, ghost s: State) returns (job: Option<Job>)
      requires Represents(s, from) && (Enabled(s, Take) || Enabled(s, Exit))
      modifies from
      ensures Represents(if s.buffer == [] then Step(s, Exit) else Step(s, Take), from)
      ensures job == if s.buffer == [] then None else Step(s, Take).current
    {
      if |from.buf| == 0 { return None; }
      job := Some(from.buf[0]);
      from.buf := from.buf[1..];
    }
  }
}

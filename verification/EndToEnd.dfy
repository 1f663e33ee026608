/** From the gateway's log to the worker: the polling loop, the bridge and the queue put together, over many
    lives of the process. */
module EndToEnd {
  import opened Delivery
  import opened Bridge
  import Jobs
  import JobQueue

  /** One life as one bot sees it: what its loop did, the run of the bridge, and the run of the queue. */
  datatype BotLife = BotLife(poll: Life, es: seq<Event>, qs: seq<JobQueue.Event>)

  /** The events in which a message arrived at this bot, in order. */
  function Arrivals(es: seq<Event>, bot: nat): (r: seq<nat>) {
    if es == [] then []
    else
      var n := |es| - 1;
      Arrivals(es[..n], bot) + if es[n].Arrive? && es[n].bot == bot then [n] else []
  }

  /** The jobs of this bot, by their place in the list. */
  function JobsOf(jobs: seq<Job>, bot: nat): (r: seq<nat>) {
    if jobs == [] then []
    else
      var n := |jobs| - 1;
      JobsOf(jobs[..n], bot) + if jobs[n].bot == bot then [n] else []
  }

  /** The three fit together: the messages that arrive at the bot are, in order, those its loop handles, read
      from the log, and the jobs the queue accepted from it are, in order, those the bridge made. */
  ghost predicate FitTogether(u: Setup, bot: nat, log: nat -> Message, handled: seq<nat>, l: BotLife) {
    && IsRun(u, l.es) && JobQueue.IsRun(l.qs)
    && var arrivals := Arrivals(l.es, bot);
       && |arrivals| <= |handled|
       && (forall i | 0 <= i < |arrivals| :: arrivals[i] < |l.es| && l.es[arrivals[i]].Arrive?
             && l.es[arrivals[i]].msg == log(handled[i]))
       && JobQueue.OfBot(JobQueue.After(l.qs).arrived, bot) <= JobQueue.OfBot(After(u, l.es).jobs, bot)
  }

  /** Each of these jobs was made of the message at its position of the log. */
  predicate MadeOf(u: Setup, bot: nat, log: nat -> Message, jobs: seq<Job>, ps: seq<nat>) {
    |jobs| == |ps| && bot < |u.labels| && forall i | 0 <= i < |jobs| :: jobs[i] == JobOf(u, bot, log(ps[i]))
  }

  // ------------------------------------------------------------------- one life

  lemma {:induction false} ArrivalRank(es: seq<Event>, bot: nat, k: nat)
    requires k < |es| && es[k].Arrive? && es[k].bot == bot
    ensures |Arrivals(es[..k], bot)| < |Arrivals(es, bot)| && Arrivals(es, bot)[|Arrivals(es[..k], bot)|] == k
    decreases |es|
  {
    var n := |es| - 1;
    if k < n {
      ArrivalRank(es[..n], bot, k);
      assert es[..n][..k] == es[..k];
    }
  }

  lemma RankAscends(es: seq<Event>, bot: nat, j: nat, k: nat)
    requires j < k <= |es| && es[j].Arrive? && es[j].bot == bot
    ensures |Arrivals(es[..j], bot)| < |Arrivals(es[..k], bot)|
  {
    ArrivalRank(es[..k], bot, j);
    assert es[..k][..j] == es[..j];
  }

  lemma {:induction false} JobsOfBot(jobs: seq<Job>, bot: nat)
    ensures var ix, of := JobsOf(jobs, bot), JobQueue.OfBot(jobs, bot);
      && |ix| == |of|
      && (forall i | 0 <= i < |ix| :: ix[i] < |jobs| && jobs[ix[i]] == of[i] && of[i].bot == bot)
      && (forall i, j | 0 <= i < j < |ix| :: ix[i] < ix[j])
  {
    if jobs != [] { JobsOfBot(jobs[..|jobs| - 1], bot); }
  }

  /** What a job of this bot says about its message. */
  lemma JobComesFrom(u: Setup, es: seq<Event>, bot: nat, j: nat)
    requires ValidSetup(u) && IsRun(u, es) && j < |After(u, es).jobs| && After(u, es).jobs[j].bot == bot
    ensures var s := After(u, es); |s.origins| == |s.jobs| && var k := s.origins[j].arrived;
      && k < |es| && es[k].Arrive? && es[k].bot == bot && bot < |u.labels| && s.jobs[j] == JobOf(u, bot, es[k].msg)
  {
    hide IsRun, After, Jobs.Started, Jobs.NonePending, MayRun, JobOf;
    Jobs.JobsHaveOrigins(u, es);
    var s := After(u, es);
    assert Jobs.MadeBy(u, es, s.jobs[j], s.origins[j]);
    Jobs.BooksAlways(u, es);
    Jobs.OriginBots(u, es, s);
  }

  /** The positions of the log that the jobs of this bot were made of. */
  lemma JobPositions(u: Setup, bot: nat, log: nat -> Message, handled: seq<nat>, l: BotLife) returns (ps: seq<nat>)
    requires ValidSetup(u) && bot < |u.labels| && FitTogether(u, bot, log, handled, l) && Ascending(handled)
    ensures MadeOf(u, bot, log, JobQueue.OfBot(After(u, l.es).jobs, bot), ps)
    ensures Ascending(ps) && forall p | p in ps :: p in handled
  {
    hide IsRun, After, JobOf, Arrivals, JobQueue.OfBot, JobsOf, JobQueue.IsRun, JobQueue.After, ValidSetup;
    var s, es := After(u, l.es), l.es;
    var ix, of := JobsOf(s.jobs, bot), JobQueue.OfBot(s.jobs, bot);
    JobsOfBot(s.jobs, bot);
    Jobs.JobsHaveOrigins(u, es);
    forall i | 0 <= i < |ix|
      ensures PositionOf(u, bot, log, handled, es, s.origins[ix[i]].arrived, of[i])
    {
      JobComesFrom(u, es, bot, ix[i]);
      ArrivalRank(es, bot, s.origins[ix[i]].arrived);
    }
    ps := seq(|ix|, i requires 0 <= i < |ix| => handled[|Arrivals(es[..s.origins[ix[i]].arrived], bot)|]);
    forall i, j | 0 <= i < j < |ps| ensures ps[i] < ps[j] {
      assert PositionOf(u, bot, log, handled, es, s.origins[ix[i]].arrived, of[i]);
      assert PositionOf(u, bot, log, handled, es, s.origins[ix[j]].arrived, of[j]);
      assert s.jobs[ix[i]].bot == s.jobs[ix[j]].bot;
      RankAscends(es, bot, s.origins[ix[i]].arrived, s.origins[ix[j]].arrived);
    }
  }

  /** This job was made of the message that arrived at `k`, the one handled in that place. */
  predicate PositionOf(u: Setup, bot: nat, log: nat -> Message, handled: seq<nat>, es: seq<Event>, k: nat, job: Job) {
    && k < |es| && es[k].Arrive? && es[k].bot == bot && bot < |u.labels|
    && var rank := |Arrivals(es[..k], bot)|; rank < |handled| && job == JobOf(u, bot, log(handled[rank]))
  }

  lemma LifeRunsOnce(u: Setup, bot: nat, log: nat -> Message, handled: seq<nat>, l: BotLife) returns (ps: seq<nat>)
    requires ValidSetup(u) && bot < |u.labels| && FitTogether(u, bot, log, handled, l) && Ascending(handled)
    ensures MadeOf(u, bot, log, JobQueue.OfBot(JobQueue.After(l.qs).processed, bot), ps)
    ensures Ascending(ps) && forall p | p in ps :: p in handled
  {
    var all := JobPositions(u, bot, log, handled, l);
    JobQueue.PerBotOrder(l.qs, bot);
    hide IsRun, After, JobOf, Arrivals, JobQueue.OfBot, JobQueue.IsRun, JobQueue.After;
    var done := JobQueue.OfBot(JobQueue.After(l.qs).processed, bot);
    var jobs := JobQueue.OfBot(After(u, l.es).jobs, bot);
    assert done <= jobs;
    ps := all[..|done|];
  }

  // ------------------------------------------------------------------ many lives

  function Polls(lives: seq<BotLife>): (r: seq<Life>)
    ensures |r| == |lives| && forall i | 0 <= i < |r| :: r[i] == lives[i].poll
  {
    seq(|lives|, i requires 0 <= i < |lives| => lives[i].poll)
  }

  /** The jobs of this bot processed in all lives, in order. */
  ghost function AllProcessed(bot: nat, lives: seq<BotLife>): (r: seq<Job>)
    requires forall k | 0 <= k < |lives| :: JobQueue.IsRun(lives[k].qs)
  {
    if lives == [] then []
    else
      var n := |lives| - 1;
      AllProcessed(bot, lives[..n]) + JobQueue.OfBot(JobQueue.After(lives[n].qs).processed, bot)
  }

  ghost predicate AllFit(u: Setup, bot: nat, log: nat -> Message, stored: string, lives: seq<BotLife>) {
    forall k: nat | k < |lives| :: FitTogether(u, bot, log, HandledIn(TraceIn(stored, Polls(lives), k)), lives[k])
  }

  lemma FitPrefix(u: Setup, bot: nat, log: nat -> Message, stored: string, lives: seq<BotLife>)
    requires AllFit(u, bot, log, stored, lives) && lives != []
    ensures AllFit(u, bot, log, stored, lives[..|lives| - 1])
    ensures Polls(lives)[..|lives| - 1] == Polls(lives[..|lives| - 1])
  {
    hide FitTogether, TraceIn, HandledIn;
    var n := |lives| - 1;
    assert Polls(lives)[..n] == Polls(lives[..n]);
    forall k: nat | k < n ensures FitTogether(u, bot, log, HandledIn(TraceIn(stored, Polls(lives[..n]), k)), lives[k]) {
      SameInPrefix(_ => 0, stored, Polls(lives), n, k);
    }
  }

  lemma AscendingParts(xs: seq<nat>, ys: seq<nat>)
    requires Ascending(xs + ys)
    ensures Ascending(xs) && Ascending(ys) && forall x, y | x in xs && y in ys :: x < y
  {
    var all := xs + ys;
    assert forall i | 0 <= i < |xs| :: all[i] == xs[i];
    assert forall i | 0 <= i < |ys| :: all[|xs| + i] == ys[i];
  }

  lemma MadeOfBoth(u: Setup, bot: nat, log: nat -> Message, a: seq<Job>, ps: seq<nat>, b: seq<Job>, qs: seq<nat>)
    requires MadeOf(u, bot, log, a, ps) && MadeOf(u, bot, log, b, qs) && Ascending(ps) && Ascending(qs)
    requires forall p, q | p in ps && q in qs :: p < q
    ensures MadeOf(u, bot, log, a + b, ps + qs) && Ascending(ps + qs)
  {
    hide JobOf;
    forall i, j | 0 <= i < j < |ps + qs| ensures (ps + qs)[i] < (ps + qs)[j] {
      if i < |ps| { assert (ps + qs)[i] in ps; }
      if j >= |ps| { assert (ps + qs)[j] in qs; }
    }
  }

  lemma {:induction false} RunsOnce(u: Setup, bot: nat, log: nat -> Message, stored: string, lives: seq<BotLife>)
    returns (ps: seq<nat>)
    requires ValidSetup(u) && bot < |u.labels| && AllFit(u, bot, log, stored, lives)
    requires Ascending(AllHandled(stored, Polls(lives)))
    requires forall k | 0 <= k < |lives| :: JobQueue.IsRun(lives[k].qs)
    ensures MadeOf(u, bot, log, AllProcessed(bot, lives), ps)
    ensures Ascending(ps) && forall p | p in ps :: p in AllHandled(stored, Polls(lives))
  {
    hide FitTogether, TraceOf, HandledIn, JobQueue.IsRun, JobQueue.After, JobQueue.OfBot, CellAfter;
    if lives == [] {
      ps := [];
    } else {
      var n := |lives| - 1;
      FitPrefix(u, bot, log, stored, lives);
      var before, now := AllHandled(stored, Polls(lives[..n])), HandledIn(TraceIn(stored, Polls(lives), n));
      assert AllHandled(stored, Polls(lives)) == before + now;
      AscendingParts(before, now);
      assert FitTogether(u, bot, log, now, lives[n]);
      hide AllHandled, AllFit, Ascending;
      var xs := RunsOnce(u, bot, log, stored, lives[..n]);
      var ys := LifeRunsOnce(u, bot, log, now, lives[n]);
      MadeOfBoth(u, bot, log, AllProcessed(bot, lives[..n]), xs,
                 JobQueue.OfBot(JobQueue.After(lives[n].qs).processed, bot), ys);
      ps := xs + ys;
    }
  }

  /** Over any number of lives, with crashes anywhere: the jobs of a bot that the worker ever processes were
      made of different messages of the gateway's log, in the order of the log, provided every life starts
      at or past where those before it got. */
  lemma EachMessageRunsOnce(pos: string -> nat, u: Setup, bot: nat, log: nat -> Message, stored: string,
                            lives: seq<BotLife>)
    requires ValidSetup(u) && bot < |u.labels| && AllFit(u, bot, log, stored, lives)
    requires HonestLives(pos, stored, Polls(lives)) && StartsClear(pos, stored, Polls(lives))
    requires forall k | 0 <= k < |lives| :: JobQueue.IsRun(lives[k].qs)
    ensures exists ps: seq<nat> ::
      && MadeOf(u, bot, log, AllProcessed(bot, lives), ps) && Ascending(ps)
      && forall p | p in ps :: p in AllHandled(stored, Polls(lives))
  {
    AtMostOnceIff(pos, stored, Polls(lives));
    var ps := RunsOnce(u, bot, log, stored, lives);
  }
}

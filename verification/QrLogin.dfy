/** QR login: a loop up to a deadline that polls the status of the latest code and refreshes it when it
    expires.  Times in nanoseconds; the environment's answers and delays are arbitrary. */
module QrLogin {
  import opened Text

  const SECOND := 1_000_000_000
  const MIN_WAIT := 30 * SECOND
  const DEFAULT_WAIT := 480 * SECOND
  const MAX_REFRESH := 3
  const BACKOFF := SECOND

  const DEFAULT_API := "https://ilinkai.weixin.qq.com"

  /** The status answer of the gateway; a poll that timed out reads as "wait". */
  datatype Status = Status(status: string, botId: string, token: string, baseUrl: string)

  /** One answer of the gateway to a fetch or a poll, and how long it took. */
  datatype Fetch = Fetch(code: Option<string>, took: nat)
  datatype Poll = Poll(status: Option<Status>, took: nat)

  /** Everything the loop does not decide: the n-th fetch, the n-th poll, how much longer than asked the
      n-th sleep lasts, and whether the context is cancelled at the n-th check. */
  datatype World = World(fetches: nat -> Fetch, polls: nat -> Poll, oversleep: nat -> nat, cancelled: nat -> bool)

  datatype Outcome = Success(gateway: string, token: string, botId: string) | Failure

  /** A request for a code, with the code if one came back, or a poll of a code's status. */
  datatype Action = Fetched(got: Option<string>) | Polled(code: string, at: nat)

  function CountFetches(trace: seq<Action>): (r: nat) {
    if trace == [] then 0
    else CountFetches(trace[..|trace| - 1]) + if trace[|trace| - 1].Fetched? then 1 else 0
  }

  function CountPolls(trace: seq<Action>): (r: nat) {
    if trace == [] then 0
    else CountPolls(trace[..|trace| - 1]) + if trace[|trace| - 1].Polled? then 1 else 0
  }

  /** The code that the last fetch before position `n` brought. */
  function LatestCode(trace: seq<Action>, n: nat): (r: Option<string>)
    requires n <= |trace|
  {
    if n == 0 then None
    else if trace[n - 1].Fetched? then trace[n - 1].got
    else LatestCode(trace, n - 1)
  }

  lemma {:induction false} LatestCodeAppend(trace: seq<Action>, a: Action, n: nat)
    requires n <= |trace|
    ensures LatestCode(trace + [a], n) == LatestCode(trace, n)
  {
    if n > 0 { LatestCodeAppend(trace, a, n - 1); }
  }

  /** Every poll asks about the code fetched last. */
  ghost predicate PollsLatest(trace: seq<Action>) {
    forall i | 0 <= i < |trace| && trace[i].Polled? :: LatestCode(trace, i) == Some(trace[i].code)
  }

  /** Under half a minute stands for eight minutes. */
  function EffectiveWait(wait: int): (r: nat)
    ensures r == if wait < 30_000_000_000 then 480_000_000_000 else wait
  {
    if wait < MIN_WAIT then DEFAULT_WAIT else wait
  }

  /** Whole seconds, rounded up. */
  function CeilSeconds(t: nat): (r: nat)
    ensures (r - 1) * 1_000_000_000 < t <= r * 1_000_000_000
  {
    (t + SECOND - 1) / SECOND
  }

  /** The gateway address reported: the one the server names, or the API address without its last slash. */
  function Gateway(api: string, baseUrl: string): (r: string) {
    var base := TrimSpace(baseUrl);
    if base == "" then StripSlash(WithSlash(ApiRoot(api))) else base
  }

  function ApiRoot(api: string): (r: string) {
    if TrimSpace(api) == "" then DEFAULT_API else TrimSpace(api)
  }

  function WithSlash(s: string): (r: string) {
    if HasSuffix(s, "/") then s else s + "/"
  }

  function StripSlash(s: string): (r: string) {
    if HasSuffix(s, "/") then s[..|s| - 1] else s
  }

  // ------------------------------------------------------- how a login must go

  /** How many of the first `n` polls found the code expired. */
  function Expiries(w: World, n: nat): (r: nat) {
    if n == 0 then 0
    else
      var st := w.polls(n - 1).status;
      Expiries(w, n - 1) + if st.Some? && st.value.status == "expired" then 1 else 0
  }

  /** When the n-th round begins: after the first code, every round takes its poll, a new code when the old
      one expired, and a second's sleep. */
  function Begins(w: World, start: nat, n: nat): (at: nat) {
    if n == 0 then start + w.fetches(0).took
    else
      var renewed := Expiries(w, n) > Expiries(w, n - 1);
      Begins(w, start, n - 1) + w.polls(n - 1).took + (if renewed then w.fetches(Expiries(w, n)).took else 0)
      + 1_000_000_000 + w.oversleep(n - 1)
  }

  /** The n-th round gets an answer: it begins before the deadline, is not cancelled, and its poll works. */
  ghost predicate Answered(w: World, start: nat, wait: nat, n: nat) {
    Begins(w, start, n) < start + wait && !w.cancelled(n) && w.polls(n).status.Some?
  }

  /** The n-th round settles nothing and another follows: any status but "confirmed" will do; of an expired code
      it must be at most the third, and a new one must come. */
  ghost predicate GoesOn(w: World, start: nat, wait: nat, n: nat) {
    && Answered(w, start, wait, n)
    && w.polls(n).status.value.status != "confirmed"
    && (w.polls(n).status.value.status == "expired" ==>
          Expiries(w, n) < 3 && w.fetches(Expiries(w, n) + 1).code.Some?)
  }

  ghost predicate Reaches(w: World, start: nat, wait: nat, n: nat) {
    w.fetches(0).code.Some? && forall k: nat | k < n :: GoesOn(w, start, wait, k)
  }

  /** The n-th round is reached and confirms the login. */
  ghost predicate Confirms(w: World, start: nat, wait: nat, n: nat) {
    && Reaches(w, start, wait, n) && Answered(w, start, wait, n)
    && var st := w.polls(n).status.value;
       st.status == "confirmed" && TrimSpace(st.botId) != "" && TrimSpace(st.token) != ""
  }

  /** Why a login fails. */
  datatype Reason = NoCode | Late | Cancelled | PollFailed | TooManyCodes | NoNewCode | BlankLogin

  /** The n-th round is reached and this is why it is the last. */
  ghost predicate FailsAt(w: World, start: nat, wait: nat, n: nat, why: Reason) {
    && Reaches(w, start, wait, n)
    && var late, cancelled, st := Begins(w, start, n) >= start + wait, w.cancelled(n), w.polls(n).status;
       match why
       case NoCode => false
       case Late => late
       case Cancelled => !late && cancelled
       case PollFailed => !late && !cancelled && st.None?
       case TooManyCodes => Answered(w, start, wait, n) && st.value.status == "expired" && Expiries(w, n) >= 3
       case NoNewCode => Answered(w, start, wait, n) && st.value.status == "expired" && Expiries(w, n) < 3
                         && w.fetches(Expiries(w, n) + 1).code.None?
       case BlankLogin => Answered(w, start, wait, n) && st.value.status == "confirmed"
                          && (TrimSpace(st.value.botId) == "" || TrimSpace(st.value.token) == "")
  }

  /** A login fails for this reason. */
  ghost predicate Fails(w: World, start: nat, wait: nat, why: Reason) {
    if why == NoCode then w.fetches(0).code.None? else exists n: nat :: FailsAt(w, start, wait, n, why)
  }

  /** No round past one that does not go on is reached. */
  lemma NotPast(w: World, start: nat, wait: nat, n: nat, m: nat)
    requires Reaches(w, start, wait, m) && !GoesOn(w, start, wait, n)
    ensures m <= n
  {
    hide GoesOn;
  }

  lemma Stops(w: World, start: nat, wait: nat, n: nat)
    ensures Confirms(w, start, wait, n) ==> Reaches(w, start, wait, n) && !GoesOn(w, start, wait, n)
    ensures forall why | FailsAt(w, start, wait, n, why) :: Reaches(w, start, wait, n) && !GoesOn(w, start, wait, n)
  {
    hide TrimSpace, Begins, Expiries, Reaches;
  }

  /** A login ends in one round only. */
  lemma OneRound(w: World, start: nat, wait: nat, n: nat, m: nat)
    requires Confirms(w, start, wait, n) || exists why :: FailsAt(w, start, wait, n, why)
    requires Confirms(w, start, wait, m) || exists why :: FailsAt(w, start, wait, m, why)
    ensures n == m
  {
    Stops(w, start, wait, n);
    Stops(w, start, wait, m);
    hide Confirms, FailsAt, Reaches, GoesOn;
    NotPast(w, start, wait, n, m);
    NotPast(w, start, wait, m, n);
  }

  lemma OneWay(w: World, start: nat, wait: nat, n: nat, why: Reason)
    requires FailsAt(w, start, wait, n, why)
    ensures !Confirms(w, start, wait, n) && forall other | FailsAt(w, start, wait, n, other) :: other == why
  {
    hide TrimSpace, Begins, Expiries, Reaches;
  }

  /** The login fails for this reason and no other, and does not succeed. */
  ghost predicate FailsFor(w: World, start: nat, wait: nat, why: Reason) {
    && (forall n: nat :: !Confirms(w, start, wait, n))
    && (forall other :: Fails(w, start, wait, other) <==> other == why)
  }

  /** The login succeeds with this answer and no other, and fails for no reason. */
  ghost predicate SucceedsWith(w: World, start: nat, wait: nat, st: Status) {
    && (exists n: nat :: Confirms(w, start, wait, n))
    && (forall n: nat | Confirms(w, start, wait, n) :: w.polls(n).status == Some(st))
    && (forall why :: !Fails(w, start, wait, why))
  }

  lemma FailsOnly(w: World, start: nat, wait: nat, n: nat, why: Reason)
    requires FailsAt(w, start, wait, n, why)
    ensures FailsFor(w, start, wait, why)
  {
    assert why != NoCode && w.fetches(0).code.Some?;
    OneWay(w, start, wait, n, why);
    hide Confirms, FailsAt;
    forall m: nat ensures !Confirms(w, start, wait, m) {
      if Confirms(w, start, wait, m) { OneRound(w, start, wait, n, m); }
    }
    forall other ensures Fails(w, start, wait, other) <==> other == why {
      forall m: nat | FailsAt(w, start, wait, m, other) ensures other == why { OneRound(w, start, wait, n, m); }
    }
  }

  lemma SucceedsOnly(w: World, start: nat, wait: nat, n: nat, st: Status)
    requires Confirms(w, start, wait, n) && w.polls(n).status == Some(st)
    ensures SucceedsWith(w, start, wait, st)
  {
    assert w.fetches(0).code.Some?;
    forall why | FailsAt(w, start, wait, n, why) ensures false { OneWay(w, start, wait, n, why); }
    hide Confirms, FailsAt;
    forall m: nat | Confirms(w, start, wait, m) ensures m == n { OneRound(w, start, wait, n, m); }
    forall why ensures !Fails(w, start, wait, why) {
      forall m: nat ensures !FailsAt(w, start, wait, m, why) {
        if FailsAt(w, start, wait, m, why) { OneRound(w, start, wait, n, m); }
      }
    }
  }

  /** The gateway a login reports: the address the server names, else the API's, without its last slash; no
      API address stands for the default one. */
  lemma GatewayIs(api: string, baseUrl: string)
    ensures TrimSpace(baseUrl) != "" ==> Gateway(api, baseUrl) == TrimSpace(baseUrl)
    ensures TrimSpace(baseUrl) == "" && TrimSpace(api) == "" ==>
      Gateway(api, baseUrl) == "https://ilinkai.weixin.qq.com"
    ensures TrimSpace(baseUrl) == "" && TrimSpace(api) != "" ==>
      Gateway(api, baseUrl) == TrimSpace(api) || Gateway(api, baseUrl) + "/" == TrimSpace(api)
    ensures TrimSpace(baseUrl) == "" && TrimSpace(api) != "" && HasSuffix(TrimSpace(api), "/") ==>
      Gateway(api, baseUrl) + "/" == TrimSpace(api)
  {
    hide TrimSpace;
    var t := ApiRoot(api);
    if HasSuffix(t, "/") {
      assert t == t[..|t| - 1] + "/";
    } else {
      assert (t + "/")[..|t + "/"| - 1] == t;
      assert HasSuffix(t + "/", "/");
    }
  }

  lemma PollAppends(trace: seq<Action>, a: Action)
    ensures CountFetches(trace + [a]) == CountFetches(trace) + (if a.Fetched? then 1 else 0)
    ensures CountPolls(trace + [a]) == CountPolls(trace) + (if a.Polled? then 1 else 0)
    ensures LatestCode(trace + [a], |trace| + 1) == if a.Fetched? then a.got else LatestCode(trace, |trace|)
    ensures PollsLatest(trace) && (a.Polled? ==> LatestCode(trace, |trace|) == Some(a.code)) ==>
      PollsLatest(trace + [a])
  {
    assert (trace + [a])[..|trace|] == trace;
    forall n | 0 <= n <= |trace| ensures LatestCode(trace + [a], n) == LatestCode(trace, n) {
      LatestCodeAppend(trace, a, n);
    }
  }

  lemma CeilBound(rounds: nat, t: nat)
    requires rounds == 0 || (rounds - 1) * SECOND < t
    ensures rounds <= CeilSeconds(t)
  {
  }

  lemma EmptyTrace()
    ensures CountFetches([]) == 0 && CountPolls([]) == 0 && PollsLatest([])
  {
  }

  /** What a trace shows after so many fetches and polls, the last of which brought this code. */
  ghost predicate Shows(trace: seq<Action>, fetches: nat, polls: nat, got: Option<string>, deadline: nat) {
    && CountFetches(trace) == fetches && CountPolls(trace) == polls
    && PollsLatest(trace) && LatestCode(trace, |trace|) == got
    && forall i | 0 <= i < |trace| && trace[i].Polled? :: trace[i].at < deadline
  }

  lemma ShowsMore(trace: seq<Action>, a: Action, fetches: nat, polls: nat, got: Option<string>, deadline: nat)
    requires Shows(trace, fetches, polls, got, deadline)
    requires a.Polled? ==> got == Some(a.code) && a.at < deadline
    ensures a.Fetched? ==> Shows(trace + [a], fetches + 1, polls, a.got, deadline)
    ensures a.Polled? ==> Shows(trace + [a], fetches, polls + 1, got, deadline)
  {
    PollAppends(trace, a);
    hide CountFetches, CountPolls, PollsLatest, LatestCode;
  }

  lemma ShowsNothing(deadline: nat)
    ensures Shows([], 0, 0, None, deadline)
  {
  }

  lemma ShowsBounds(trace: seq<Action>, fetches: nat, polls: nat, got: Option<string>, deadline: nat)
    requires Shows(trace, fetches, polls, got, deadline)
    ensures CountFetches(trace) == fetches && CountPolls(trace) == polls && PollsLatest(trace)
    ensures forall i | 0 <= i < |trace| && trace[i].Polled? :: trace[i].at < deadline
  {
  }

  /** A confirmed answer: the login, unless its bot id or its token is blank. */
  method Confirm(api: string, root: string, st: Status) returns (r: Outcome)
    requires root == WithSlash(ApiRoot(api))
    ensures r == if TrimSpace(st.botId) == "" || TrimSpace(st.token) == "" then Failure
                 else Success(Gateway(api, st.baseUrl), TrimSpace(st.token), st.botId)
  {
    hide TrimSpace, HasSuffix, StripSlash, WithSlash, ApiRoot;
    if TrimSpace(st.botId) == "" { return Failure; }
    var gateway := TrimSpace(st.baseUrl);
    if gateway == "" { gateway := StripSlash(root); }
    var tok := TrimSpace(st.token);
    if tok == "" { return Failure; }
    r := Success(gateway, tok, st.botId);
  }

  /** The code is fetched at most four times and polled at most once a second, always the latest one and never
      after the deadline; the login succeeds exactly when some round confirms it, with what that round said,
      and otherwise fails for exactly the reason given. */
  method Run(api: string, wait: int, start: nat, w: World)
    returns (r: Outcome, trace: seq<Action>, why: Reason)
    ensures CountFetches(trace) <= 4
    ensures CountPolls(trace) <= CeilSeconds(EffectiveWait(wait))
    ensures PollsLatest(trace)
    ensures forall i | 0 <= i < |trace| && trace[i].Polled? :: trace[i].at < start + EffectiveWait(wait)
    ensures r.Failure? ==> FailsFor(w, start, EffectiveWait(wait), why)
    ensures r.Success? ==> exists st | SucceedsWith(w, start, EffectiveWait(wait), st) ::
      r == Success(Gateway(api, st.baseUrl), TrimSpace(st.token), st.botId)
  {
    hide TrimSpace, HasSuffix, CeilSeconds, Gateway, WithSlash, ApiRoot, PollsLatest, CountFetches, CountPolls, Shows;
    hide Answered, GoesOn, Reaches, Confirms, FailsAt, Fails, Begins, Expiries, FailsFor, SucceedsWith, LatestCode;
    ghost var span := EffectiveWait(wait);
    CeilBound(0, span);
    var root := WithSlash(ApiRoot(api));
    var deadline := start + EffectiveWait(wait);
    trace, r, why := [], Failure, NoCode;
    ShowsNothing(deadline);

    var first := w.fetches(0);
    var now := start + first.took;
    ShowsMore(trace, Fetched(first.code), 0, 0, None, deadline);
    trace := trace + [Fetched(first.code)];
    ShowsBounds(trace, 1, 0, first.code, deadline);
    if first.code.None? {
      FirstFails(w, start, span);
      return;
    }
    var qr := first.code.value;

    var refresh := 0;
    var rounds := 0;
    RoundZero(w, start, span);
    while now < deadline
      invariant 0 <= refresh <= MAX_REFRESH && refresh == Expiries(w, rounds)
      invariant now >= start + rounds * BACKOFF && now == Begins(w, start, rounds) && rounds <= CeilSeconds(span)
      invariant Shows(trace, 1 + refresh, rounds, Some(qr), deadline)
      invariant Reaches(w, start, span, rounds) && r == Failure
      decreases deadline - now
    {
      RoundIs(w, start, span, rounds);
      ShowsBounds(trace, 1 + refresh, rounds, Some(qr), deadline);
      if w.cancelled(rounds) {
        why := Cancelled;
        FailsOnly(w, start, span, rounds, why);
        return;
      }
      var poll := w.polls(rounds);
      ShowsMore(trace, Polled(qr, now), 1 + refresh, rounds, Some(qr), deadline);
      trace := trace + [Polled(qr, now)];
      now := now + poll.took;
      CeilBound(rounds + 1, span);
      ShowsBounds(trace, 1 + refresh, rounds + 1, Some(qr), deadline);
      if poll.status.None? {
        why := PollFailed;
        FailsOnly(w, start, span, rounds, why);
        return;
      }
      var st := poll.status.value;
      if st.status == "expired" {
        if refresh + 1 > MAX_REFRESH {
          why := TooManyCodes;
          FailsOnly(w, start, span, rounds, why);
          return;
        }
        var next := w.fetches(refresh + 1);
        now := now + next.took;
        ShowsMore(trace, Fetched(next.code), 1 + refresh, rounds + 1, Some(qr), deadline);
        trace := trace + [Fetched(next.code)];
        refresh := refresh + 1;
        ShowsBounds(trace, 1 + refresh, rounds + 1, next.code, deadline);
        if next.code.None? {
          why := NoNewCode;
          FailsOnly(w, start, span, rounds, why);
          return;
        }
        qr := next.code.value;
      } else if st.status == "confirmed" {
        r := Confirm(api, root, st);
        if r.Failure? {
          why := BlankLogin;
          FailsOnly(w, start, span, rounds, why);
        } else {
          SucceedsOnly(w, start, span, rounds, st);
        }
        return;
      }
      now := now + BACKOFF + w.oversleep(rounds);
      rounds := rounds + 1;
    }
    why := Late;
    RoundIs(w, start, span, rounds);
    FailsOnly(w, start, span, rounds, why);
    ShowsBounds(trace, 1 + refresh, rounds, Some(qr), deadline);
  }

  lemma FirstFails(w: World, start: nat, wait: nat)
    requires w.fetches(0).code.None?
    ensures FailsFor(w, start, wait, NoCode)
  {
  }

  lemma RoundZero(w: World, start: nat, wait: nat)
    requires w.fetches(0).code.Some?
    ensures Reaches(w, start, wait, 0) && Begins(w, start, 0) == start + w.fetches(0).took && Expiries(w, 0) == 0
  {
  }

  /** A round that is reached: how it can end, and where it leads when it does not. */
  lemma RoundIs(w: World, start: nat, wait: nat, n: nat)
    requires Reaches(w, start, wait, n)
    ensures var late, st := Begins(w, start, n) >= start + wait, w.polls(n).status;
      && (late ==> FailsAt(w, start, wait, n, Late))
      && (!late && w.cancelled(n) ==> FailsAt(w, start, wait, n, Cancelled))
      && (!late && !w.cancelled(n) && st.None? ==> FailsAt(w, start, wait, n, PollFailed))
      && (!late && !w.cancelled(n) && st.Some? ==> RoundAnswered(w, start, wait, n, st.value))
  {
    hide TrimSpace;
  }

  ghost predicate RoundAnswered(w: World, start: nat, wait: nat, n: nat, st: Status) {
    var blank := TrimSpace(st.botId) == "" || TrimSpace(st.token) == "";
    var fetched := w.fetches(Expiries(w, n) + 1);
    && (st.status == "confirmed" ==>
          if blank then FailsAt(w, start, wait, n, BlankLogin) else Confirms(w, start, wait, n))
    && (st.status == "expired" && Expiries(w, n) >= 3 ==> FailsAt(w, start, wait, n, TooManyCodes))
    && (st.status == "expired" && Expiries(w, n) < 3 ==>
          if fetched.code.None? then FailsAt(w, start, wait, n, NoNewCode)
          else Leads(w, start, wait, n, fetched.took) && Expiries(w, n + 1) == Expiries(w, n) + 1)
    && (st.status != "confirmed" && st.status != "expired" ==>
          Leads(w, start, wait, n, 0) && Expiries(w, n + 1) == Expiries(w, n))
  }

  ghost predicate Leads(w: World, start: nat, wait: nat, n: nat, extra: nat) {
    && Reaches(w, start, wait, n + 1)
    && Begins(w, start, n + 1) == Begins(w, start, n) + w.polls(n).took + extra + 1_000_000_000 + w.oversleep(n)
  }
}

/** The alert state machine of bot.py: `send_telegram_alert` (lines 142-176)
    with its 10-second cooldown, `check_and_alert` (lines 178-199) and the
    loop of `monitor_loop` (lines 201-241) with its credential guard and its
    status counter. */
module BotMonitor {
  import opened Wrappers
  import opened Markup
  import opened Telegram
  import BotDetect

  /** `self.alert_cooldown`, in seconds. */
  const AlertCooldown: real := 10.0
  /** A status message is due every this many checks. */
  const StatusEvery: nat := 150
  /** `check_and_alert` alerts only for sets of at most this many numbers. */
  const MaxAlertSize: nat := 15

  /** The monitor's mutable fields: the last set that passed the alert
      guard and the time of the last bright alert. */
  datatype Monitor = Monitor(lastDetected: set<int>, lastAlertTime: real)

  /** The state `__init__` sets up. */
  const Fresh: Monitor := Monitor({}, 0.0)

  /** A message handed to the channel, and the clock reading at that moment. */
  datatype Attempt = Attempt(message: Message, at: real)

  /** The monitor after a call, and the message the call handed to the channel, if any. */
  datatype Step = Step(monitor: Monitor, attempt: Option<Attempt>)

  /** One poll: the fetch result (`None` for a failed fetch), the parsed
      elements of the page (`None` when parsing raised) and its raw-pattern
      hits, the clock reading and the fate of any message sent during the poll. */
  datatype Poll = Poll(fetched: Option<string>, elements: Option<seq<Element>>, patternHits: set<int>,
                       now: real, delivery: Delivery)

  /** `send_telegram_alert(numbers, kind)` at time `now`. */
  function SendAlert(m: Monitor, numbers: set<int>, kind: Kind, now: real, delivery: Delivery): (r: Step)
    ensures r.monitor.lastDetected == m.lastDetected
    ensures r.attempt.Some? <==> numbers != {} && (kind.Status? || now - m.lastAlertTime >= AlertCooldown)
    ensures r.attempt.Some? ==> r.attempt.value == Attempt(Message(kind, numbers, delivery), now)
    ensures r.monitor.lastAlertTime >= m.lastAlertTime
    ensures r.monitor.lastAlertTime != m.lastAlertTime ==> kind.Bright? && r.attempt.Some?
    ensures kind.Bright? && r.attempt.Some? ==> r.monitor.lastAlertTime == now
  {
    if numbers == {} then Step(m, None)
    else if kind.Bright? && now - m.lastAlertTime < AlertCooldown then Step(m, None)
    else
      var m' := if kind.Bright? then m.(lastAlertTime := now) else m;
      Step(m', Some(Attempt(Message(kind, numbers, delivery), now)))
  }

  /** What `check_and_alert` learns from one poll (bot.py lines 181-183):
      whether the fetch returned markup, and what the detector made of it. */
  datatype Observation = Observation(fetched: bool, current: set<int>, now: real, delivery: Delivery)

  /** A detection the alert guard could let through, or nothing. */
  predicate Plausible(s: set<int>) {
    s == {} || (1 <= |s| <= MaxAlertSize && forall v :: v in s ==> IsKenoNumber(v))
  }

  /** Fetch and detect. A failed or empty fetch detects nothing. */
  function Observe(p: Poll): (o: Observation)
    ensures Plausible(o.current)
    ensures !o.fetched ==> o.current == {}
  {
    Observation(IsTruthy(p.fetched), BotDetect.Detect(p.fetched, p.elements, p.patternHits), p.now, p.delivery)
  }

  /** The guard of bot.py lines 186-188. */
  predicate PassesAlertGuard(m: Monitor, current: set<int>) {
    current != {} && current != m.lastDetected && 1 <= |current| <= MaxAlertSize
  }

  /** The decision of `check_and_alert` (bot.py lines 182-192). The guard
      records the new set as seen whether or not the cooldown let the alert out. */
  function Decide(m: Monitor, o: Observation): (r: Step)
    ensures r.attempt.Some? <==>
      o.fetched && PassesAlertGuard(m, o.current) && o.now - m.lastAlertTime >= AlertCooldown
    ensures r.attempt.Some? ==> r.attempt.value == Attempt(Message(Bright, o.current, o.delivery), o.now)
    ensures r.monitor.lastDetected ==
      (if o.fetched && PassesAlertGuard(m, o.current) then o.current else m.lastDetected)
    ensures r.monitor.lastAlertTime == (if r.attempt.Some? then o.now else m.lastAlertTime)
  {
    if !o.fetched then Step(m, None)
    else if PassesAlertGuard(m, o.current) then
      var sent := SendAlert(m, o.current, Bright, o.now, o.delivery);
      Step(sent.monitor.(lastDetected := o.current), sent.attempt)
    else
      Step(m, None)
  }

  /** `check_and_alert`: one fetch, detection and possible alert. */
  function CheckAndAlert(m: Monitor, p: Poll): Step {
    Decide(m, Observe(p))
  }

  /** The loop's state: the monitor, `check_count`, and every message the
      loop has handed to the channel so far. */
  datatype Loop = Loop(monitor: Monitor, checkCount: nat, attempts: seq<Attempt>)

  /** One iteration of the `while True` loop on what its check observed. The
      status call passes `set()` and so returns at once (bot.py line 144). */
  function Iterate(l: Loop, o: Observation): (r: Loop)
    ensures l.checkCount < StatusEvery ==> r.checkCount == (l.checkCount + 1) % StatusEvery
  {
    var step := Decide(l.monitor, o);
    var count := l.checkCount + 1;
    var attempts := l.attempts + ToSeq(step.attempt);
    if count % StatusEvery == 0 then
      var status := SendAlert(step.monitor, {}, Status, o.now, o.delivery);
      Loop(status.monitor, 0, attempts + ToSeq(status.attempt))
    else
      Loop(step.monitor, count, attempts)
  }

  /** The loop after the given observations (any finite prefix of its run). */
  function Run(l: Loop, obs: seq<Observation>): Loop
    decreases |obs|
  {
    if obs == [] then l else Run(Iterate(l, obs[0]), obs[1..])
  }

  /** Each poll's fetch and detection, in order. */
  function ObserveAll(polls: seq<Poll>): (obs: seq<Observation>)
    ensures |obs| == |polls|
    ensures forall i :: 0 <= i < |obs| ==> obs[i] == Observe(polls[i])
    decreases |polls|
  {
    if polls == [] then [] else [Observe(polls[0])] + ObserveAll(polls[1..])
  }

  /** Outcome of `monitor_loop`. */
  datatype Outcome = MissingCredentials | Running(loop: Loop)

  /** `monitor_loop` over a finite prefix of its polls: refuse to start
      without both credentials, send the startup status (with `set()`), then
      iterate from `check_count = 0`. */
  function MonitorLoop(token: Option<string>, chatId: Option<string>, startedAt: real,
                       startupDelivery: Delivery, polls: seq<Poll>): (r: Outcome)
    ensures r.MissingCredentials? <==> !IsTruthy(token) || !IsTruthy(chatId)
    ensures r.Running? ==> r.loop == Run(Loop(Fresh, 0, []), ObserveAll(polls))
  {
    if !IsTruthy(token) || !IsTruthy(chatId) then MissingCredentials
    else
      var startup := SendAlert(Fresh, {}, Status, startedAt, startupDelivery);
      Running(Run(Loop(startup.monitor, 0, ToSeq(startup.attempt)), ObserveAll(polls)))
  }

  // ---------------------------------------------------------------------
  // Properties

  /** The state after a send does not depend on whether Telegram delivered it:
      the alert time has already advanced. */
  lemma DeliveryLeavesNoTrace(m: Monitor, numbers: set<int>, kind: Kind, now: real)
    ensures SendAlert(m, numbers, kind, now, Delivered).monitor == SendAlert(m, numbers, kind, now, Failed).monitor
  {
  }

  /** A set the cooldown held back is nevertheless recorded as seen. */
  lemma CooldownStillRecordsSet(m: Monitor, o: Observation)
    requires o.fetched && PassesAlertGuard(m, o.current)
    requires o.now - m.lastAlertTime < AlertCooldown
    ensures Decide(m, o) == Step(m.(lastDetected := o.current), None)
  {
  }

  /** The check right after one that saw a set never alerts on that same
      set, whatever the clock says: a set the cooldown held back is not
      reported by the next poll that still sees it. The set can be alerted
      again once another set came in between (`SameSetAlertedTwice`). */
  lemma SameDetectionNeverRealerts(m: Monitor, p1: Poll, p2: Poll)
    requires Observe(p2).current == Observe(p1).current
    ensures CheckAndAlert(CheckAndAlert(m, p1).monitor, p2).attempt == None
  {
  }

  /** A new non-empty set once the cooldown has elapsed is alerted and becomes
      the last detection; the size bound of the guard never blocks it, since
      the detector never yields more than 15 numbers. */
  lemma NewSetAfterCooldownAlerts(m: Monitor, o: Observation)
    requires o.fetched && Plausible(o.current)
    requires o.current != {} && o.current != m.lastDetected
    requires o.now - m.lastAlertTime >= AlertCooldown
    ensures Decide(m, o) == Step(Monitor(o.current, o.now), Some(Attempt(Message(Bright, o.current, o.delivery), o.now)))
  {
  }

  /** What the loop has done so far is consistent: only bright alerts went
      out, they are at least a cooldown apart, the last of them set the
      alert time, and the last detection is empty or a plausible set. */
  predicate Consistent(l: Loop) {
    && (forall i :: 0 <= i < |l.attempts| ==> l.attempts[i].message.kind.Bright?)
    && (forall i :: 0 < i < |l.attempts| ==> l.attempts[i].at - l.attempts[i - 1].at >= AlertCooldown)
    && (|l.attempts| > 0 ==> l.attempts[|l.attempts| - 1].at == l.monitor.lastAlertTime)
    && Plausible(l.monitor.lastDetected)
    && l.checkCount < StatusEvery
  }

  lemma IterateConsistent(l: Loop, o: Observation)
    requires Consistent(l) && Plausible(o.current)
    ensures Consistent(Iterate(l, o))
  {
    var step := Decide(l.monitor, o);
    AppendAttemptConsistent(l.attempts, l.monitor, step);
    IterateIsCheck(l, o);
  }

  /** An iteration adds nothing beyond its check: the status call is dropped. */
  lemma IterateIsCheck(l: Loop, o: Observation)
    ensures Iterate(l, o).monitor == Decide(l.monitor, o).monitor
    ensures Iterate(l, o).attempts == l.attempts + ToSeq(Decide(l.monitor, o).attempt)
  {
  }

  /** Appending what one check handed to the channel keeps the trace
      well spaced and tied to the alert time. */
  lemma AppendAttemptConsistent(attempts: seq<Attempt>, m: Monitor, step: Step)
    requires forall i :: 0 <= i < |attempts| ==> attempts[i].message.kind.Bright?
    requires forall i :: 0 < i < |attempts| ==> attempts[i].at - attempts[i - 1].at >= AlertCooldown
    requires |attempts| > 0 ==> attempts[|attempts| - 1].at == m.lastAlertTime
    requires step.attempt.Some? ==>
      step.attempt.value.message.kind.Bright? && step.attempt.value.at - m.lastAlertTime >= AlertCooldown
      && step.monitor.lastAlertTime == step.attempt.value.at
    requires step.attempt.None? ==> step.monitor.lastAlertTime == m.lastAlertTime
    ensures var all := attempts + ToSeq(step.attempt);
      && (forall i :: 0 <= i < |all| ==> all[i].message.kind.Bright?)
      && (forall i :: 0 < i < |all| ==> all[i].at - all[i - 1].at >= AlertCooldown)
      && (|all| > 0 ==> all[|all| - 1].at == step.monitor.lastAlertTime)
  {
  }

  lemma {:induction false} RunConsistent(l: Loop, obs: seq<Observation>)
    requires Consistent(l)
    requires forall i :: 0 <= i < |obs| ==> Plausible(obs[i].current)
    ensures Consistent(Run(l, obs))
    decreases |obs|
  {
    if obs != [] {
      IterateConsistent(l, obs[0]);
      RunConsistent(Iterate(l, obs[0]), obs[1..]);
    }
  }

  /** `check_count` after n iterations from a count c below 150 is (c + n) mod 150. */
  lemma {:induction false} RunCountsChecks(l: Loop, polls: seq<Observation>)
    requires l.checkCount < StatusEvery
    ensures Run(l, polls).checkCount == (l.checkCount + |polls|) % StatusEvery
    decreases |polls|
  {
    if polls != [] {
      var next := Iterate(l, polls[0]);
      RunCountsChecks(next, polls[1..]);
      ModStep(l.checkCount, |polls|);
      calc {
        Run(l, polls).checkCount;
        Run(next, polls[1..]).checkCount;
        (next.checkCount + (|polls| - 1)) % StatusEvery;
        ((l.checkCount + 1) % StatusEvery + (|polls| - 1)) % StatusEvery;
        (l.checkCount + |polls|) % StatusEvery;
      }
    }
  }

  lemma ModStep(c: nat, n: nat)
    requires c < StatusEvery && n >= 1
    ensures ((c + 1) % StatusEvery + (n - 1)) % StatusEvery == (c + n) % StatusEvery
  {
  }

  /** The alert time never moves backwards. */
  lemma {:induction false} AlertTimeMonotone(l: Loop, polls: seq<Observation>)
    ensures Run(l, polls).monitor.lastAlertTime >= l.monitor.lastAlertTime
    decreases |polls|
  {
    if polls != [] {
      AlertTimeMonotone(Iterate(l, polls[0]), polls[1..]);
    }
  }

  /** The whole loop: without credentials nothing runs; with them, after any
      number of polls, the status counter is the poll count mod 150, no status
      message has gone out, and successive bright alerts are at least ten
      seconds apart. */
  lemma MonitorLoopBehaviour(token: Option<string>, chatId: Option<string>, startedAt: real,
                             startupDelivery: Delivery, polls: seq<Poll>)
    ensures !IsTruthy(token) || !IsTruthy(chatId) ==>
      MonitorLoop(token, chatId, startedAt, startupDelivery, polls) == MissingCredentials
    ensures IsTruthy(token) && IsTruthy(chatId) ==>
      var r := MonitorLoop(token, chatId, startedAt, startupDelivery, polls);
      && r.Running?
      && r.loop.checkCount == |polls| % StatusEvery
      && Consistent(r.loop)
  {
    var obs := ObserveAll(polls);
    RunCountsChecks(Loop(Fresh, 0, []), obs);
    RunConsistent(Loop(Fresh, 0, []), obs);
  }

  /** A poll whose raw-pattern scan found exactly `hits` and nothing else. */
  function PatternPoll(hits: set<int>, now: real): Poll {
    Poll(Some("<page>"), Some([]), hits, now, Delivered)
  }

  lemma PatternPollDetects(hits: set<int>, now: real)
    requires forall v :: v in hits ==> IsKenoNumber(v)
    requires 1 <= |hits| <= BotDetect.MaxBright && !BotDetect.LooksLikeGrid(hits)
    ensures Observe(PatternPoll(hits, now)) == Observation(true, hits, now, Delivered)
  {
    assert BotDetect.Candidates([], hits) == hits;
  }

  /** As written, two successive alerts may report the same set: {7} at 100 s,
      {8} at 105 s held back by the cooldown but recorded as seen, {7} again
      at 120 s passes the guard and is alerted a second time. */
  lemma SameSetAlertedTwice()
    ensures var polls := [PatternPoll({7}, 100.0), PatternPoll({8}, 105.0), PatternPoll({7}, 120.0)];
      var r := MonitorLoop(Some("token"), Some("chat"), 0.0, Delivered, polls);
      && r.Running?
      && |r.loop.attempts| == 2
      && r.loop.attempts[0].message.numbers == r.loop.attempts[1].message.numbers == {7}
  {
    ObservedPolls();
    RepeatedAlertTrace();
  }

  lemma ObservedPolls()
    ensures ObserveAll([PatternPoll({7}, 100.0), PatternPoll({8}, 105.0), PatternPoll({7}, 120.0)])
      == [Observation(true, {7}, 100.0, Delivered), Observation(true, {8}, 105.0, Delivered),
          Observation(true, {7}, 120.0, Delivered)]
  {
    PatternPollDetects({7}, 100.0);
    PatternPollDetects({8}, 105.0);
    PatternPollDetects({7}, 120.0);
    ObserveThreePatternPolls({7}, {8}, {7}, 100.0, 105.0, 120.0);
  }

  lemma ObserveThreePatternPolls(a: set<int>, b: set<int>, c: set<int>, t1: real, t2: real, t3: real)
    requires Observe(PatternPoll(a, t1)) == Observation(true, a, t1, Delivered)
    requires Observe(PatternPoll(b, t2)) == Observation(true, b, t2, Delivered)
    requires Observe(PatternPoll(c, t3)) == Observation(true, c, t3, Delivered)
    ensures ObserveAll([PatternPoll(a, t1), PatternPoll(b, t2), PatternPoll(c, t3)])
      == [Observation(true, a, t1, Delivered), Observation(true, b, t2, Delivered), Observation(true, c, t3, Delivered)]
  {
  }

  lemma RepeatedAlertTrace()
    ensures var obs := [Observation(true, {7}, 100.0, Delivered), Observation(true, {8}, 105.0, Delivered),
                        Observation(true, {7}, 120.0, Delivered)];
      Run(Loop(Fresh, 0, []), obs).attempts
        == [Attempt(Message(Bright, {7}, Delivered), 100.0), Attempt(Message(Bright, {7}, Delivered), 120.0)]
  {
  }
}

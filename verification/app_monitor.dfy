/** The alert logic of app.py: `send_telegram_alert` (lines 101-125) with its
    empty-set guard, `check_and_alert` (lines 127-143) with its deduplication,
    and `send_status_update` (lines 145-149). */
module AppMonitor {
  import opened Wrappers
  import opened Markup
  import opened Telegram
  import AppDetect

  /** The monitor's one mutable field. */
  datatype Monitor = Monitor(lastDetected: set<int>)

  /** The state the module-level instance starts in. */
  const Fresh: Monitor := Monitor({})

  /** One fetch: its result (`None` for a failed fetch) and the parsed
      elements of the page (`None` when parsing raised). */
  datatype Fetch = Fetch(fetched: Option<string>, elements: Option<seq<Element>>)

  /** What a fetch and detection yield: whether markup arrived and the numbers detected. */
  datatype Observation = Observation(fetched: bool, current: set<int>)

  /** A detection the detector can produce: at most 20 Keno numbers. */
  predicate Plausible(s: set<int>) {
    |s| <= AppDetect.MaxContainerNumbers && forall v :: v in s ==> IsKenoNumber(v)
  }

  /** Fetch and detect (app.py lines 131-133 and 147-148). A failed or empty
      fetch detects nothing. */
  function Observe(f: Fetch): (o: Observation)
    ensures Plausible(o.current)
    ensures !o.fetched ==> o.current == {}
  {
    Observation(IsTruthy(f.fetched), AppDetect.Detect(f.fetched, f.elements))
  }

  /** `send_telegram_alert(numbers, kind)`: the message handed to the channel, if any. */
  function SendAlert(numbers: set<int>, kind: Kind, delivery: Delivery): (r: Option<Message>)
    ensures r.Some? <==> numbers != {}
    ensures r.Some? ==> r.value == Message(kind, numbers, delivery)
  {
    if numbers == {} then None else Some(Message(kind, numbers, delivery))
  }

  /** The monitor after a call, and the message the call handed to the channel, if any. */
  datatype Step = Step(monitor: Monitor, sent: Option<Message>)

  /** The decision of `check_and_alert`: alert on a new non-empty set and
      remember it. There is no cooldown in this version. `delivery` is the
      fate of the message, if one is sent. */
  function Decide(m: Monitor, o: Observation, delivery: Delivery): (r: Step)
    ensures r.sent.Some? <==> o.fetched && o.current != {} && o.current != m.lastDetected
    ensures r.sent.Some? ==> r.sent.value == Message(Bright, o.current, delivery)
    ensures r.monitor == (if r.sent.Some? then Monitor(o.current) else m)
  {
    if o.fetched && o.current != {} && o.current != m.lastDetected then
      Step(Monitor(o.current), SendAlert(o.current, Bright, delivery))
    else
      Step(m, None)
  }

  /** `check_and_alert`: one fetch, detection and possible alert. */
  function CheckAndAlert(m: Monitor, f: Fetch, delivery: Delivery): Step {
    Decide(m, Observe(f), delivery)
  }

  /** `send_status_update`: a status message carrying the current detection,
      dropped when that detection is empty. */
  function StatusUpdate(o: Observation, delivery: Delivery): (r: Option<Message>)
    ensures r.Some? <==> o.current != {}
    ensures r.Some? ==> r.value.kind.Status? && r.value.numbers == o.current
  {
    SendAlert(o.current, Status, delivery)
  }

  /** The two scheduled jobs: the check and the periodic status update. */
  datatype Task = Check | Report

  /** A scheduled job, what its fetch observed and the fate of the message
      it sends, if any. The scheduler's timing is not modelled: the order of
      the jobs is an input. */
  datatype Job = Job(task: Task, observation: Observation, delivery: Delivery)

  /** The monitor and every message handed to the channel so far. */
  datatype Trace = Trace(monitor: Monitor, sent: seq<Message>)

  function Perform(t: Trace, j: Job): Trace {
    match j.task
    case Check =>
      var step := Decide(t.monitor, j.observation, j.delivery);
      Trace(step.monitor, t.sent + ToSeq(step.sent))
    case Report =>
      Trace(t.monitor, t.sent + ToSeq(StatusUpdate(j.observation, j.delivery)))
  }

  /** The jobs run one after another (the scheduler runs pending jobs in turn). */
  function Run(t: Trace, jobs: seq<Job>): Trace
    decreases |jobs|
  {
    if jobs == [] then t else Run(Perform(t, jobs[0]), jobs[1..])
  }

  /** A job as the scheduler runs it: the task, the fetch it makes and the
      fate of its message. */
  datatype Scheduled = Scheduled(task: Task, fetch: Fetch, delivery: Delivery)

  function ObserveAll(jobs: seq<Scheduled>): (r: seq<Job>)
    ensures |r| == |jobs|
    ensures forall i :: 0 <= i < |r| ==> r[i] == Job(jobs[i].task, Observe(jobs[i].fetch), jobs[i].delivery)
    ensures forall i :: 0 <= i < |r| ==> Plausible(r[i].observation.current)
    decreases |jobs|
  {
    if jobs == [] then [] else [Job(jobs[0].task, Observe(jobs[0].fetch), jobs[0].delivery)] + ObserveAll(jobs[1..])
  }

  /** `start_monitor`: the initial status update, then the scheduled jobs.
      The start-up message, sent only when the first detection is non-empty,
      comes first, and everything after it is what the scheduled jobs alone
      would do from the fresh state. */
  function StartMonitor(first: Fetch, firstDelivery: Delivery, jobs: seq<Scheduled>): (r: Trace)
    ensures Deduplicated(r)
    ensures Plausible(r.monitor.lastDetected)
    ensures var o := Observe(first);
      o.current != {} <==> |r.sent| > 0 && r.sent[0] == Message(Status, o.current, firstDelivery)
    ensures r.monitor == Run(Trace(Fresh, []), ObserveAll(jobs)).monitor
    ensures r.sent == ToSeq(StatusUpdate(Observe(first), firstDelivery)) + Run(Trace(Fresh, []), ObserveAll(jobs)).sent
  {
    var opening := ToSeq(StatusUpdate(Observe(first), firstDelivery));
    var start := Trace(Fresh, opening);
    StartDeduplicated(start);
    RunDeduplicated(start, ObserveAll(jobs));
    RunPlausible(start, ObserveAll(jobs));
    RunAfterPrefix(Fresh, opening, [], ObserveAll(jobs));
    assert opening + [] == opening;
    SentNonEmpty(Trace(Fresh, []), ObserveAll(jobs));
    Run(start, ObserveAll(jobs))
  }

  // ---------------------------------------------------------------------
  // Properties

  /** A failed fetch changes nothing and sends nothing, neither as a check nor
      as a status update. */
  lemma FailedFetchChangesNothing(m: Monitor, parsed: Option<seq<Element>>, delivery: Delivery)
    ensures CheckAndAlert(m, Fetch(None, parsed), delivery) == Step(m, None)
    ensures StatusUpdate(Observe(Fetch(None, parsed)), delivery) == None
  {
  }

  /** The check right after one that saw a set sends nothing when it sees
      that same set. Only the last set is remembered, so the set is alerted
      again once another one came in between (`RealertsAfterOtherSet`). */
  lemma SameDetectionSilent(m: Monitor, f1: Fetch, f2: Fetch, d1: Delivery, d2: Delivery)
    requires Observe(f2).current == Observe(f1).current
    ensures CheckAndAlert(CheckAndAlert(m, f1, d1).monitor, f2, d2).sent == None
  {
  }

  /** {7}, then {8}, then {7} again: three alerts, the last one repeating the first. */
  lemma RealertsAfterOtherSet(d: Delivery)
    ensures Run(Trace(Fresh, []), [Job(Check, Observation(true, {7}), d),
                                   Job(Check, Observation(true, {8}), d),
                                   Job(Check, Observation(true, {7}), d)]).sent
         == [Message(Bright, {7}, d), Message(Bright, {8}, d), Message(Bright, {7}, d)]
  {
    var j7 := Job(Check, Observation(true, {7}), d);
    var j8 := Job(Check, Observation(true, {8}), d);
    assert {7} != {8} by { assert 7 in {7}; }
    var t1 := Perform(Trace(Fresh, []), j7);
    assert t1 == Trace(Monitor({7}), [Message(Bright, {7}, d)]);
    var t2 := Perform(t1, j8);
    assert t2 == Trace(Monitor({8}), [Message(Bright, {7}, d), Message(Bright, {8}, d)]);
    var t3 := Perform(t2, j7);
    assert t3.sent == [Message(Bright, {7}, d), Message(Bright, {8}, d), Message(Bright, {7}, d)];
    assert [j7, j8, j7][1..] == [j8, j7];
    assert [j8, j7][1..] == [j7];
    assert Run(t2, [j7]) == Run(t3, []) == t3;
    assert Run(Trace(Fresh, []), [j7, j8, j7]) == Run(t1, [j8, j7]) == Run(t2, [j7]);
  }

  /** The reported sets of the bright alerts in a trace, in order. */
  function Alerts(sent: seq<Message>): seq<set<int>>
    decreases |sent|
  {
    if sent == [] then []
    else
      var last := sent[|sent| - 1];
      Alerts(sent[..|sent| - 1]) + (if last.kind.Bright? then [last.numbers] else [])
  }

  /** Deduplication over a whole run: every alert reports a non-empty set
      different from the alert before it, and the last alert's set is the
      remembered one (the empty set before any alert). */
  predicate Deduplicated(t: Trace) {
    var a := Alerts(t.sent);
    && (forall i :: 0 <= i < |a| ==> a[i] != {})
    && (forall i :: 0 < i < |a| ==> a[i] != a[i - 1])
    && t.monitor.lastDetected == (if |a| == 0 then {} else a[|a| - 1])
  }

  /** Appending one message extends the alerts by its set when it is an alert. */
  lemma AlertsAppend(sent: seq<Message>, msg: Message)
    ensures Alerts(sent + [msg]) == Alerts(sent) + (if msg.kind.Bright? then [msg.numbers] else [])
  {
  }

  lemma PerformDeduplicated(t: Trace, j: Job)
    requires Deduplicated(t)
    ensures Deduplicated(Perform(t, j))
  {
    match j.task
    case Check =>
      var step := Decide(t.monitor, j.observation, j.delivery);
      if step.sent.Some? {
        AlertsAppend(t.sent, step.sent.value);
      } else {
        assert t.sent + ToSeq(step.sent) == t.sent;
      }
    case Report =>
      var msg := StatusUpdate(j.observation, j.delivery);
      if msg.Some? {
        AlertsAppend(t.sent, msg.value);
      } else {
        assert t.sent + ToSeq(msg) == t.sent;
      }
  }

  lemma {:induction false} RunDeduplicated(t: Trace, jobs: seq<Job>)
    requires Deduplicated(t)
    ensures Deduplicated(Run(t, jobs))
    decreases |jobs|
  {
    if jobs != [] {
      PerformDeduplicated(t, jobs[0]);
      RunDeduplicated(Perform(t, jobs[0]), jobs[1..]);
    }
  }

  /** The start-up status message is never an alert, so the run starts deduplicated. */
  lemma StartDeduplicated(start: Trace)
    requires start.monitor == Fresh
    requires forall i :: 0 <= i < |start.sent| ==> start.sent[i].kind.Status?
    requires |start.sent| <= 1
    ensures Deduplicated(start)
  {
  }

  /** Messages already sent are an untouched prefix of every later trace. */
  lemma {:induction false} RunAfterPrefix(m: Monitor, pre: seq<Message>, s: seq<Message>, jobs: seq<Job>)
    ensures var after := Run(Trace(m, s), jobs);
      Run(Trace(m, pre + s), jobs) == Trace(after.monitor, pre + after.sent)
    decreases |jobs|
  {
    if jobs != [] {
      var t := Perform(Trace(m, s), jobs[0]);
      assert Perform(Trace(m, pre + s), jobs[0]) == Trace(t.monitor, pre + t.sent);
      RunAfterPrefix(t.monitor, pre, t.sent, jobs[1..]);
    }
  }

  /** Every message handed to the channel carries a non-empty set. */
  lemma {:induction false} SentNonEmpty(t: Trace, jobs: seq<Job>)
    requires forall i :: 0 <= i < |t.sent| ==> t.sent[i].numbers != {}
    ensures forall i :: 0 <= i < |Run(t, jobs).sent| ==> Run(t, jobs).sent[i].numbers != {}
    decreases |jobs|
  {
    if jobs != [] {
      SentNonEmpty(Perform(t, jobs[0]), jobs[1..]);
    }
  }

  /** The remembered set is always one the detector could produce. */
  lemma {:induction false} RunPlausible(t: Trace, jobs: seq<Job>)
    requires Plausible(t.monitor.lastDetected)
    requires forall i :: 0 <= i < |jobs| ==> Plausible(jobs[i].observation.current)
    ensures Plausible(Run(t, jobs).monitor.lastDetected)
    decreases |jobs|
  {
    if jobs != [] {
      RunPlausible(Perform(t, jobs[0]), jobs[1..]);
    }
  }

  /** Status updates never touch the monitor. */
  lemma {:induction false} ReportsLeaveMonitor(t: Trace, jobs: seq<Job>)
    requires forall i :: 0 <= i < |jobs| ==> jobs[i].task.Report?
    ensures Run(t, jobs).monitor == t.monitor
    decreases |jobs|
  {
    if jobs != [] {
      ReportsLeaveMonitor(Perform(t, jobs[0]), jobs[1..]);
    }
  }
}

/** The runtime budget guard: a pruned list of GPU events stands for the whole history. Times are reals and the clock
    never goes back; a raise is `ok == false`. */
module Budget {

  datatype Option<+T> = None | Some(value: T)

  datatype Policy = Policy(
    wallLimit: real,
    gpuWorkLimit: real,
    continuousLimit: real,
    dutyWindow: real,
    dutyCycleLimit: real,
    candidateCooldown: real,
    requiredBreak: real)

  /** GPU work that ended when it was recorded. */
  datatype Event = Event(start: real, end: real)

  function Max(a: real, b: real): real {
    if a >= b then a else b
  }

  /** The part of an event inside the window that starts at `cutoff`. */
  function Inside(e: Event, cutoff: real): real {
    Max(0.0, e.end - Max(e.start, cutoff))
  }

  function Rolling(events: seq<Event>, cutoff: real): real {
    if events == [] then 0.0 else Rolling(events[..|events| - 1], cutoff) + Inside(events[|events| - 1], cutoff)
  }

  function Since(events: seq<Event>, cutoff: real): (kept: seq<Event>) {
    if events == [] then []
    else
      var n := |events| - 1;
      Since(events[..n], cutoff) + if events[n].end >= cutoff then [events[n]] else []
  }

  function Total(events: seq<Event>): real {
    if events == [] then 0.0
    else Total(events[..|events| - 1]) + (events[|events| - 1].end - events[|events| - 1].start)
  }

  lemma {:induction false} RollingConcat(a: seq<Event>, b: seq<Event>, cutoff: real)
    ensures Rolling(a + b, cutoff) == Rolling(a, cutoff) + Rolling(b, cutoff)
    decreases |b|
  {
    if b == [] {
      assert a + b == a;
    } else {
      RollingConcat(a, b[..|b| - 1], cutoff);
      assert (a + b)[..|a + b| - 1] == a + b[..|b| - 1];
    }
  }

  /** What the window's work is, event by event: of each as much as lies at or after `cutoff`. */
  lemma RollingSums(events: seq<Event>, cutoff: real) returns (sums: seq<real>)
    requires forall i :: 0 <= i < |events| ==> events[i].start <= events[i].end
    ensures |sums| == |events| + 1 && sums[0] == 0.0 && sums[|events|] == Rolling(events, cutoff)
    ensures forall i :: 0 <= i < |events| ==>
              sums[i + 1] - sums[i]
              == if events[i].start >= cutoff then events[i].end - events[i].start
                 else if events[i].end >= cutoff then events[i].end - cutoff
                 else 0.0
  {
    sums := seq(|events| + 1, i requires 0 <= i <= |events| => Rolling(events[..i], cutoff));
    forall i | 0 <= i < |events|
      ensures sums[i + 1] - sums[i] == Inside(events[i], cutoff)
    {
      assert events[..i + 1][..i] == events[..i];
    }
    assert events[..|events|] == events;
  }

  /** All work, event by event. */
  lemma TotalSums(events: seq<Event>) returns (sums: seq<real>)
    ensures |sums| == |events| + 1 && sums[0] == 0.0 && sums[|events|] == Total(events)
    ensures forall i :: 0 <= i < |events| ==> sums[i + 1] - sums[i] == events[i].end - events[i].start
  {
    sums := seq(|events| + 1, i requires 0 <= i <= |events| => Total(events[..i]));
    forall i | 0 <= i < |events|
      ensures sums[i + 1] - sums[i] == events[i].end - events[i].start
    {
      assert events[..i + 1][..i] == events[..i];
    }
    assert events[..|events|] == events;
  }

  lemma {:induction false} TotalConcat(a: seq<Event>, b: seq<Event>)
    ensures Total(a + b) == Total(a) + Total(b)
    decreases |b|
  {
    if b == [] {
      assert a + b == a;
    } else {
      TotalConcat(a, b[..|b| - 1]);
      assert (a + b)[..|a + b| - 1] == a + b[..|b| - 1];
    }
  }

  /** What pruning drops contributes nothing to the window. */
  lemma {:induction false} PrunedIsFull(history: seq<Event>, cutoff: real)
    ensures Rolling(Since(history, cutoff), cutoff) == Rolling(history, cutoff)
  {
    if history != [] {
      var n := |history| - 1;
      PrunedIsFull(history[..n], cutoff);
      RollingConcat(Since(history[..n], cutoff), if history[n].end >= cutoff then [history[n]] else [], cutoff);
      assert Rolling([history[n]], cutoff) == Inside(history[n], cutoff) by {
        assert [history[n]][..0] == [];
      }
    }
  }

  /** Pruning again with a later cutoff is pruning once. */
  lemma {:induction false} PruneAgain(history: seq<Event>, earlier: real, later: real)
    requires earlier <= later
    ensures Since(Since(history, earlier), later) == Since(history, later)
  {
    if history != [] {
      var n := |history| - 1;
      PruneAgain(history[..n], earlier, later);
      SinceConcat(Since(history[..n], earlier), if history[n].end >= earlier then [history[n]] else [], later);
      SinceOne(history[n], later);
    }
  }

  lemma SinceOne(e: Event, cutoff: real)
    ensures Since([e], cutoff) == if e.end >= cutoff then [e] else []
  {
    assert [e][..0] == [];
  }

  lemma {:induction false} SinceConcat(a: seq<Event>, b: seq<Event>, cutoff: real)
    ensures Since(a + b, cutoff) == Since(a, cutoff) + Since(b, cutoff)
    decreases |b|
  {
    if b == [] {
      assert a + b == a;
    } else {
      SinceConcat(a, b[..|b| - 1], cutoff);
      assert (a + b)[..|a + b| - 1] == a + b[..|b| - 1];
    }
  }

  /** A later window sees no more of the same events. */
  lemma {:induction false} RollingFalls(events: seq<Event>, earlier: real, later: real)
    requires earlier <= later
    ensures 0.0 <= Rolling(events, later) <= Rolling(events, earlier)
  {
    if events != [] {
      RollingFalls(events[..|events| - 1], earlier, later);
    }
  }

  /** The guard's record of what it did: the events, and which of them followed an explicit reset. */
  datatype Log = Log(events: seq<Event>, reset: seq<bool>)

  ghost predicate Ordered(events: seq<Event>) {
    && (forall i :: 0 <= i < |events| ==> events[i].start <= events[i].end)
    && (forall i, j :: 0 <= i <= j < |events| ==> events[i].end <= events[j].end)
  }

  /** Event `k` continues the stretch of the event before it. */
  predicate Continues(log: Log, requiredBreak: real, k: nat)
    requires |log.reset| == |log.events| && k < |log.events|
  {
    k > 0 && !log.reset[k] && log.events[k].start - log.events[k - 1].end < requiredBreak
  }

  /** Where the stretch of event `k` began. */
  function StretchStart(log: Log, requiredBreak: real, k: nat): (start: nat)
    requires |log.reset| == |log.events| && k < |log.events|
    ensures start <= k
  {
    if Continues(log, requiredBreak, k) then StretchStart(log, requiredBreak, k - 1) else k
  }

  /** The GPU work that one duty window allows. */
  function DutyLimit(p: Policy): real {
    p.dutyWindow * p.dutyCycleLimit
  }

  /** The duty cycle held in the window that ended with event `k`. */
  ghost predicate DutyChecked(p: Policy, events: seq<Event>, k: nat)
    requires k < |events|
  {
    Rolling(events[..k + 1], events[k].end - p.dutyWindow) <= DutyLimit(p)
  }

  /** Every limit that the guard checked when it recorded event `k`. */
  ghost predicate WithinLimits(p: Policy, log: Log, k: nat)
    requires |log.reset| == |log.events| && k < |log.events|
  {
    && DutyChecked(p, log.events, k)
    && Total(log.events[StretchStart(log, p.requiredBreak, k)..k + 1]) <= p.continuousLimit
    && Total(log.events[..k + 1]) <= p.gpuWorkLimit
  }

  /** What was recorded by instant `t`, inside the window before it. */
  function WorkBy(events: seq<Event>, t: real, window: real): real {
    if events == [] then 0.0
    else
      var n := |events| - 1;
      WorkBy(events[..n], t, window) + if events[n].end <= t then Inside(events[n], t - window) else 0.0
  }

  /** The work by instant `t` is that of the events that ended by then. */
  lemma WorkBySums(events: seq<Event>, t: real, window: real) returns (sums: seq<real>)
    requires forall i :: 0 <= i < |events| ==> events[i].start <= events[i].end
    ensures |sums| == |events| + 1 && sums[0] == 0.0 && sums[|events|] == WorkBy(events, t, window)
    ensures forall i :: 0 <= i < |events| ==>
              sums[i + 1] - sums[i]
              == if events[i].end > t then 0.0
                 else if events[i].start >= t - window then events[i].end - events[i].start
                 else if events[i].end >= t - window then events[i].end - (t - window)
                 else 0.0
  {
    sums := seq(|events| + 1, i requires 0 <= i <= |events| => WorkBy(events[..i], t, window));
    forall i | 0 <= i < |events|
      ensures sums[i + 1] - sums[i] == if events[i].end <= t then Inside(events[i], t - window) else 0.0
    {
      assert events[..i + 1][..i] == events[..i];
    }
    assert events[..|events|] == events;
  }

  lemma {:induction false} WorkByAll(events: seq<Event>, t: real, window: real)
    requires forall i :: 0 <= i < |events| ==> events[i].end <= t
    ensures WorkBy(events, t, window) == Rolling(events, t - window)
  {
    if events != [] {
      WorkByAll(events[..|events| - 1], t, window);
    }
  }

  /** The duty cycle holds at every instant, not only at those where it was checked. */
  lemma {:induction false} DutyCycleAlways(p: Policy, events: seq<Event>, t: real)
    requires DutyLimit(p) >= 0.0 && Ordered(events)
    requires forall k :: 0 <= k < |events| ==> DutyChecked(p, events, k)
    ensures WorkBy(events, t, p.dutyWindow) <= DutyLimit(p)
    decreases |events|
  {
    hide DutyLimit;
    if events != [] {
      var n := |events| - 1;
      if events[n].end <= t {
        assert DutyChecked(p, events, n);
        assert events[..n + 1] == events;
        WorkByAll(events, t, p.dutyWindow);
        RollingFalls(events, events[n].end - p.dutyWindow, t - p.dutyWindow);
      } else {
        forall k | 0 <= k < n
          ensures DutyChecked(p, events[..n], k)
        {
          assert DutyChecked(p, events, k);
          assert events[..n][..k + 1] == events[..k + 1];
        }
        DutyCycleAlways(p, events[..n], t);
      }
    }
  }

  /** Any run of events with no pause and no reset inside it is within the continuous limit. */
  lemma ContinuousStretch(p: Policy, log: Log, i: nat, j: nat)
    requires |log.reset| == |log.events| && Ordered(log.events) && i <= j < |log.events|
    requires forall k :: i < k <= j ==> Continues(log, p.requiredBreak, k)
    requires WithinLimits(p, log, j)
    ensures Total(log.events[i..j + 1]) <= p.continuousLimit
  {
    StretchReaches(p, log, i, j);
    var start := StretchStart(log, p.requiredBreak, j);
    assert log.events[start..j + 1] == log.events[start..i] + log.events[i..j + 1];
    TotalConcat(log.events[start..i], log.events[i..j + 1]);
    TotalNonNegative(log.events[start..i]);
  }

  lemma {:induction false} StretchReaches(p: Policy, log: Log, i: nat, j: nat)
    requires |log.reset| == |log.events| && i <= j < |log.events|
    requires forall k :: i < k <= j ==> Continues(log, p.requiredBreak, k)
    ensures StretchStart(log, p.requiredBreak, j) <= i
    decreases j
  {
    if i < j {
      StretchReaches(p, log, i, j - 1);
    }
  }

  lemma {:induction false} TotalNonNegative(events: seq<Event>)
    requires forall i :: 0 <= i < |events| ==> events[i].start <= events[i].end
    ensures Total(events) >= 0.0
  {
    if events != [] {
      TotalNonNegative(events[..|events| - 1]);
    }
  }

  function Extended(log: Log, event: Event, reset: bool): Log {
    Log(log.events + [event], log.reset + [reset])
  }

  lemma TotalSingle(event: Event)
    ensures Total([event]) == event.end - event.start
  {
    assert [event][..0] == [];
  }

  /** The load since the stretch of the last event began, or nothing after a reset. */
  function Load(p: Policy, log: Log, reset: bool): real
    requires |log.reset| == |log.events|
  {
    if log.events == [] || reset then 0.0
    else Total(log.events[StretchStart(log, p.requiredBreak, |log.events| - 1)..])
  }

  lemma {:induction false} StretchOfPrefix(p: Policy, log: Log, event: Event, reset: bool, k: nat)
    requires |log.reset| == |log.events| && k < |log.events|
    ensures StretchStart(Extended(log, event, reset), p.requiredBreak, k) == StretchStart(log, p.requiredBreak, k)
  {
    if k > 0 {
      StretchOfPrefix(p, log, event, reset, k - 1);
    }
  }

  lemma TotalOne(events: seq<Event>, event: Event)
    ensures Total(events + [event]) == Total(events) + (event.end - event.start)
  {
    assert (events + [event])[..|events|] == events;
  }

  lemma OrderedExtends(events: seq<Event>, event: Event)
    requires Ordered(events) && event.start <= event.end
    requires forall k :: 0 <= k < |events| ==> events[k].end <= event.end
    ensures Ordered(events + [event])
  {
  }

  /** The load after one more event: a pause or a reset before it starts a new stretch. */
  lemma LoadExtends(p: Policy, log: Log, event: Event, reset: bool)
    requires |log.reset| == |log.events|
    ensures Load(p, Extended(log, event, reset), false)
         == (if log.events != [] && event.start - log.events[|log.events| - 1].end >= p.requiredBreak then 0.0
             else Load(p, log, reset)) + (event.end - event.start)
  {
    hide Total;
    var after, n := Extended(log, event, reset), |log.events|;
    if Continues(after, p.requiredBreak, n) {
      StretchOfPrefix(p, log, event, reset, n - 1);
      var start := StretchStart(log, p.requiredBreak, n - 1);
      assert after.events[start..] == log.events[start..] + [event];
      TotalOne(log.events[start..], event);
    } else {
      assert after.events[n..] == [event];
      TotalSingle(event);
    }
  }

  /** An event within its own limits leaves every limit checked. */
  lemma Recorded(p: Policy, log: Log, event: Event, reset: bool)
    requires |log.reset| == |log.events| && forall k :: 0 <= k < |log.events| ==> WithinLimits(p, log, k)
    requires Rolling(log.events + [event], event.end - p.dutyWindow) <= DutyLimit(p)
    requires Load(p, Extended(log, event, reset), false) <= p.continuousLimit
    requires Total(log.events + [event]) <= p.gpuWorkLimit
    ensures forall k :: 0 <= k <= |log.events| ==> WithinLimits(p, Extended(log, event, reset), k)
  {
    hide DutyLimit;
    var after, n := Extended(log, event, reset), |log.events|;
    assert after.events[..n + 1] == log.events + [event];
    forall k | 0 <= k <= n
      ensures WithinLimits(p, after, k)
    {
      if k < n {
        assert WithinLimits(p, log, k);
        assert after.events[..k + 1] == log.events[..k + 1];
        StretchOfPrefix(p, log, event, reset, k);
        var start := StretchStart(log, p.requiredBreak, k);
        assert after.events[start..k + 1] == log.events[start..k + 1];
      } else {
        var start := StretchStart(after, p.requiredBreak, n);
        assert after.events[start..n + 1] == after.events[start..];
      }
    }
  }

  /** The guard. `log` is everything it ever recorded; `clean` tells that no call has raised. */
  class BudgetGuard {
    const policy: Policy
    var now: real
    var started: real
    var lastFinished: Option<real>
    var events: seq<Event>
    var lastEnd: Option<real>
    var continuous: real
    var gpuWork: real
    var maxContinuous: real
    ghost var log: Log
    ghost var clean: bool
    ghost var cutoff: real
    ghost var resetPending: bool

    constructor (policy: Policy, now: real)
      ensures Consistent() && clean && this.policy == policy && log == Log([], []) && !resetPending
    {
      this.policy := policy;
      this.now, started, lastFinished, lastEnd := now, now, None, None;
      events, continuous, gpuWork, maxContinuous := [], 0.0, 0.0, 0.0;
      log, clean, cutoff, resetPending := Log([], []), true, now - policy.dutyWindow, false;
    }

    /** The retained events are the history of the last window, and every limit checked so far holds. */
    ghost predicate Consistent()
      reads this
    {
      && |log.reset| == |log.events| && Ordered(log.events)
      && (forall k :: 0 <= k < |log.events| ==> log.events[k].end <= now)
      && events == Since(log.events, cutoff) && cutoff <= now - policy.dutyWindow
      && (lastEnd.Some? <==> log.events != [])
      && (lastEnd.Some? ==> lastEnd.value == log.events[|log.events| - 1].end)
      && (clean ==>
            && (forall k :: 0 <= k < |log.events| ==> WithinLimits(policy, log, k))
            && gpuWork == Total(log.events)
            && continuous == Load(policy, log, resetPending))
    }

    /** What a guard that never raised guarantees of everything it recorded: at every instant the duty cycle, on every
        stretch the continuous limit, and in all the work limit. */
    lemma Guarantees(t: real, i: nat, j: nat)
      requires Consistent() && clean && DutyLimit(policy) >= 0.0 && i <= j < |log.events|
      ensures WorkBy(log.events, t, policy.dutyWindow) <= DutyLimit(policy)
      ensures (forall k :: i < k <= j ==> Continues(log, policy.requiredBreak, k)) ==>
                Total(log.events[i..j + 1]) <= policy.continuousLimit
      ensures Total(log.events) <= policy.gpuWorkLimit
    {
      forall k | 0 <= k < |log.events|
        ensures DutyChecked(policy, log.events, k)
      {
        assert WithinLimits(policy, log, k);
      }
      DutyCycleAlways(policy, log.events, t);
      assert WithinLimits(policy, log, j) && WithinLimits(policy, log, |log.events| - 1);
      assert log.events[..|log.events| - 1 + 1] == log.events;
      if forall k :: i < k <= j ==> Continues(log, policy.requiredBreak, k) {
        ContinuousStretch(policy, log, i, j);
      }
    }

    /** The clock never goes back. */
    method Clock() returns (t: real)
      modifies this`now
      ensures t == now >= old(now)
    {
      var d: real :| d >= 0.0;
      now := now + d;
      t := now;
    }

    method CheckWall() returns (ok: bool)
      modifies this`now
      ensures now >= old(now) && (ok <==> now - started <= policy.wallLimit)
    {
      var t := Clock();
      ok := t - started <= policy.wallLimit;
    }

    /** `_verified_sleep`: whatever the sleeper does, the clock has to show that the time passed. */
    method VerifiedSleep(seconds: real) returns (ok: bool, elapsed: real)
      modifies this`now
      ensures now >= old(now)
      ensures ok ==> now - old(now) >= seconds - 0.000000001
    {
      var before := Clock();
      var after := Clock();
      elapsed := after - before;
      ok := elapsed + 0.000000001 >= seconds;
    }

    /** `before_candidate`: a candidate may start when the cooldown since the last one is over; that ends the
        stretch. */
    method BeforeCandidate() returns (ok: bool)
      requires Consistent()
      modifies this
      ensures Consistent() && log == old(log) && (clean <==> old(clean) && ok)
      ensures ok ==> resetPending == (old(resetPending) || old(lastFinished).Some?)
      ensures resetPending && !old(resetPending) ==>
                old(lastFinished).Some? && now - old(lastFinished).value >= policy.candidateCooldown - 0.000000001
      ensures ok && old(lastFinished).Some? ==> now - old(lastFinished).value >= policy.candidateCooldown - 0.000000001
    {
      ok := CheckWall();
      if !ok {
        clean := false;
        return;
      }
      if lastFinished == None {
        return;
      }
      var t := Clock();
      var remaining := policy.candidateCooldown - (t - lastFinished.value);
      if remaining > 0.0 {
        var elapsed;
        ok, elapsed := VerifiedSleep(remaining);
        if !ok {
          clean := false;
          return;
        }
      }
      continuous, resetPending := 0.0, true;
      ok := CheckWall();
      clean := clean && ok;
    }

    method FinishCandidate() returns (ok: bool)
      requires Consistent()
      modifies this
      ensures Consistent() && log == old(log) && (clean <==> old(clean) && ok) && lastFinished.Some?
      ensures resetPending == old(resetPending)
    {
      var t := Clock();
      lastFinished := Some(t);
      ok := CheckWall();
      clean := clean && ok;
    }

    /** `required_break`: the break really happens, and ends the stretch. */
    method RequiredBreak() returns (ok: bool)
      requires Consistent()
      modifies this
      ensures Consistent() && log == old(log) && (clean <==> old(clean) && ok)
      ensures ok ==> resetPending
      ensures resetPending && !old(resetPending) ==> now - old(now) >= policy.requiredBreak - 0.000000001
    {
      var elapsed;
      ok, elapsed := VerifiedSleep(policy.requiredBreak);
      if !ok {
        clean := false;
        return;
      }
      continuous, resetPending := 0.0, true;
      ok := CheckWall();
      clean := clean && ok;
    }

    /** The continuous load after `seconds` of work that end at `t`. */
    function LoadAfter(seconds: real, t: real): real
      reads this`lastEnd, this`continuous
    {
      (if lastEnd.Some? && t - seconds - lastEnd.value >= policy.requiredBreak then 0.0 else continuous) + seconds
    }

    /** Work that may be charged: by itself, on top of the stretch, and on top of all work so far. */
    ghost predicate Charges(seconds: real, t: real)
      reads this`lastEnd, this`continuous, this`gpuWork
    {
      && 0.0 <= seconds <= policy.continuousLimit
      && LoadAfter(seconds, t) <= policy.continuousLimit && gpuWork + seconds <= policy.gpuWorkLimit
    }

    /** The work in the window that ends at `t`, with this work. */
    ghost function Window(seconds: real, t: real): real
      reads this`log
    {
      Rolling(log.events + [Event(t - seconds, t)], t - policy.dutyWindow)
    }

    /** `record_gpu` of work that ended at the clock's `t`. It is recorded exactly if it may be charged, and accepted
        exactly if besides the duty cycle holds and there is wall time left. The sum over the pruned list is the sum
        over the whole history, so a duty cycle that holds here holds of everything. */
    method RecordGpu(seconds: real) returns (ok: bool, ghost t: real)
      requires Consistent()
      modifies this
      ensures Consistent() && (clean <==> old(clean) && ok)
      ensures old(now) <= t <= now && started == old(started)
      ensures ok <==> && old(Charges(seconds, t)) && old(Window(seconds, t)) <= DutyLimit(policy)
                      && now - started <= policy.wallLimit
      ensures log == if old(Charges(seconds, t)) then Extended(old(log), Event(t - seconds, t), old(resetPending))
              else old(log)
      ensures resetPending <==> old(resetPending) && !old(Charges(seconds, t))
    {
      hide WithinLimits;
      hide Load;
      hide DutyLimit;
      hide Rolling;
      hide Total;
      hide StretchStart;
      hide Ordered;
      hide Since;
      ok, t := false, now;
      if seconds < 0.0 || seconds > policy.continuousLimit {
        clean := false;
        return;
      }
      var end := Clock();
      t := end;
      var event := Event(end - seconds, end);
      LoadExtends(policy, log, event, resetPending);
      TotalOne(log.events, event);
      ok := Charge(event);
      if !ok {
        clean := false;
        return;
      }
      ghost var before, reset := log, resetPending;
      ok := Keep(event);
      if clean && ok {
        Recorded(policy, before, event, reset);
      }
      var inTime := false;
      if ok {
        inTime := CheckWall();
      }
      ok := ok && inTime;
      clean := clean && ok;
    }

    /** The continuous and the total budget. */
    method Charge(event: Event) returns (ok: bool)
      modifies this`continuous, this`gpuWork, this`maxContinuous
      ensures continuous == (if lastEnd.Some? && event.start - lastEnd.value >= policy.requiredBreak then 0.0
                             else old(continuous))
                            + (event.end - event.start)
      ensures ok <==> continuous <= policy.continuousLimit
                      && old(gpuWork) + (event.end - event.start) <= policy.gpuWorkLimit
      ensures ok ==> gpuWork == old(gpuWork) + (event.end - event.start)
    {
      if lastEnd.Some? && event.start - lastEnd.value >= policy.requiredBreak {
        continuous := 0.0;
      }
      continuous := continuous + (event.end - event.start);
      if continuous > policy.continuousLimit {
        return false;
      }
      gpuWork := gpuWork + (event.end - event.start);
      maxContinuous := Max(maxContinuous, continuous);
      ok := gpuWork <= policy.gpuWorkLimit;
    }

    /** The event joins the list, the list is pruned, and the duty cycle is checked on what is left of it. */
    method Keep(event: Event) returns (ok: bool)
      requires events == Since(log.events, cutoff) && cutoff <= event.end - policy.dutyWindow
      requires Ordered(log.events) && event.start <= event.end && |log.reset| == |log.events|
      requires forall k :: 0 <= k < |log.events| ==> log.events[k].end <= event.end
      modifies this`events, this`lastEnd, this`log, this`cutoff, this`resetPending
      ensures log == Extended(old(log), event, old(resetPending)) && !resetPending
      ensures Ordered(log.events) && lastEnd == Some(event.end)
      ensures cutoff == event.end - policy.dutyWindow && events == Since(log.events, cutoff)
      ensures ok <==> Rolling(log.events, cutoff) <= DutyLimit(policy)
    {
      hide DutyLimit;
      hide Rolling;
      hide Since;
      hide Ordered;
      var start := event.end - policy.dutyWindow;
      ghost var history := log.events;
      OrderedExtends(history, event);
      PruneAgain(history, cutoff, start);
      SinceConcat(events, [event], start);
      SinceConcat(history, [event], start);
      log := Extended(log, event, resetPending);
      resetPending, cutoff, lastEnd := false, start, Some(event.end);
      events := Prune(events + [event], start);
      PrunedIsFull(log.events, start);
      var sum := RollingSum(events, start);
      ok := sum <= DutyLimit(policy);
    }

    method Prune(all: seq<Event>, cutoff: real) returns (kept: seq<Event>)
      ensures kept == Since(all, cutoff)
    {
      kept := [];
      for i := 0 to |all|
        invariant kept == Since(all[..i], cutoff)
      {
        assert all[..i + 1][..i] == all[..i];
        if all[i].end >= cutoff {
          kept := kept + [all[i]];
        }
      }
      assert all[..|all|] == all;
    }

    method RollingSum(all: seq<Event>, cutoff: real) returns (sum: real)
      ensures sum == Rolling(all, cutoff)
    {
      sum := 0.0;
      for i := 0 to |all|
        invariant sum == Rolling(all[..i], cutoff)
      {
        assert all[..i + 1][..i] == all[..i];
        sum := sum + Inside(all[i], cutoff);
      }
      assert all[..|all|] == all;
    }
  }
}

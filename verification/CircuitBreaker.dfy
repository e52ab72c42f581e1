/** A circuit breaker shared by concurrent calls. The lock covers admission and completion but
    not the call between them, so a completion can arrive in any state; the breaker is
    specified over the history of admissions and completions. */
module CircuitBreaker {
  datatype Event =
    | Admitted(call: int, at: int)
    | Refused(at: int)
    | Failed(call: int, at: int)
    | Succeeded(call: int)
  {
    predicate Completion() { Failed? || Succeeded? }
  }

  datatype Config = Config(threshold: int, timeout: int)
  {
    function Limit(): nat { if threshold < 1 then 1 else threshold }
  }

  datatype Mode = Closed | Open | HalfOpen

  // ---------------------------------------------------------------- the history

  /** The number of failures since the last success. */
  function Trailing(log: seq<Event>): nat {
    if log == [] then 0
    else
      var front, last := log[..|log| - 1], log[|log| - 1];
      if last.Failed? then Trailing(front) + 1 else if last.Succeeded? then 0 else Trailing(front)
  }

  predicate Tripped(cfg: Config, log: seq<Event>) { Trailing(log) >= cfg.Limit() }

  /** Whether a call was admitted since the last completion. */
  predicate AdmittedSince(log: seq<Event>) {
    log != [] &&
    var front, last := log[..|log| - 1], log[|log| - 1];
    last.Admitted? || (last.Refused? && AdmittedSince(front))
  }

  function LastFailure(log: seq<Event>): int {
    if log == [] then 0
    else if log[|log| - 1].Failed? then log[|log| - 1].at
    else LastFailure(log[..|log| - 1])
  }

  predicate IsHalfOpen(cfg: Config, log: seq<Event>) { Tripped(cfg, log) && AdmittedSince(log) }

  /** The mode as the history determines it. */
  function ModeOf(cfg: Config, log: seq<Event>): Mode {
    if !Tripped(cfg, log) then Closed else if AdmittedSince(log) then HalfOpen else Open
  }

  predicate Admits(cfg: Config, log: seq<Event>, now: int) {
    !Tripped(cfg, log) || (!AdmittedSince(log) && now - LastFailure(log) > cfg.timeout)
  }

  /** Every call was admitted or refused as the history before it says. */
  predicate Legal(cfg: Config, log: seq<Event>) {
    log == [] ||
    var front, last := log[..|log| - 1], log[|log| - 1];
    && Legal(cfg, front)
    && (last.Admitted? ==> Admits(cfg, front, last.at))
    && (last.Refused? ==> !Admits(cfg, front, last.at))
  }

  /** A critical section of some call. */
  datatype Op = Ask(call: int, at: int) | Fail(call: int, at: int) | Succeed(call: int)

  /** The history after some critical sections. */
  function After(cfg: Config, log: seq<Event>, ops: seq<Op>): seq<Event>
    decreases |ops|
  {
    if ops == [] then log
    else
      var e := match ops[0]
        case Ask(call, at) => if Admits(cfg, log, at) then Admitted(call, at) else Refused(at)
        case Fail(call, at) => Failed(call, at)
        case Succeed(call) => Succeeded(call);
      After(cfg, log + [e], ops[1..])
  }

  // ---------------------------------------------------------------- in terms of the settings

  function Failures(log: seq<Event>): nat {
    if log == [] then 0 else Failures(log[..|log| - 1]) + if log[|log| - 1].Failed? then 1 else 0
  }

  predicate NoSuccess(log: seq<Event>) {
    forall i :: 0 <= i < |log| ==> !log[i].Succeeded?
  }

  /** The history ends in a stretch with no success and at least n failures. */
  ghost predicate Streak(log: seq<Event>, n: int) {
    exists cut :: 0 <= cut <= |log| && NoSuccess(log[cut..]) && Failures(log[cut..]) >= n
  }

  /** The failures in a row that open the breaker: the threshold, or one if it is less. */
  ghost predicate FailedOften(threshold: int, log: seq<Event>) {
    Streak(log, if threshold < 1 then 1 else threshold)
  }

  predicate LastCompletion(log: seq<Event>, k: int)
    requires 0 <= k < |log|
  {
    forall j :: k < j < |log| ==> !log[j].Failed? && !log[j].Succeeded?
  }

  /** A call has been admitted since the last completion. */
  ghost predicate OnTrial(log: seq<Event>) {
    exists i :: 0 <= i < |log| && log[i].Admitted? && LastCompletion(log, i)
  }

  /** The last completion was a failure no longer ago than the timeout. */
  ghost predicate FailedLately(timeout: int, log: seq<Event>, now: int) {
    exists k :: 0 <= k < |log| && log[k].Failed? && LastCompletion(log, k) && now - log[k].at <= timeout
  }

  /** When a call is turned away. */
  ghost predicate TurnsAway(threshold: int, timeout: int, log: seq<Event>, now: int) {
    FailedOften(threshold, log) && (OnTrial(log) || FailedLately(timeout, log, now))
  }

  lemma {:induction false} OnTrialIff(log: seq<Event>)
    ensures AdmittedSince(log) <==> OnTrial(log)
  {
    if log != [] {
      var front, last := log[..|log| - 1], log[|log| - 1];
      OnTrialIff(front);
      if last.Refused? {
        if i :| 0 <= i < |front| && front[i].Admitted? && LastCompletion(front, i) {
          assert log[i].Admitted? && LastCompletion(log, i);
        }
        if i :| 0 <= i < |log| && log[i].Admitted? && LastCompletion(log, i) {
          assert front[i].Admitted? && LastCompletion(front, i);
        }
      } else if last.Admitted? {
        assert LastCompletion(log, |log| - 1);
      }
    }
  }

  /** The mode, by the settings and the history alone. */
  lemma ModeMeans(threshold: int, timeout: int, log: seq<Event>)
    ensures var mode := ModeOf(Config(threshold, timeout), log);
      && (mode.Closed? <==> !FailedOften(threshold, log))
      && (mode.HalfOpen? <==> FailedOften(threshold, log) && OnTrial(log))
  {
    TrailingMeans(log, if threshold < 1 then 1 else threshold);
    OnTrialIff(log);
  }

  /** What a failure makes of the history: nobody is on trial after it. */
  lemma {:induction false} AfterFailure(threshold: int, timeout: int, log: seq<Event>, call: int, at: int)
    ensures var cfg, next := Config(threshold, timeout), log + [Failed(call, at)];
      && (Legal(cfg, log) ==> Legal(cfg, next))
      && Trailing(next) == Trailing(log) + 1 && LastFailure(next) == at
      && ModeOf(cfg, next) == (if FailedOften(threshold, next) then Open else Closed)
      && (ModeOf(cfg, next).Open? <==> ModeOf(cfg, log) == HalfOpen || Trailing(log) + 1 >= threshold
                                       || (ModeOf(cfg, log) == Open))
  {
    var next := log + [Failed(call, at)];
    Append(log, Failed(call, at));
    assert !AdmittedSince(next);
    ModeMeans(threshold, timeout, next);
    OnTrialIff(next);
  }

  /** And so when a call is refused. */
  lemma RefusedMeans(threshold: int, timeout: int, log: seq<Event>, now: int)
    ensures Admits(Config(threshold, timeout), log, now) <==> !TurnsAway(threshold, timeout, log, now)
  {
    var cfg := Config(threshold, timeout);
    ModeMeans(threshold, timeout, log);
    OnTrialIff(log);
    if Tripped(cfg, log) {
      var k := LastFailureAt(cfg, log);
      forall j | 0 <= j < |log| && log[j].Failed? && LastCompletion(log, j) ensures j == k {
      }
      assert LastCompletion(log, k);
    }
  }

  /** What Execute returns: nil, the error of its function, or ErrCircuitOpen. */
  datatype Outcome = Nil | Error | CircuitOpen

  // ---------------------------------------------------------------- the breaker

  /** Each method is one critical section, so any sequence of calls of them is an interleaving
      of concurrent Executes. The clock is a parameter, and so is the identity of a call. */
  class Breaker {
    const threshold: int
    const timeout: int
    var state: Mode
    var failures: int
    var lastFailure: int
    var trialInFlight: bool
    ghost var log: seq<Event>

    ghost function Cfg(): Config { Config(threshold, timeout) }

    /** The four fields are functions of the history. */
    ghost predicate Valid()
      reads this
    {
      && Legal(Cfg(), log)
      && state == ModeOf(Cfg(), log)
      && failures == Trailing(log)
      && lastFailure == LastFailure(log)
      && trialInFlight == state.HalfOpen?
    }

    constructor (threshold: int, timeout: int)
      ensures Valid() && log == [] && this.threshold == threshold && this.timeout == timeout
    {
      this.threshold, this.timeout := threshold, timeout;
      state, failures, lastFailure, trialInFlight := Closed, 0, 0, false;
      log := [];
    }

    method CurrentState() returns (s: Mode)
      requires Valid()
      ensures s == ModeOf(Cfg(), log)
      ensures s.Closed? <==> !FailedOften(threshold, log)
      ensures s.HalfOpen? <==> FailedOften(threshold, log) && OnTrial(log)
    {
      ModeMeans(threshold, timeout, log);
      s := state;
    }

    /** In HalfOpen the trial is always in flight, so the branch that would admit another
        call there is never taken. */
    method Allow(now: int, ghost call: int) returns (ok: bool)
      requires Valid()
      modifies this
      ensures Valid() && ok == Admits(Cfg(), old(log), now)
      ensures ok <==> !TurnsAway(threshold, timeout, old(log), now)
      ensures log == old(log) + [if ok then Admitted(call, now) else Refused(now)]
    {
      RefusedMeans(threshold, timeout, log, now);
      match state {
        case Closed => ok := true;
        case Open =>
          if now - lastFailure > timeout {
            state := HalfOpen;
            trialInFlight := true;
            ok := true;
          } else {
            ok := false;
          }
        case HalfOpen =>
          if !trialInFlight {
            assert false;
          }
          ok := false;
      }
      Append(log, if ok then Admitted(call, now) else Refused(now));
      log := log + [if ok then Admitted(call, now) else Refused(now)];
    }

    method RecordFailure(now: int, ghost call: int)
      requires Valid()
      modifies this
      ensures Valid() && log == old(log) + [Failed(call, now)]
      ensures state == if FailedOften(threshold, log) then Open else Closed
    {
      AfterFailure(threshold, timeout, log, call, now);
      failures := failures + 1;
      lastFailure := now;
      trialInFlight := false;
      if state == HalfOpen || failures >= threshold {
        state := Open;
      }
      log := log + [Failed(call, now)];
    }

    method RecordSuccess(ghost call: int)
      requires Valid()
      modifies this
      ensures Valid() && log == old(log) + [Succeeded(call)] && state == Closed
    {
      failures := 0;
      trialInFlight := false;
      state := Closed;
      Append(log, Succeeded(call));
      log := log + [Succeeded(call)];
    }

    /** The critical sections that other calls enter while one call runs. */
    method Interleave(others: seq<Op>)
      requires Valid()
      modifies this
      ensures Valid() && log == After(Cfg(), old(log), others)
    {
      for i := 0 to |others|
        invariant Valid() && After(Cfg(), log, others[i..]) == After(Cfg(), old(log), others)
      {
        assert others[i..][0] == others[i] && others[i..][1..] == others[i + 1..];
        match others[i] {
          case Ask(call, at) => var _ := Allow(at, call);
          case Fail(call, at) => RecordFailure(at, call);
          case Succeed(call) => RecordSuccess(call);
        }
      }
    }

    /** A call admitted at one time, whose function returns at a later one after any number of
        other calls have begun or ended. */
    method Execute(call: int, now: int, others: seq<Op>, fails: bool, later: int) returns (r: Outcome)
      requires Valid()
      modifies this
      ensures Valid() && (r.CircuitOpen? <==> TurnsAway(threshold, timeout, old(log), now))
      ensures r.CircuitOpen? ==> log == old(log) + [Refused(now)]
      ensures !r.CircuitOpen? ==> r == (if fails then Error else Nil)
      ensures !r.CircuitOpen? ==>
          log == After(Cfg(), old(log) + [Admitted(call, now)], others)
              + [if fails then Failed(call, later) else Succeeded(call)]
    {
      var ok := Allow(now, call);
      if !ok {
        return CircuitOpen;
      }
      Interleave(others);
      if fails {
        RecordFailure(later, call);
        return Error;
      }
      RecordSuccess(call);
      r := Nil;
    }
  }

  lemma Append(log: seq<Event>, e: Event)
    ensures var next := log + [e]; next[..|next| - 1] == log && next[|next| - 1] == e
  {
  }

  // ---------------------------------------------------------------- what the history says

  /** The breaker is tripped exactly when some final stretch of the history has no success and
      at least as many failures as the threshold. */
  lemma {:induction false} TrailingMeans(log: seq<Event>, n: nat)
    ensures Trailing(log) >= n <==> Streak(log, n)
  {
    var cut := Stretch(log);
    forall c | 0 <= c <= |log| && NoSuccess(log[c..]) ensures Failures(log[c..]) <= Trailing(log) {
      StretchBound(log, c);
    }
  }

  lemma {:induction false} Stretch(log: seq<Event>) returns (cut: nat)
    ensures cut <= |log| && NoSuccess(log[cut..]) && Failures(log[cut..]) == Trailing(log)
  {
    if log == [] || log[|log| - 1].Succeeded? {
      cut := |log|;
    } else {
      cut := Stretch(log[..|log| - 1]);
      assert log[cut..][..|log| - cut - 1] == log[..|log| - 1][cut..];
      assert log[cut..] == log[..|log| - 1][cut..] + [log[|log| - 1]];
    }
  }

  lemma {:induction false} StretchBound(log: seq<Event>, c: nat)
    requires c <= |log| && NoSuccess(log[c..])
    ensures Failures(log[c..]) <= Trailing(log)
  {
    if c < |log| {
      assert log[c..][..|log| - c - 1] == log[..|log| - 1][c..];
      assert !log[c..][|log| - c - 1].Succeeded?;
      var shorter := log[..|log| - 1][c..];
      forall i | 0 <= i < |shorter| ensures !shorter[i].Succeeded? {
        assert shorter[i] == log[c..][i];
      }
      StretchBound(log[..|log| - 1], c);
    }
  }

  lemma {:induction false} LegalAt(cfg: Config, log: seq<Event>, i: nat)
    requires Legal(cfg, log) && i < |log|
    ensures Legal(cfg, log[..i])
    ensures log[i].Admitted? ==> Admits(cfg, log[..i], log[i].at)
    ensures log[i].Refused? ==> !Admits(cfg, log[..i], log[i].at)
  {
    if i < |log| - 1 {
      LegalAt(cfg, log[..|log| - 1], i);
      assert log[..|log| - 1][..i] == log[..i];
    }
  }

  lemma {:induction false} StillAdmitted(log: seq<Event>, i: nat, j: nat)
    requires i < j <= |log| && log[i].Admitted?
    requires forall k :: i < k < j ==> !log[k].Completion()
    ensures AdmittedSince(log[..j])
    decreases j
  {
    assert log[..j][..j - 1] == log[..j - 1];
    if i < j - 1 {
      StillAdmitted(log, i, j - 1);
    }
  }

  lemma {:induction false} LastFailureAt(cfg: Config, log: seq<Event>) returns (k: nat)
    requires Trailing(log) > 0
    ensures k < |log| && log[k].Failed? && log[k].at == LastFailure(log)
    ensures forall j :: k < j < |log| ==> !log[j].Completion()
  {
    var n := |log| - 1;
    if log[n].Failed? {
      k := n;
    } else {
      k := LastFailureAt(cfg, log[..n]);
    }
  }

  /** While the breaker is tripped, an admission comes more than the timeout after the last
      completion, a failure, and it is the first since that completion. */
  lemma TrialsAreSpaced(cfg: Config, log: seq<Event>, j: nat) returns (k: nat)
    requires Legal(cfg, log) && j < |log| && log[j].Admitted? && Tripped(cfg, log[..j])
    ensures k < j && log[k].Failed? && log[j].at - log[k].at > cfg.timeout
    ensures forall i :: k < i < j ==> log[i].Refused?
  {
    LegalAt(cfg, log, j);
    k := LastFailureAt(cfg, log[..j]);
    forall i | k < i < j ensures log[i].Refused? {
      assert !log[..j][i].Completion();
      if log[i].Admitted? {
        forall n | i < n < j ensures !log[n].Completion() { assert !log[..j][n].Completion(); }
        StillAdmitted(log, i, j);
      }
    }
    assert log[..j][k] == log[k];
  }

  // ---------------------------------------------------------------- trials in flight

  /** The calls admitted while tripped that have not completed. */
  function Trials(cfg: Config, log: seq<Event>): set<int> {
    if log == [] then {}
    else
      var front, last := log[..|log| - 1], log[|log| - 1];
      match last
      case Admitted(call, _) => Trials(cfg, front) + (if Tripped(cfg, front) then {call} else {})
      case Refused(_) => Trials(cfg, front)
      case Failed(call, _) => Trials(cfg, front) - {call}
      case Succeeded(call) => Trials(cfg, front) - {call}
  }

  /** The call admitted last. */
  function Latest(log: seq<Event>): int {
    if log == [] then 0
    else if log[|log| - 1].Admitted? then log[|log| - 1].call
    else Latest(log[..|log| - 1])
  }

  /** From some point of the history on, no call but the one admitted last completes while a
      trial is in flight. */
  predicate PromptSince(cfg: Config, log: seq<Event>, n: nat) {
    |log| <= n ||
    var front, last := log[..|log| - 1], log[|log| - 1];
    && PromptSince(cfg, front, n)
    && (last.Completion() && IsHalfOpen(cfg, front) ==> last.call == Latest(front))
  }

  predicate Prompt(cfg: Config, log: seq<Event>) { PromptSince(cfg, log, 0) }

  lemma {:induction false} PromptParts(cfg: Config, log: seq<Event>, n: nat)
    requires n <= |log| && Prompt(cfg, log[..n]) && PromptSince(cfg, log, n)
    ensures Prompt(cfg, log)
  {
    if |log| == n {
      assert log[..n] == log;
    } else {
      assert log[..|log| - 1][..n] == log[..n];
      PromptParts(cfg, log[..|log| - 1], n);
    }
  }

  /** Half-open means one trial in flight, as long as no late completion interferes. */
  lemma {:induction false} SingleTrial(cfg: Config, log: seq<Event>)
    requires Legal(cfg, log) && Prompt(cfg, log)
    ensures Trials(cfg, log) == if IsHalfOpen(cfg, log) then {Latest(log)} else {}
  {
    if log != [] {
      SingleTrial(cfg, log[..|log| - 1]);
    }
  }

  /** A failure in the half-open state is followed, after the timeout, by a second trial beside
      the first if and only if it is another call's failure. */
  lemma {:induction false} SecondTrialIff(cfg: Config, log: seq<Event>, call: int, at: int, next: int, now: int)
    requires Legal(cfg, log) && Prompt(cfg, log) && IsHalfOpen(cfg, log)
    requires now - at > cfg.timeout && next != Latest(log)
    ensures var after := log + [Failed(call, at), Admitted(next, now)];
      && Legal(cfg, after)
      && Trials(cfg, after) == (if call == Latest(log) then {next} else {Latest(log), next})
  {
    var failed := log + [Failed(call, at)];
    var after := failed + [Admitted(next, now)];
    assert after == log + [Failed(call, at), Admitted(next, now)];
    Append(log, Failed(call, at));
    Append(failed, Admitted(next, now));
    SingleTrial(cfg, log);
    assert Legal(cfg, failed) && !AdmittedSince(failed) && LastFailure(failed) == at;
    assert Admits(cfg, failed, now);
  }

  /** A run of the breaker that has two trials in flight: call 1 is slow, call 2 trips the
      breaker, call 3 is the trial, and call 1's late failure makes room for call 4. */
  lemma TwoTrialsInFlight(cfg: Config) returns (log: seq<Event>)
    requires cfg == Config(1, 10)
    ensures Legal(cfg, log) && Trials(cfg, log) == {3, 4}
  {
    var l1 := [Admitted(1, 0)];
    var l2 := l1 + [Admitted(2, 1)];
    var l3 := l2 + [Failed(2, 2)];
    var l4 := l3 + [Admitted(3, 13)];
    Append([], Admitted(1, 0));
    Append(l1, Admitted(2, 1));
    Append(l2, Failed(2, 2));
    Append(l3, Admitted(3, 13));
    assert l1 == [] + [Admitted(1, 0)];
    assert Legal(cfg, l1) && Prompt(cfg, l1) && Trailing(l1) == 0;
    assert Legal(cfg, l2) && Prompt(cfg, l2) && Trailing(l2) == 0;
    assert Legal(cfg, l3) && Prompt(cfg, l3) && Trailing(l3) == 1;
    SecondTrialIff(cfg, l4, 1, 14, 4, 25);
    log := l4 + [Failed(1, 14), Admitted(4, 25)];
  }

  // ---------------------------------------------------------------- one trial at a time

  function InFlight(log: seq<Event>): set<int> {
    if log == [] then {}
    else
      var front, last := InFlight(log[..|log| - 1]), log[|log| - 1];
      match last
      case Admitted(call, _) => front + {call}
      case Refused(_) => front
      case Failed(call, _) => front - {call}
      case Succeeded(call) => front - {call}
  }

  /** The last time read, on a clock that starts at 0. */
  function Clock(log: seq<Event>): int {
    if log == [] then 0
    else if log[|log| - 1].Succeeded? then Clock(log[..|log| - 1])
    else log[|log| - 1].at
  }

  /** Only calls in flight complete, calls in flight have different names, and the clock does
      not go back. */
  predicate Genuine(log: seq<Event>) {
    log == [] ||
    var front, last := log[..|log| - 1], log[|log| - 1];
    && Genuine(front)
    && (!last.Succeeded? ==> last.at >= Clock(front))
    && (last.Admitted? ==> last.call !in InFlight(front))
    && (last.Completion() ==> last.call in InFlight(front))
  }

  lemma {:induction false} TrialsInFlight(cfg: Config, log: seq<Event>)
    ensures Trials(cfg, log) <= InFlight(log)
  {
    if log != [] {
      TrialsInFlight(cfg, log[..|log| - 1]);
    }
  }

  /** How a history may go on, with late completions ruled out from now on. */
  predicate Continues(cfg: Config, log: seq<Event>, ext: seq<Event>) {
    Legal(cfg, log + ext) && Genuine(log + ext) && PromptSince(cfg, log + ext, |log|)
  }

  ghost predicate OneTrialAtATime(cfg: Config, log: seq<Event>) {
    forall ext :: Continues(cfg, log, ext) ==> |Trials(cfg, log + ext)| <= 1
  }

  /** A half-open breaker stays at one trial at a time after a completion, in every
      continuation without another late completion, if and only if the completion, be it a
      failure or a success, is that of the call admitted last. */
  lemma {:induction false} OneTrialIff(cfg: Config, log: seq<Event>, e: Event)
    requires Legal(cfg, log) && Prompt(cfg, log) && IsHalfOpen(cfg, log)
    requires Genuine(log + [e]) && e.Completion()
    ensures OneTrialAtATime(cfg, log + [e]) <==> e.call == Latest(log)
  {
    Append(log, e);
    if e.call == Latest(log) {
      forall ext | Continues(cfg, log + [e], ext) ensures |Trials(cfg, log + [e] + ext)| <= 1 {
        var all := log + [e] + ext;
        assert all[..|log + [e]|] == log + [e];
        PromptParts(cfg, all, |log + [e]|);
        SingleTrial(cfg, all);
      }
    } else {
      var ext, x := LateCompletion(cfg, log, e);
      assert |{Latest(log), x}| == 2;
    }
  }

  /** After a late completion there is a continuation with two trials in flight. A failure
      reopens the breaker at once; after a success as many new failures as the threshold do. */
  lemma LateCompletion(cfg: Config, log: seq<Event>, e: Event) returns (ext: seq<Event>, x: int)
    requires Legal(cfg, log) && Prompt(cfg, log) && IsHalfOpen(cfg, log)
    requires Genuine(log + [e]) && e.Completion() && e.call != Latest(log)
    ensures Continues(cfg, log + [e], ext)
    ensures x != Latest(log) && Trials(cfg, log + [e] + ext) == {Latest(log), x}
  {
    var base := log + [e];
    Append(log, e);
    SingleTrial(cfg, log);
    TrialsInFlight(cfg, base);
    x := Unused(InFlight(base));
    if e.Failed? {
      ext := [];
      assert base + ext == base;
    } else {
      ext := Failing(x, Clock(base), cfg.Limit());
      Reopens(cfg, base, x, Clock(base), cfg.Limit());
    }
    ext := NextTrial(cfg, base, ext, x);
  }

  /** An open breaker admits a new trial once the timeout has passed. */
  lemma NextTrial(cfg: Config, base: seq<Event>, ext: seq<Event>, x: int) returns (longer: seq<Event>)
    requires Continues(cfg, base, ext) && ModeOf(cfg, base + ext).Open? && x !in InFlight(base + ext)
    ensures Continues(cfg, base, longer) && Trials(cfg, base + longer) == Trials(cfg, base + ext) + {x}
  {
    var log := base + ext;
    var wait := if cfg.timeout < 0 then 0 else cfg.timeout;
    var last := if LastFailure(log) < Clock(log) then Clock(log) else LastFailure(log);
    var e := Admitted(x, last + wait + 1);
    longer := ext + [e];
    assert base + longer == log + [e];
    Append(log, e);
  }

  /** Calls that fail as soon as they are admitted, all of one name. */
  function Failing(x: int, at: int, k: nat): seq<Event> {
    if k == 0 then [] else Failing(x, at, k - 1) + [Admitted(x, at), Failed(x, at)]
  }

  /** A call that a closed breaker admits. */
  lemma {:induction false} AdmitsClosed(cfg: Config, log: seq<Event>, x: int, at: int, n: nat)
    requires Legal(cfg, log) && Genuine(log) && PromptSince(cfg, log, n) && !Tripped(cfg, log)
    requires x !in InFlight(log) && at == Clock(log)
    ensures var after := log + [Admitted(x, at)];
      && Legal(cfg, after) && Genuine(after) && PromptSince(cfg, after, n)
      && Trailing(after) == Trailing(log) && Clock(after) == at
      && InFlight(after) == InFlight(log) + {x} && Trials(cfg, after) == Trials(cfg, log)
  {
    Append(log, Admitted(x, at));
  }

  /** A call that fails while the breaker is closed. */
  lemma {:induction false} FailsClosed(cfg: Config, log: seq<Event>, x: int, at: int, n: nat)
    requires Legal(cfg, log) && Genuine(log) && PromptSince(cfg, log, n) && !Tripped(cfg, log)
    requires x in InFlight(log) && at == Clock(log)
    ensures var after := log + [Failed(x, at)];
      && Legal(cfg, after) && Genuine(after) && PromptSince(cfg, after, n)
      && Trailing(after) == Trailing(log) + 1 && !AdmittedSince(after) && Clock(after) == at
      && InFlight(after) == InFlight(log) - {x} && Trials(cfg, after) == Trials(cfg, log) - {x}
  {
    Append(log, Failed(x, at));
  }

  lemma {:induction false} FailsAtOnce(cfg: Config, log: seq<Event>, x: int, at: int, n: nat)
    requires Legal(cfg, log) && Genuine(log) && PromptSince(cfg, log, n) && !Tripped(cfg, log)
    requires x !in InFlight(log) && x !in Trials(cfg, log) && at == Clock(log)
    ensures var after := log + [Admitted(x, at)] + [Failed(x, at)];
      && Legal(cfg, after) && Genuine(after) && PromptSince(cfg, after, n)
      && Trailing(after) == Trailing(log) + 1 && !AdmittedSince(after)
      && Clock(after) == at && InFlight(after) == InFlight(log) && Trials(cfg, after) == Trials(cfg, log)
  {
    AdmitsClosed(cfg, log, x, at, n);
    FailsClosed(cfg, log + [Admitted(x, at)], x, at, n);
    assert InFlight(log) + {x} - {x} == InFlight(log);
  }

  lemma {:induction false} Reopens(cfg: Config, base: seq<Event>, x: int, at: int, k: nat)
    requires Legal(cfg, base) && Genuine(base) && Trailing(base) == 0
    requires x !in InFlight(base) && at == Clock(base) && k <= cfg.Limit()
    ensures var log := base + Failing(x, at, k);
      && Continues(cfg, base, Failing(x, at, k))
      && Trailing(log) == k && (k > 0 ==> !AdmittedSince(log))
      && Clock(log) == at && InFlight(log) == InFlight(base) && Trials(cfg, log) == Trials(cfg, base)
  {
    if k == 0 {
      assert base + Failing(x, at, 0) == base;
    } else {
      Reopens(cfg, base, x, at, k - 1);
      var log := base + Failing(x, at, k - 1);
      TrialsInFlight(cfg, base);
      FailsAtOnce(cfg, log, x, at, |base|);
      assert base + Failing(x, at, k) == log + [Admitted(x, at)] + [Failed(x, at)];
    }
  }

  lemma {:induction false} Unused(calls: set<int>) returns (x: int)
    ensures forall y :: y in calls ==> y < x
    decreases calls
  {
    if c :| c in calls {
      x := Unused(calls - {c});
      forall y | y in calls ensures y == c || y < x { assert y == c || y in calls - {c}; }
      if x <= c {
        x := c + 1;
      }
    } else {
      x := 0;
    }
  }
}

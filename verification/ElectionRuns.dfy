/**
  Runs of any number of electors racing for one claim.

  An attempt is split where the network splits it: the clock reading, the moment the
  server answers Get, the local decision, the moment the server handles Update, and the
  moment the reply is processed are separate steps of an interleaving. Time passes in
  its own steps. All clocks advance at one rate but each has its own offset.
*/
module ElectionRuns {
  import opened LeaderElection

  /** `latency` bounds one whole attempt, from its clock reading to the processing of the reply. */
  datatype Params = Params(config: Config, latency: nat, offset: map<string, int>)

  datatype Attempt =
    | Idle
    | AwaitGet(now: int)
    | GotReply(now: int, got: Record, version: nat)
    | AwaitUpdate(now: int, proposal: Record, version: nat)
    | UpdateReply(now: int, proposal: Record, ok: bool)

  /**
    `pollStart` is when the current wait.Poll of renew began, `free` when the elector last began
    to wait for its ticks, and `last` says that the attempt after the deadline is under way.
  */
  datatype Mode = Acquiring | Leading(since: int, pollStart: int, free: int, last: bool) | Stopped

  /**
    `seenVersion` and `lastStamp` are history: the claim's version when the observed record
    was first seen, and the renew stamp of this elector's last applied write.
  */
  datatype Elector = Elector(
    observed: Record, seen: Seen, mode: Mode, attempt: Attempt,
    seenVersion: nat, lastStamp: int)

  /** `writtenAt` is history: when the current record was written. */
  datatype World = World(
    t: int, record: Record, version: nat, writtenAt: int, electors: map<string, Elector>)

  datatype Action =
    | Begin(last: bool)
    | ServeGet
    | FailGet
    | Decide
    | ServeUpdate(replyLost: bool)
    | RejectUpdate
    | Finish
    | Quit     // a result of the work, the term limit or the poll's timeout ends renew
    | Restart  // a new LeaderElector for the same identity

  datatype Step = Pass(duration: nat) | Act(id: string, action: Action)

  /** The last tick of a poll that is not after its deadline. */
  function LastTick(c: Config): int
    requires c.retryPeriod > 0
  {
    c.renewDeadline / c.retryPeriod * c.retryPeriod
  }

  /**
    When, after its start, a poll begins its last attempt at the latest: at the deadline, or at
    the end of the attempt that began with the last tick and was still in progress then.
  */
  function Closing(p: Params): int
    requires p.config.retryPeriod > 0
  {
    var late := LastTick(p.config) + p.latency;
    if late > p.config.renewDeadline then late else p.config.renewDeadline
  }

  /**
    The timing assumption. After the write that begins or renews a term, its reply, a whole
    poll and its last attempt all lie within LeaseDuration.
  */
  predicate Timely(p: Params)
    requires p.config.retryPeriod > 0
  {
    Closing(p) + 2 * p.latency < p.config.leaseDuration
  }

  /** A ticker without a period panics, so the retry period is positive. */
  ghost predicate ValidParams(p: Params) {
    && Accepted(p.config)
    && p.config.termLimit > 0 && p.config.retryPeriod > 0
    && "" !in p.offset
  }

  function NewElector(lastStamp: int): Elector {
    Elector(NO_RECORD, Never, Acquiring, Idle, 0, lastStamp)
  }

  ghost predicate Init(p: Params, w: World) {
    && w.record == NO_RECORD && w.version == 0 && w.writtenAt <= w.t
    && w.electors.Keys == p.offset.Keys
    && forall i :: i in w.electors ==> w.electors[i] == NewElector(w.electors[i].lastStamp)
  }

  /** Where the elector stands once an attempt has returned `ok`. */
  function AfterAttempt(p: Params, t: int, e: Elector, ok: bool): Elector {
    var idle := e.(attempt := Idle);
    match e.mode
    case Acquiring => if ok then idle.(mode := Leading(t, t, t, false)) else idle
    case Leading(since, pollStart, _, last) =>
      if ok then
        // the poll returned nil; renew's next round looks at the term limit first
        if t >= since + p.config.termLimit then idle.(mode := Stopped) else idle.(mode := Leading(since, t, t, false))
      else if last then idle.(mode := Stopped)
      else idle.(mode := Leading(since, pollStart, t, false))
    case Stopped => idle
  }

  /** How long an elector may stay as it is: whoever waits after the deadline is woken at once. */
  predicate InTime(p: Params, t: int, offset: int, e: Elector) {
    && (!e.attempt.Idle? ==> t <= e.attempt.now - offset + p.latency)
    && (e.attempt.Idle? && e.mode.Leading? ==>
          t <= e.mode.free || t <= e.mode.pollStart + p.config.renewDeadline)
  }

  /** A tick of the poll, counted from its start. */
  predicate IsTick(c: Config, passed: int) {
    c.retryPeriod > 0 && 0 < passed <= c.renewDeadline && passed % c.retryPeriod == 0
  }

  ghost predicate CanAct(p: Params, w: World, i: string, action: Action) {
    && i in w.electors && i in p.offset
    && var e := w.electors[i];
       match action
       case Begin(last) =>
         && e.attempt.Idle? && !e.mode.Stopped?
         && (e.mode.Leading? ==>
               if last then w.t >= e.mode.pollStart + p.config.renewDeadline
               else IsTick(p.config, w.t - e.mode.pollStart))
         // the stamp this attempt would write is newer than the elector's previous one
         && e.lastStamp < Stamp(w.t + p.offset[i])
       case ServeGet => e.attempt.AwaitGet?
       case FailGet => e.attempt.AwaitGet?
       case Decide => e.attempt.GotReply?
       case ServeUpdate(_) => e.attempt.AwaitUpdate? && e.attempt.version == w.version
       case RejectUpdate => e.attempt.AwaitUpdate?
       case Finish => e.attempt.UpdateReply?
       case Quit => e.attempt.Idle? && e.mode.Leading?
       case Restart => e.attempt.Idle? && !e.mode.Leading?
  }

  ghost predicate Enabled(p: Params, w: World, s: Step) {
    match s
    case Pass(d) =>
      forall i :: i in w.electors && i in p.offset ==> InTime(p, w.t + d, p.offset[i], w.electors[i])
    case Act(i, action) => CanAct(p, w, i, action)
  }

  /** The reply to Get is compared with what was observed before. */
  function Observed(p: Params, w: World, i: string, e: Elector): Elector
    requires i in p.offset && e.attempt.GotReply?
  {
    if e.observed == e.attempt.got then e
    else e.(observed := e.attempt.got, seen := At(w.t + p.offset[i]), seenVersion := e.attempt.version)
  }

  function Decided(p: Params, w: World, i: string, e: Elector): Elector
    requires i in p.offset && e.attempt.GotReply?
  {
    var a, e1 := e.attempt, Observed(p, w, i, e);
    if HeldByOther(p.config, i, e1.seen, a.got, a.now)
    then AfterAttempt(p, w.t, e1, false)
    else e1.(attempt := AwaitUpdate(a.now, Proposal(p.config, i, a.now, a.got), a.version))
  }

  function Finished(p: Params, w: World, i: string, e: Elector): Elector
    requires i in p.offset && e.attempt.UpdateReply?
  {
    var a := e.attempt;
    var clock := w.t + p.offset[i];
    var e1 := if a.ok then e.(observed := a.proposal, seen := At(clock), seenVersion := w.version) else e;
    AfterAttempt(p, w.t, e1, a.ok)
  }

  /** The elector that acts, afterwards. */
  ghost function Moved(p: Params, w: World, i: string, action: Action): Elector
    requires CanAct(p, w, i, action)
  {
    var e := w.electors[i];
    match action
    case Begin(last) =>
      e.(attempt := AwaitGet(w.t + p.offset[i]), mode := if e.mode.Leading? then e.mode.(last := last) else e.mode)
    case ServeGet => e.(attempt := GotReply(e.attempt.now, w.record, w.version))
    case FailGet => AfterAttempt(p, w.t, e, false)
    case Decide => Decided(p, w, i, e)
    case ServeUpdate(lost) =>
      e.(attempt := UpdateReply(e.attempt.now, e.attempt.proposal, !lost), lastStamp := Stamp(e.attempt.now))
    case RejectUpdate => e.(attempt := UpdateReply(e.attempt.now, e.attempt.proposal, false))
    case Finish => Finished(p, w, i, e)
    case Quit => e.(mode := Stopped)
    case Restart => NewElector(e.lastStamp)
  }

  ghost function Apply(p: Params, w: World, s: Step): World
    requires Enabled(p, w, s)
  {
    match s
    case Pass(d) => w.(t := w.t + d)
    case Act(i, action) =>
      var w1 := w.(electors := w.electors[i := Moved(p, w, i, action)]);
      if action.ServeUpdate?
      then w1.(record := Stored(w.electors[i].attempt.proposal), version := w.version + 1, writtenAt := w.t)
      else w1
  }

  // ---------------------------------------------------------------- the invariant

  /** Records of a known elector carry no stamp newer than its last applied write. */
  ghost predicate Dated(w: World, r: Record) {
    && (r.holder != "" ==> r.holder in w.electors && r.renewTime <= w.electors[r.holder].lastStamp)
    && r.acquireTime <= r.renewTime
  }

  /** `e` has watched the record the server holds now since that record was written. */
  ghost predicate WatchedFromWrite(w: World, offset: int, e: Elector) {
    e.seenVersion == w.version && e.seen.At? && w.writtenAt <= e.seen.clock - offset
  }

  ghost predicate AttemptInv(p: Params, w: World, i: string, e: Elector)
    requires i in p.offset
  {
    match e.attempt
    case Idle => true
    case AwaitGet(now) => e.lastStamp < Stamp(now)
    case GotReply(now, got, version) =>
      && e.lastStamp < Stamp(now)
      && Dated(w, got)
      && version <= w.version
      && (version == w.version ==> got == w.record)
      && (version < w.version ==> got != w.record || got.holder == i)
    case AwaitUpdate(now, proposal, version) =>
      && e.lastStamp < Stamp(now)
      && version <= w.version
      && proposal.holder == i && proposal.renewTime == now && proposal.acquireTime <= now
      && (version == w.version && w.record.holder == i ==> Stamp(proposal.acquireTime) == w.record.acquireTime)
      && (version == w.version && w.record.holder != i ==> proposal.acquireTime == now)
      && (version == w.version && w.record.holder != i && w.record.holder != "" ==>
            e.observed == w.record && WatchedFromWrite(w, p.offset[i], e) && e.seen.clock + p.config.leaseDuration <= now)
    case UpdateReply(_, proposal, ok) => ok ==> proposal.holder == i
  }

  /** Where a leader is in its term and in its poll. */
  ghost predicate PollInv(p: Params, w: World, i: string, e: Elector)
    requires i in p.offset
  {
    e.mode.Leading? ==>
      && p.config.retryPeriod > 0
      && e.mode.since <= e.mode.pollStart <= e.mode.free <= w.t
      && (e.mode.pollStart == e.mode.since || e.mode.pollStart < e.mode.since + p.config.termLimit)
      && e.mode.free <= e.mode.pollStart + Closing(p)
      && (e.attempt.Idle? ==> !e.mode.last)
      && (!e.attempt.Idle? ==>
            e.attempt.now - p.offset[i] <= e.mode.pollStart + if e.mode.last then Closing(p) else LastTick(p.config))
  }

  ghost predicate ElectorInv(p: Params, w: World, i: string, e: Elector)
    requires i in p.offset
  {
    && InTime(p, w.t, p.offset[i], e)
    && (!e.attempt.Idle? ==> e.attempt.now - p.offset[i] <= w.t)
    && (e.seen.At? ==> e.seen.clock - p.offset[i] <= w.t)
    && (e.observed.holder == i || Dated(w, e.observed))
    && (e.seen.Never? ==> e.observed == NO_RECORD)
    && (e.observed == w.record && w.record.holder != i && w.record.holder != "" ==>
          WatchedFromWrite(w, p.offset[i], e))
    && AttemptInv(p, w, i, e) && PollInv(p, w, i, e)
  }

  /** What every run keeps, whatever the durations. */
  ghost predicate Inv(p: Params, w: World) {
    && w.electors.Keys == p.offset.Keys
    && w.writtenAt <= w.t
    && Dated(w, w.record)
    && (w.record.holder == "" ==> w.record == NO_RECORD)
    && w.record == Stored(w.record)
    && forall i :: i in w.electors ==> ElectorInv(p, w, i, w.electors[i])
  }

  lemma InitInv(p: Params, w: World)
    requires ValidParams(p) && Init(p, w)
    ensures Inv(p, w)
  {
  }

  lemma OthersKeptByWrite(p: Params, w: World, i: string, lost: bool, j: string)
    requires ValidParams(p) && Inv(p, w) && CanAct(p, w, i, ServeUpdate(lost))
    requires j in w.electors && j != i
    ensures ElectorInv(p, Apply(p, w, Act(i, ServeUpdate(lost))), j, w.electors[j])
  {
    assert ElectorInv(p, w, i, w.electors[i]) && ElectorInv(p, w, j, w.electors[j]);
  }

  /** No tick of a poll is later than its last one. */
  lemma TickBound(passed: int, c: Config)
    requires IsTick(c, passed)
    ensures passed <= LastTick(c)
  {
    var n, m := passed / c.retryPeriod, c.renewDeadline / c.retryPeriod;
    assert n <= m by {
      Apart(n - m, c.retryPeriod);
    }
    assert (m - n) * c.retryPeriod >= 0;
  }

  lemma WriterKept(p: Params, w: World, i: string, lost: bool)
    requires ValidParams(p) && Inv(p, w) && CanAct(p, w, i, ServeUpdate(lost))
    ensures ElectorInv(p, Apply(p, w, Act(i, ServeUpdate(lost))), i, Moved(p, w, i, ServeUpdate(lost)))
  {
    assert ElectorInv(p, w, i, w.electors[i]);
  }

  lemma ObserverKept(p: Params, w: World, i: string)
    requires ValidParams(p) && Inv(p, w) && CanAct(p, w, i, Decide)
    ensures ElectorInv(p, w, i, Observed(p, w, i, w.electors[i]))
  {
    assert ElectorInv(p, w, i, w.electors[i]);
  }

  lemma ProposerKept(p: Params, w: World, i: string, e: Elector)
    requires ValidParams(p) && Inv(p, w) && i in w.electors && ElectorInv(p, w, i, e)
    requires e.attempt.GotReply? && e.observed == e.attempt.got && e.lastStamp == w.electors[i].lastStamp
    requires !HeldByOther(p.config, i, e.seen, e.observed, e.attempt.now)
    ensures var a := e.attempt;
            ElectorInv(p, w, i, e.(attempt := AwaitUpdate(a.now, Proposal(p.config, i, a.now, a.got), a.version)))
  {
  }

  lemma DeciderKept(p: Params, w: World, i: string)
    requires ValidParams(p) && Inv(p, w) && CanAct(p, w, i, Decide)
    ensures ElectorInv(p, w, i, Decided(p, w, i, w.electors[i]))
  {
    ObserverKept(p, w, i);
    var e := Observed(p, w, i, w.electors[i]);
    if HeldByOther(p.config, i, e.seen, e.observed, e.attempt.now) {
      FailedKept(p, w, i, e);
    } else {
      ProposerKept(p, w, i, e);
    }
  }

  lemma FailedKept(p: Params, w: World, i: string, e: Elector)
    requires ValidParams(p) && Inv(p, w) && i in p.offset && ElectorInv(p, w, i, e) && !e.attempt.Idle?
    ensures ElectorInv(p, w, i, AfterAttempt(p, w.t, e, false))
  {
  }

  lemma FinisherKept(p: Params, w: World, i: string)
    requires ValidParams(p) && Inv(p, w) && CanAct(p, w, i, Finish)
    ensures ElectorInv(p, w, i, Finished(p, w, i, w.electors[i]))
  {
    assert ElectorInv(p, w, i, w.electors[i]);
  }

  lemma ActorKept(p: Params, w: World, i: string, action: Action)
    requires ValidParams(p) && Inv(p, w) && CanAct(p, w, i, action)
    requires !action.ServeUpdate? && !action.Decide? && !action.Finish?
    ensures ElectorInv(p, w, i, Moved(p, w, i, action))
  {
    var e := w.electors[i];
    assert ElectorInv(p, w, i, e);
    if action.Begin? || action.ServeGet? {
      assert AttemptInv(p, w, i, Moved(p, w, i, action));
    }
    if action.FailGet? {
      FailedKept(p, w, i, e);
    }
    if action.Begin? && e.mode.Leading? && !action.last {
      TickBound(w.t - e.mode.pollStart, p.config);
    }
  }

  lemma {:induction false} StepInv(p: Params, w: World, s: Step)
    requires ValidParams(p) && Inv(p, w) && Enabled(p, w, s)
    ensures Inv(p, Apply(p, w, s))
  {
    match s
    case Pass(d) => PassInv(p, w, d);
    case Act(i, ServeUpdate(lost)) => WriteInv(p, w, i, lost);
    case Act(i, action) => ActInv(p, w, i, action);
  }

  lemma PassInv(p: Params, w: World, d: nat)
    requires ValidParams(p) && Inv(p, w) && Enabled(p, w, Pass(d))
    ensures Inv(p, Apply(p, w, Pass(d)))
  {
    var w' := Apply(p, w, Pass(d));
    forall j | j in w.electors ensures ElectorInv(p, w', j, w.electors[j]) {
      assert ElectorInv(p, w, j, w.electors[j]);
    }
  }

  lemma MovedKept(p: Params, w: World, i: string, action: Action)
    requires ValidParams(p) && Inv(p, w) && CanAct(p, w, i, action) && !action.ServeUpdate?
    ensures ElectorInv(p, w, i, Moved(p, w, i, action))
    ensures Moved(p, w, i, action).lastStamp == w.electors[i].lastStamp
  {
    if action.Decide? {
      DeciderKept(p, w, i);
    } else if action.Finish? {
      FinisherKept(p, w, i);
    } else {
      ActorKept(p, w, i, action);
    }
  }

  lemma ActInv(p: Params, w: World, i: string, action: Action)
    requires ValidParams(p) && Inv(p, w) && CanAct(p, w, i, action) && !action.ServeUpdate?
    ensures Inv(p, Apply(p, w, Act(i, action)))
  {
    MovedKept(p, w, i, action);
    var e := Moved(p, w, i, action);
    Replaced(p, w, i, e);
    assert Apply(p, w, Act(i, action)) == w.(electors := w.electors[i := e]);
  }

  lemma Replaced(p: Params, w: World, i: string, e: Elector)
    requires Inv(p, w) && i in w.electors && ElectorInv(p, w, i, e) && e.lastStamp == w.electors[i].lastStamp
    ensures Inv(p, w.(electors := w.electors[i := e]))
  {
    var w' := w.(electors := w.electors[i := e]);
    forall j | j in w'.electors ensures ElectorInv(p, w', j, w'.electors[j]) {
      SameStamps(p, w, w', j, w'.electors[j]);
    }
  }

  /** The invariant looks at other electors only through their stamps. */
  lemma SameStamps(p: Params, w: World, w': World, i: string, e: Elector)
    requires i in p.offset && ElectorInv(p, w, i, e)
    requires w' == w.(electors := w'.electors) && w'.electors.Keys == w.electors.Keys
    requires forall j :: j in w.electors ==> w'.electors[j].lastStamp == w.electors[j].lastStamp
    ensures ElectorInv(p, w', i, e)
  {
  }

  lemma WrittenRecordDated(p: Params, w: World, i: string, lost: bool)
    requires ValidParams(p) && Inv(p, w) && CanAct(p, w, i, ServeUpdate(lost))
    ensures var w' := Apply(p, w, Act(i, ServeUpdate(lost)));
            && w'.record == Stored(w'.record) && w'.record.holder == i && i != "" && Dated(w', w'.record)
  {
    assert ElectorInv(p, w, i, w.electors[i]);
  }

  lemma WriteInv(p: Params, w: World, i: string, lost: bool)
    requires ValidParams(p) && Inv(p, w) && CanAct(p, w, i, ServeUpdate(lost))
    ensures Inv(p, Apply(p, w, Act(i, ServeUpdate(lost))))
  {
    var w' := Apply(p, w, Act(i, ServeUpdate(lost)));
    forall j | j in w'.electors ensures ElectorInv(p, w', j, w'.electors[j]) {
      if j == i {
        WriterKept(p, w, i, lost);
      } else {
        OthersKeptByWrite(p, w, i, lost, j);
        assert w'.electors[j] == w.electors[j];
      }
    }
    WrittenRecordDated(p, w, i, lost);
  }

  // ---------------------------------------------------------------- whole runs

  ghost predicate IsRun(p: Params, w: World, steps: seq<Step>)
    decreases |steps|
  {
    steps == [] || (Enabled(p, w, steps[0]) && IsRun(p, Apply(p, w, steps[0]), steps[1..]))
  }

  ghost function After(p: Params, w: World, steps: seq<Step>): World
    requires IsRun(p, w, steps)
    decreases |steps|
  {
    if steps == [] then w else After(p, Apply(p, w, steps[0]), steps[1..])
  }

  lemma {:induction false} RunInv(p: Params, w: World, steps: seq<Step>)
    requires ValidParams(p) && Inv(p, w) && IsRun(p, w, steps)
    ensures Inv(p, After(p, w, steps))
    decreases |steps|
  {
    if steps != [] {
      StepInv(p, w, steps[0]);
      RunInv(p, Apply(p, w, steps[0]), steps[1..]);
    }
  }

  /**
    The lock changes hands only to an elector that saw the very record it replaces a whole
    lease ago on its own clock, with no write of anybody in between.
  */
  lemma TakeoverWaitedALease(p: Params, w0: World, steps: seq<Step>, i: string, lost: bool)
    requires ValidParams(p) && Init(p, w0) && IsRun(p, w0, steps)
    requires CanAct(p, After(p, w0, steps), i, ServeUpdate(lost))
    requires After(p, w0, steps).record.holder !in {"", i}
    ensures var w := After(p, w0, steps);
            var e := w.electors[i];
            && e.observed == w.record && e.seenVersion == w.version
            && e.seen.At? && w.writtenAt <= e.seen.clock - p.offset[i]
            && e.seen.clock + p.config.leaseDuration <= e.attempt.now
  {
    InitInv(p, w0);
    RunInv(p, w0, steps);
    var w := After(p, w0, steps);
    assert ElectorInv(p, w, i, w.electors[i]);
  }

  /** A leading phase ends within the term limit, one poll and its last attempt. */
  lemma TermIsBounded(p: Params, w0: World, steps: seq<Step>, i: string)
    requires ValidParams(p) && Init(p, w0) && IsRun(p, w0, steps)
    requires var w := After(p, w0, steps); i in w.electors && w.electors[i].mode.Leading?
    ensures var w := After(p, w0, steps);
      w.t < w.electors[i].mode.since + p.config.termLimit + Closing(p) + p.latency
    ensures Closing(p) <= p.config.renewDeadline + p.latency
  {
    InitInv(p, w0);
    RunInv(p, w0, steps);
    var w := After(p, w0, steps);
    assert ElectorInv(p, w, i, w.electors[i]);
    LastTickInTime(p.config);
  }

  lemma LastTickInTime(c: Config)
    requires c.retryPeriod > 0 && c.renewDeadline >= 0
    ensures 0 <= LastTick(c) <= c.renewDeadline < LastTick(c) + c.retryPeriod
  {
    var m, r := c.renewDeadline / c.retryPeriod, c.renewDeadline % c.retryPeriod;
    assert c.renewDeadline == m * c.retryPeriod + r;
    assert m >= 0 ==> m * c.retryPeriod >= 0;
  }

  ghost predicate HeldThroughout(p: Params, w: World, steps: seq<Step>, i: string)
    requires IsRun(p, w, steps)
    decreases |steps|
  {
    && w.record.holder == i
    && (steps != [] ==> HeldThroughout(p, Apply(p, w, steps[0]), steps[1..], i))
  }

  lemma {:induction false} TenureKeepsAcquireTime(p: Params, w: World, steps: seq<Step>, i: string)
    requires ValidParams(p) && Inv(p, w) && IsRun(p, w, steps)
    requires i != "" && HeldThroughout(p, w, steps, i)
    ensures After(p, w, steps).record.acquireTime == w.record.acquireTime
    decreases |steps|
  {
    if steps != [] {
      var s := steps[0];
      StepInv(p, w, s);
      TenureKeepsAcquireTime(p, Apply(p, w, s), steps[1..], i);
      if s.Act? && s.action.ServeUpdate? {
        assert ElectorInv(p, w, s.id, w.electors[s.id]);
      }
    }
  }

  /**
    From the write that takes the lock on, and for as long as the holder stays, the record's
    acquire time is the time of that write and never exceeds the renew time.
  */
  lemma Tenure(p: Params, w0: World, before: seq<Step>, i: string, lost: bool, during: seq<Step>)
    requires ValidParams(p) && Init(p, w0) && IsRun(p, w0, before)
    requires CanAct(p, After(p, w0, before), i, ServeUpdate(lost))
    requires After(p, w0, before).record.holder != i
    requires var w := Apply(p, After(p, w0, before), Act(i, ServeUpdate(lost)));
             IsRun(p, w, during) && HeldThroughout(p, w, during, i)
    ensures var w := After(p, w0, before);
            var r := After(p, Apply(p, w, Act(i, ServeUpdate(lost))), during).record;
            r.acquireTime == Stamp(w.electors[i].attempt.now) && r.acquireTime <= r.renewTime
  {
    InitInv(p, w0);
    RunInv(p, w0, before);
    var w := After(p, w0, before);
    assert ElectorInv(p, w, i, w.electors[i]);
    var w1 := Apply(p, w, Act(i, ServeUpdate(lost)));
    StepInv(p, w, Act(i, ServeUpdate(lost)));
    RunInv(p, w1, during);
    TenureKeepsAcquireTime(p, w1, during, i);
  }

  // ---------------------------------------------------------------- one leader at a time

  /** A leader, or one whose successful write is being answered, holds the record it wrote last. */
  ghost predicate LeadInv(p: Params, w: World, i: string, e: Elector)
    requires i in p.offset
  {
    && (e.mode.Leading? ==> w.record.holder == i && e.mode.pollStart <= w.writtenAt + p.latency)
    && (e.attempt.UpdateReply? && e.attempt.ok ==>
          w.record == Stored(e.attempt.proposal) && e.attempt.now - p.offset[i] <= w.writtenAt)
  }

  ghost predicate LeadersHold(p: Params, w: World) {
    forall i :: i in w.electors && i in p.offset ==> LeadInv(p, w, i, w.electors[i])
  }

  /** The heart of the timing argument: a leader, or a write whose reply is on its way, cannot be overtaken. */
  lemma LeaseProtects(p: Params, w: World, leader: string, other: string)
    requires ValidParams(p) && Timely(p) && Inv(p, w) && LeadersHold(p, w)
    requires leader in w.electors && other in w.electors && other != leader
    requires var e := w.electors[leader];
             e.mode.Leading? || (e.attempt.UpdateReply? && e.attempt.ok)
    requires var e := w.electors[other]; e.attempt.AwaitUpdate?
    ensures w.electors[other].attempt.version != w.version
  {
    var e := w.electors[leader];
    assert ElectorInv(p, w, leader, e) && LeadInv(p, w, leader, e);
    assert ElectorInv(p, w, other, w.electors[other]);
    if e.mode.Leading? {
      assert w.t <= e.mode.pollStart + Closing(p) + p.latency;
    }
  }

  lemma ActorHolds(p: Params, w: World, i: string, action: Action)
    requires ValidParams(p) && Inv(p, w) && LeadersHold(p, w) && CanAct(p, w, i, action)
    ensures LeadInv(p, Apply(p, w, Act(i, action)), i, Moved(p, w, i, action))
  {
    assert ElectorInv(p, w, i, w.electors[i]) && LeadInv(p, w, i, w.electors[i]);
  }

  lemma OtherHolds(p: Params, w: World, i: string, action: Action, j: string)
    requires ValidParams(p) && Timely(p) && Inv(p, w) && LeadersHold(p, w) && CanAct(p, w, i, action)
    requires j in w.electors && j in p.offset && j != i
    ensures LeadInv(p, Apply(p, w, Act(i, action)), j, w.electors[j])
  {
    var f := w.electors[j];
    assert LeadInv(p, w, j, f);
    if action.ServeUpdate? && (f.mode.Leading? || (f.attempt.UpdateReply? && f.attempt.ok)) {
      LeaseProtects(p, w, j, i);
      assert false;
    }
  }

  lemma StepHolds(p: Params, w: World, s: Step)
    requires ValidParams(p) && Timely(p) && Inv(p, w) && LeadersHold(p, w) && Enabled(p, w, s)
    ensures LeadersHold(p, Apply(p, w, s))
  {
    var w' := Apply(p, w, s);
    forall j | j in w'.electors && j in p.offset ensures LeadInv(p, w', j, w'.electors[j]) {
      assert j in w.electors ==> LeadInv(p, w, j, w.electors[j]);
      if s.Act? {
        if j == s.id {
          ActorHolds(p, w, j, s.action);
        } else {
          OtherHolds(p, w, s.id, s.action, j);
        }
      }
    }
  }

  lemma {:induction false} RunHolds(p: Params, w: World, steps: seq<Step>)
    requires ValidParams(p) && Timely(p) && Inv(p, w) && LeadersHold(p, w) && IsRun(p, w, steps)
    ensures Inv(p, After(p, w, steps)) && LeadersHold(p, After(p, w, steps))
    decreases |steps|
  {
    if steps != [] {
      StepInv(p, w, steps[0]);
      StepHolds(p, w, steps[0]);
      RunHolds(p, Apply(p, w, steps[0]), steps[1..]);
    }
  }

  /** No two electors are ever in the leading phase together. */
  lemma MutualExclusion(p: Params, w0: World, steps: seq<Step>, i: string, j: string)
    requires ValidParams(p) && Timely(p) && Init(p, w0) && IsRun(p, w0, steps)
    requires i in p.offset && j in p.offset
    requires var w := After(p, w0, steps);
             && i in w.electors && w.electors[i].mode.Leading?
             && j in w.electors && w.electors[j].mode.Leading?
    ensures i == j
  {
    InitInv(p, w0);
    RunHolds(p, w0, steps);
    var w := After(p, w0, steps);
    assert LeadInv(p, w, i, w.electors[i]) && LeadInv(p, w, j, w.electors[j]);
  }

  // ---------------------------------------------------------------- renewals stamp freshly

  ghost predicate LosesNoReply(steps: seq<Step>) {
    forall k :: 0 <= k < |steps| ==> steps[k] != Act(if steps[k].Act? then steps[k].id else "", ServeUpdate(true))
  }

  /** A leader's last write is not newer than the start of its current poll. */
  ghost predicate FreshInv(p: Params, w: World) {
    && w.electors.Keys == p.offset.Keys
    && forall i :: i in w.electors ==> FreshElector(p, w, i, w.electors[i])
  }

  ghost predicate FreshElector(p: Params, w: World, i: string, e: Elector)
    requires i in p.offset
  {
    && (e.mode.Leading? && !(e.attempt.UpdateReply? && e.attempt.ok) ==>
          e.lastStamp <= Stamp(e.mode.pollStart + p.offset[i]))
    && (e.attempt.UpdateReply? && e.attempt.ok ==>
          e.lastStamp == Stamp(e.attempt.now) && e.attempt.now - p.offset[i] <= w.t)
    && (!e.attempt.Idle? ==> e.attempt.now - p.offset[i] <= w.t)
  }

  lemma FreshActor(p: Params, w: World, i: string, action: Action)
    requires FreshInv(p, w) && CanAct(p, w, i, action) && action != ServeUpdate(true)
    ensures FreshElector(p, Apply(p, w, Act(i, action)), i, Moved(p, w, i, action))
  {
    assert FreshElector(p, w, i, w.electors[i]);
  }

  lemma FreshStep(p: Params, w: World, s: Step)
    requires FreshInv(p, w) && Enabled(p, w, s)
    requires !(s.Act? && s.action == ServeUpdate(true))
    ensures FreshInv(p, Apply(p, w, s))
  {
    var w' := Apply(p, w, s);
    if s.Act? {
      FreshActor(p, w, s.id, s.action);
    }
    forall i | i in w'.electors ensures FreshElector(p, w', i, w'.electors[i]) {
      if s.Pass? || i != s.id {
        assert w'.electors[i] == w.electors[i];
        assert FreshElector(p, w, i, w.electors[i]);
      }
    }
  }

  lemma {:induction false} FreshRun(p: Params, w: World, steps: seq<Step>)
    requires FreshInv(p, w) && IsRun(p, w, steps) && LosesNoReply(steps)
    ensures FreshInv(p, After(p, w, steps))
    decreases |steps|
  {
    if steps != [] {
      FreshStep(p, w, steps[0]);
      FreshRun(p, Apply(p, w, steps[0]), steps[1..]);
    }
  }

  /**
    What Begin asks of a leader's stamp is no assumption as long as replies arrive and the
    retry period is at least the one second that survives the annotation.
  */
  lemma RenewStampsAreFresh(p: Params, w0: World, steps: seq<Step>, i: string)
    requires ValidParams(p) && Init(p, w0) && IsRun(p, w0, steps) && LosesNoReply(steps)
    requires p.config.retryPeriod >= SECOND
    requires var w := After(p, w0, steps);
             && i in w.electors && i in p.offset && w.electors[i].mode.Leading? && w.electors[i].attempt.Idle?
             && w.electors[i].mode.pollStart + p.config.retryPeriod <= w.t
    ensures var w := After(p, w0, steps); w.electors[i].lastStamp < Stamp(w.t + p.offset[i])
  {
    FreshRun(p, w0, steps);
    var w := After(p, w0, steps);
    assert FreshElector(p, w, i, w.electors[i]);
  }

  // ---------------------------------------------------------------- the timing assumption is needed

  lemma {:induction false} Extend(p: Params, w: World, steps: seq<Step>, s: Step)
    requires IsRun(p, w, steps) && Enabled(p, After(p, w, steps), s)
    ensures IsRun(p, w, steps + [s])
    ensures After(p, w, steps + [s]) == Apply(p, After(p, w, steps), s)
    decreases |steps|
  {
    if steps == [] {
      assert [s][1..] == [];
    } else {
      Extend(p, Apply(p, w, steps[0]), steps[1..], s);
      assert (steps + [s])[1..] == steps[1..] + [s];
    }
  }

  lemma Go(p: Params, w0: World, run: seq<Step>, w: World, s: Step) returns (run': seq<Step>, w': World)
    requires IsRun(p, w0, run) && After(p, w0, run) == w && Enabled(p, w, s)
    ensures run' == run + [s] && IsRun(p, w0, run') && w' == Apply(p, w, s) && After(p, w0, run') == w'
  {
    Extend(p, w0, run, s);
    run', w' := run + [s], Apply(p, w, s);
  }

  /** A whole successful or refused exchange at one instant. */
  lemma Exchange(p: Params, w0: World, run: seq<Step>, w: World, i: string)
    returns (run': seq<Step>, w': World)
    requires IsRun(p, w0, run) && After(p, w0, run) == w && CanAct(p, w, i, Begin(false)) && w.electors[i].mode.Acquiring?
    ensures IsRun(p, w0, run') && After(p, w0, run') == w'
    ensures i in w'.electors && w' == w.(electors := w.electors[i := w'.electors[i]])
    ensures w'.electors[i] ==
            Decided(p, w, i, w.electors[i].(attempt := GotReply(w.t + p.offset[i], w.record, w.version)))
  {
    run', w' := Go(p, w0, run, w, Act(i, Begin(false)));
    run', w' := Go(p, w0, run', w', Act(i, ServeGet));
    run', w' := Go(p, w0, run', w', Act(i, Decide));
  }

  ghost predicate BothLead(p: Params, w0: World, run: seq<Step>, i: string, j: string) {
    && IsRun(p, w0, run)
    && var es := After(p, w0, run).electors;
       i != j && i in es && j in es && es[i].mode.Leading? && es[j].mode.Leading?
  }

  // The reply to the write that begins i's term takes a whole latency. Every attempt at a tick
  // before the last fails at once; the one at the last tick and the one after the deadline take
  // a latency each if they have to. Meanwhile j, who saw the record at once, waits for a lease.

  /** The clock of `i` is about to turn to its next second, and nobody has written yet. */
  function Start(p: Params, i: string): World
    requires i in p.offset
  {
    World(SECOND - 1 - p.offset[i], NO_RECORD, 0, SECOND - 1 - p.offset[i],
          map k | k in p.offset :: NewElector(Stamp(SECOND - 1 - p.offset[i] + p.offset[k]) - SECOND))
  }

  function FirstProposal(p: Params, i: string): Record {
    Proposal(p.config, i, SECOND - 1, NO_RECORD)
  }

  /** `i` has written, and the reply is on its way. */
  ghost predicate Written(p: Params, w: World, i: string)
    requires i in p.offset
  {
    var w0 := Start(p, i);
    && w == World(w0.t, Stored(FirstProposal(p, i)), 1, w0.t, w0.electors[i :=
         Elector(NO_RECORD, Never, Acquiring, UpdateReply(SECOND - 1, FirstProposal(p, i), true), 0, 0)])
  }

  lemma FirstWrite(p: Params, i: string) returns (run: seq<Step>, w: World)
    requires ValidParams(p) && i in p.offset
    ensures IsRun(p, Start(p, i), run) && After(p, Start(p, i), run) == w && Written(p, w, i)
  {
    var w0 := Start(p, i);
    run, w := Exchange(p, w0, [], w0, i);
    run, w := Go(p, w0, run, w, Act(i, ServeUpdate(false)));
  }

  /** `j` has watched the record of `i` since it was written. */
  function Watching(p: Params, i: string, j: string): Elector
    requires i in p.offset && j in p.offset
  {
    var w0 := Start(p, i);
    Elector(Stored(FirstProposal(p, i)), At(w0.t + p.offset[j]), Acquiring, Idle, 1, w0.electors[j].lastStamp)
  }

  /** Nobody but `i` has a deadline to meet. */
  ghost predicate Calm(p: Params, w: World, i: string) {
    forall k :: k in w.electors && k in p.offset && k != i ==> w.electors[k].attempt.Idle? && w.electors[k].mode.Acquiring?
  }

  lemma MayPass(p: Params, w: World, i: string, duration: nat)
    requires Calm(p, w, i) && i in w.electors && i in p.offset && InTime(p, w.t + duration, p.offset[i], w.electors[i])
    ensures Enabled(p, w, Pass(duration))
  {
  }

  /** The record is `i`'s, `j` has watched it from the start, and `elapsed` has gone by. */
  ghost predicate Watched(p: Params, w: World, i: string, j: string, elapsed: int)
    requires i in p.offset && j in p.offset
  {
    && w.t == Start(p, i).t + elapsed && w.version == 1 && w.record == Stored(FirstProposal(p, i))
    && i in w.electors && j in w.electors && w.electors[j] == Watching(p, i, j) && Calm(p, w, i)
  }

  /** An elector that has not begun yet can begin, and what it does with the record is watch it. */
  lemma Looks(p: Params, w: World, i: string, j: string)
    requires ValidParams(p) && i in p.offset && j in p.offset && i != j && Written(p, w, i)
    ensures j in w.electors && CanAct(p, w, j, Begin(false)) && w.electors[j].mode.Acquiring?
    ensures Decided(p, w, j, w.electors[j].(attempt := GotReply(w.t + p.offset[j], w.record, w.version))) == Watching(p, i, j)
  {
    assert w.electors[j] == Start(p, i).electors[j];
    assert w.record != NO_RECORD;
  }

  lemma OthersCalm(p: Params, w: World, i: string, j: string, w': World)
    requires i in p.offset && j in p.offset && i != j && Written(p, w, i)
    requires w' == w.(electors := w.electors[j := Watching(p, i, j)])
    ensures Watched(p, w', i, j, 0) && w'.electors[i] == w.electors[i]
  {
    forall k | k in w'.electors && k in p.offset && k != i
      ensures w'.electors[k].attempt.Idle? && w'.electors[k].mode.Acquiring?
    {
      if k != j {
        assert w.electors[k] == Start(p, i).electors[k];
      }
    }
  }

  lemma SeenAtOnce(p: Params, i: string, j: string) returns (run: seq<Step>, w: World)
    requires ValidParams(p) && i in p.offset && j in p.offset && i != j
    ensures IsRun(p, Start(p, i), run) && After(p, Start(p, i), run) == w && Watched(p, w, i, j, 0)
    ensures w.electors[i] == Elector(NO_RECORD, Never, Acquiring, UpdateReply(SECOND - 1, FirstProposal(p, i), true), 0, 0)
  {
    var w1;
    run, w1 := FirstWrite(p, i);
    Looks(p, w1, i, j);
    run, w := Exchange(p, Start(p, i), run, w1, j);
    OthersCalm(p, w1, i, j, w);
  }

  /** The reply to the write that begins the term takes as long as it may. */
  lemma FirstReply(p: Params, i: string, j: string) returns (run: seq<Step>, w: World)
    requires ValidParams(p) && i in p.offset && j in p.offset && i != j
    ensures IsRun(p, Start(p, i), run) && After(p, Start(p, i), run) == w && Watched(p, w, i, j, p.latency)
    ensures w.electors[i].attempt.Idle? && w.electors[i].mode == Leading(w.t, w.t, w.t, false) && w.electors[i].lastStamp == 0
  {
    run, w := SeenAtOnce(p, i, j);
    MayPass(p, w, i, p.latency);
    run, w := Go(p, Start(p, i), run, w, Pass(p.latency));
    run, w := Go(p, Start(p, i), run, w, Act(i, Finish));
  }

  /** `i` waits for its ticks since now, `passed` after its poll began. */
  ghost predicate Polling(p: Params, w: World, i: string, j: string, passed: int)
    requires i in p.offset && j in p.offset
  {
    && Watched(p, w, i, j, p.latency + passed)
    && var e := w.electors[i]; var start := Start(p, i).t + p.latency;
       e.attempt.Idle? && e.lastStamp == 0 && e.mode == Leading(start, start, w.t, false)
  }

  /** `i` has begun an attempt just now. */
  ghost predicate Trying(p: Params, w: World, i: string, j: string, passed: int, last: bool)
    requires i in p.offset && j in p.offset
  {
    && Watched(p, w, i, j, p.latency + passed)
    && var e := w.electors[i]; var start := Start(p, i).t + p.latency;
       && e.attempt == AwaitGet(w.t + p.offset[i]) && e.lastStamp == 0
       && e.mode.Leading? && e.mode.since == e.mode.pollStart == start && e.mode.last == last
  }

  ghost predicate Reaches(p: Params, w0: World, run: seq<Step>, w: World) {
    IsRun(p, w0, run) && After(p, w0, run) == w
  }

  lemma Tries(p: Params, i: string, j: string, run: seq<Step>, w: World, passed: int, free: int, last: bool)
    returns (run': seq<Step>, w': World)
    requires ValidParams(p) && i in p.offset && j in p.offset && i != j && Reaches(p, Start(p, i), run, w)
    requires passed > 0 && Watched(p, w, i, j, p.latency + passed)
    requires var e := w.electors[i]; var start := Start(p, i).t + p.latency;
      e.attempt.Idle? && e.lastStamp == 0 && e.mode == Leading(start, start, free, false)
    requires if last then passed >= p.config.renewDeadline else IsTick(p.config, passed)
    ensures Reaches(p, Start(p, i), run', w') && Trying(p, w', i, j, passed, last)
  {
    run', w' := Go(p, Start(p, i), run, w, Act(i, Begin(last)));
  }

  /** An idle leader may be left alone until its deadline. */
  lemma Waits(p: Params, i: string, j: string, run: seq<Step>, w: World, passed: int, more: nat)
    returns (run': seq<Step>, w': World)
    requires ValidParams(p) && i in p.offset && j in p.offset && i != j && Reaches(p, Start(p, i), run, w)
    requires Polling(p, w, i, j, passed) && (more > 0 ==> passed + more <= p.config.renewDeadline)
    ensures Reaches(p, Start(p, i), run', w') && Watched(p, w', i, j, p.latency + passed + more)
    ensures w'.electors[i] == w.electors[i]
  {
    MayPass(p, w, i, more);
    run', w' := Go(p, Start(p, i), run, w, Pass(more));
  }

  /** An attempt may take a latency. */
  lemma Holds(p: Params, i: string, j: string, run: seq<Step>, w: World, passed: int, last: bool, more: nat)
    returns (run': seq<Step>, w': World)
    requires ValidParams(p) && i in p.offset && j in p.offset && i != j && Reaches(p, Start(p, i), run, w)
    requires Trying(p, w, i, j, passed, last) && more <= p.latency
    ensures Reaches(p, Start(p, i), run', w') && Watched(p, w', i, j, p.latency + passed + more)
    ensures w'.electors[i] == w.electors[i]
  {
    MayPass(p, w, i, more);
    run', w' := Go(p, Start(p, i), run, w, Pass(more));
  }

  /** It fails in the end, and the elector waits again. */
  lemma Fails(p: Params, i: string, j: string, run: seq<Step>, w: World, passed: int, more: nat)
    returns (run': seq<Step>, w': World)
    requires ValidParams(p) && i in p.offset && j in p.offset && i != j && Reaches(p, Start(p, i), run, w)
    requires Trying(p, w, i, j, passed, false) && more <= p.latency
    ensures Reaches(p, Start(p, i), run', w') && Polling(p, w', i, j, passed + more)
  {
    run', w' := Holds(p, i, j, run, w, passed, false, more);
    run', w' := Go(p, Start(p, i), run', w', Act(i, FailGet));
  }

  lemma PollBegins(p: Params, i: string, j: string) returns (run: seq<Step>, w: World)
    requires ValidParams(p) && i in p.offset && j in p.offset && i != j
    ensures Reaches(p, Start(p, i), run, w) && Polling(p, w, i, j, 0)
  {
    run, w := FirstReply(p, i, j);
  }

  lemma TickAt(c: Config, n: int)
    requires c.retryPeriod > 0 && 0 < n <= c.renewDeadline / c.retryPeriod
    ensures IsTick(c, n * c.retryPeriod) && (n - 1) * c.retryPeriod == n * c.retryPeriod - c.retryPeriod >= 0
    ensures n == 1 ==> (n - 1) * c.retryPeriod == 0
  {
    MultipleOf(n, c.retryPeriod);
    LastTickInTime(c);
    assert (c.renewDeadline / c.retryPeriod - n) * c.retryPeriod >= 0;
    assert (n - 1) * c.retryPeriod >= 0;
  }

  /** At the n-th tick an attempt begins, those at all ticks before it having failed. */
  lemma {:induction false} AtTick(p: Params, i: string, j: string, n: int) returns (run: seq<Step>, w: World)
    requires ValidParams(p) && i in p.offset && j in p.offset && i != j
    requires 0 < n <= p.config.renewDeadline / p.config.retryPeriod
    ensures Reaches(p, Start(p, i), run, w) && Trying(p, w, i, j, n * p.config.retryPeriod, false)
    decreases n
  {
    TickAt(p.config, n);
    var before := (n - 1) * p.config.retryPeriod;
    if n == 1 {
      run, w := PollBegins(p, i, j);
    } else {
      run, w := AtTick(p, i, j, n - 1);
      run, w := Fails(p, i, j, run, w, before, 0);
    }
    run, w := TriesAtNextTick(p, i, j, run, w, before, n * p.config.retryPeriod);
  }

  lemma TriesAtNextTick(p: Params, i: string, j: string, run: seq<Step>, w: World, before: int, tick: int)
    returns (run': seq<Step>, w': World)
    requires ValidParams(p) && i in p.offset && j in p.offset && i != j && Reaches(p, Start(p, i), run, w)
    requires Polling(p, w, i, j, before) && before <= tick && IsTick(p.config, tick)
    ensures Reaches(p, Start(p, i), run', w') && Trying(p, w', i, j, tick, false)
  {
    run', w' := Waits(p, i, j, run, w, before, tick - before);
    run', w' := Tries(p, i, j, run', w', tick, w'.electors[i].mode.free, false);
  }

  /** Any moment up to the last tick finds it leading. */
  lemma LeadsEarly(p: Params, i: string, j: string, passed: nat) returns (run: seq<Step>, w: World)
    requires ValidParams(p) && i in p.offset && j in p.offset && i != j && passed < LastTick(p.config)
    ensures Reaches(p, Start(p, i), run, w) && Watched(p, w, i, j, p.latency + passed) && w.electors[i].mode.Leading?
  {
    var n := passed / p.config.retryPeriod;
    TicksBefore(p.config, passed);
    if n == 0 {
      run, w := PollBegins(p, i, j);
    } else {
      run, w := AtTick(p, i, j, n);
      run, w := Fails(p, i, j, run, w, n * p.config.retryPeriod, 0);
    }
    run, w := Waits(p, i, j, run, w, n * p.config.retryPeriod, passed - n * p.config.retryPeriod);
  }

  lemma TicksBefore(c: Config, passed: nat)
    requires c.retryPeriod > 0 && passed < LastTick(c) && c.renewDeadline >= 0
    ensures var n := passed / c.retryPeriod;
      0 <= n <= c.renewDeadline / c.retryPeriod && 0 <= n * c.retryPeriod <= passed <= c.renewDeadline
  {
    var n, m := passed / c.retryPeriod, c.renewDeadline / c.retryPeriod;
    LastTickInTime(c);
    assert passed == n * c.retryPeriod + passed % c.retryPeriod;
    Apart(n - m, c.retryPeriod);
    assert (n - m) * c.retryPeriod == n * c.retryPeriod - m * c.retryPeriod;
    assert n * c.retryPeriod >= 0;
  }

  lemma LastTickExists(c: Config)
    requires Accepted(c) && c.retryPeriod > 0
    ensures c.renewDeadline / c.retryPeriod > 0
  {
  }

  /** From the last tick on: an attempt in progress at the deadline, or one begun there. */
  lemma LeadsLate(p: Params, i: string, j: string, passed: nat) returns (run: seq<Step>, w: World)
    requires ValidParams(p) && i in p.offset && j in p.offset && i != j
    requires LastTick(p.config) <= passed <= Closing(p) + p.latency
    ensures Reaches(p, Start(p, i), run, w) && Watched(p, w, i, j, p.latency + passed) && w.electors[i].mode.Leading?
  {
    var n, tick, deadline := p.config.renewDeadline / p.config.retryPeriod, LastTick(p.config), p.config.renewDeadline;
    LastTickInTime(p.config);
    LastTickExists(p.config);
    run, w := AtTick(p, i, j, n);
    if passed <= tick + p.latency {
      run, w := Holds(p, i, j, run, w, tick, false, passed - tick);
    } else if tick + p.latency >= deadline {
      run, w := Fails(p, i, j, run, w, tick, p.latency);
      run, w := Tries(p, i, j, run, w, tick + p.latency, w.electors[i].mode.free, true);
      run, w := Holds(p, i, j, run, w, tick + p.latency, true, passed - tick - p.latency);
    } else {
      run, w := Fails(p, i, j, run, w, tick, 0);
      if passed <= deadline {
        run, w := Waits(p, i, j, run, w, tick, passed - tick);
      } else {
        run, w := Waits(p, i, j, run, w, tick, deadline - tick);
        run, w := Tries(p, i, j, run, w, deadline, w.electors[i].mode.free, true);
        run, w := Holds(p, i, j, run, w, deadline, true, passed - deadline);
      }
    }
  }

  /** It leads until a latency after the moment its last attempt may begin. */
  lemma LeadsOn(p: Params, i: string, j: string, elapsed: int) returns (run: seq<Step>, w: World)
    requires ValidParams(p) && i in p.offset && j in p.offset && i != j
    requires p.latency <= elapsed <= Closing(p) + 2 * p.latency
    ensures IsRun(p, Start(p, i), run) && After(p, Start(p, i), run) == w
    ensures Watched(p, w, i, j, elapsed) && w.electors[i].mode.Leading?
  {
    if elapsed - p.latency < LastTick(p.config) {
      run, w := LeadsEarly(p, i, j, elapsed - p.latency);
    } else {
      run, w := LeadsLate(p, i, j, elapsed - p.latency);
    }
  }

  lemma TakesOver(p: Params, w0: World, run: seq<Step>, w: World, i: string, j: string, elapsed: int)
    returns (run': seq<Step>)
    requires ValidParams(p) && i in p.offset && j in p.offset && i != j && p.config.leaseDuration <= elapsed
    requires IsRun(p, w0, run) && After(p, w0, run) == w
    requires Watched(p, w, i, j, elapsed) && w.electors[i].mode.Leading?
    ensures BothLead(p, w0, run', i, j)
  {
    var w';
    run', w' := Exchange(p, w0, run, w, j);
    run', w' := Go(p, w0, run', w', Act(j, ServeUpdate(false)));
    run', w' := Go(p, w0, run', w', Act(j, Finish));
  }

  lemma StartIsInitial(p: Params, i: string)
    requires i in p.offset
    ensures Init(p, Start(p, i))
  {
  }

  /** Wherever the timing assumption fails, any two electors can come to lead together. */
  lemma TwoLeadersWithoutTheTimingAssumption(p: Params, i: string, j: string) returns (run: seq<Step>)
    requires ValidParams(p) && !Timely(p) && i in p.offset && j in p.offset && i != j
    ensures Init(p, Start(p, i)) && BothLead(p, Start(p, i), run, i, j)
  {
    var elapsed := if p.config.leaseDuration > p.latency then p.config.leaseDuration else p.latency;
    var w;
    StartIsInitial(p, i);
    run, w := LeadsOn(p, i, j, elapsed);
    run := TakesOver(p, Start(p, i), run, w, i, j, elapsed);
  }

  ghost predicate Excludes(p: Params) {
    forall w0: World, run: seq<Step>, i: string, j: string :: Init(p, w0) ==> !BothLead(p, w0, run, i, j)
  }

  /** With two electors or more the timing assumption is exactly what mutual exclusion takes. */
  lemma ExclusionExactlyIfTimely(p: Params, i: string, j: string)
    requires ValidParams(p) && i in p.offset && j in p.offset && i != j
    ensures Excludes(p) <==> Timely(p)
  {
    if Timely(p) {
      forall w0: World, run: seq<Step>, k: string, l: string | Init(p, w0) && BothLead(p, w0, run, k, l) ensures false {
        InitInv(p, w0);
        RunInv(p, w0, run);
        MutualExclusion(p, w0, run, k, l);
      }
    } else {
      var run := TwoLeadersWithoutTheTimingAssumption(p, i, j);
    }
  }

  /** The default durations, which the constructor accepts, exclude two leaders for attempts under 5/3 seconds only. */
  lemma DefaultDurations(latency: nat, offset: map<string, int>, i: string, j: string)
    requires "" !in offset && i in offset && j in offset && i != j
    ensures var p := Params(Config(15 * SECOND, 10 * SECOND, 2 * SECOND, 30 * SECOND), latency, offset);
      Accepted(p.config) && (Excludes(p) <==> 3 * latency < 5 * SECOND)
  {
    var p := Params(Config(15 * SECOND, 10 * SECOND, 2 * SECOND, 30 * SECOND), latency, offset);
    ExclusionExactlyIfTimely(p, i, j);
  }
}

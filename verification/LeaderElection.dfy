/**
  The per-claim lease lock: the record kept in an annotation of the claim, the pure
  decisions one attempt makes, and the elector that carries an attempt out.

  All instants and durations are integers in nanoseconds.
*/
module LeaderElection {

  const SECOND := 1_000_000_000

  /** A clock reading as it survives the JSON form of metav1.Time: whole seconds. */
  function Stamp(clock: int): int {
    clock / SECOND * SECOND
  }

  datatype Record = Record(
    holder: string,
    leaseSeconds: int,
    acquireTime: int,
    renewTime: int,
    transitions: int)

  /** What Get returns when the claim has no annotation: Go's zero record. */
  const NO_RECORD := Record("", 0, 0, 0, 0)

  /** What a reader gets back after the record went through the annotation. */
  function Stored(r: Record): Record {
    r.(acquireTime := Stamp(r.acquireTime), renewTime := Stamp(r.renewTime))
  }

  datatype Config = Config(leaseDuration: int, renewDeadline: int, retryPeriod: nat, termLimit: int)

  /** The check of NewLeaderElector; 12/10 is JITTER_FACTOR, truncated like the Go conversion. */
  predicate Accepted(c: Config) {
    c.leaseDuration > c.renewDeadline && c.renewDeadline > c.retryPeriod * 12 / 10
  }

  /** A ticker that started at `start` next ticks after `clock`. */
  function NextTick(period: int, start: int, clock: int): (tick: int)
    requires period > 0 && start <= clock
    ensures clock < tick <= clock + period
    ensures (tick - start) % period == 0
  {
    var n := (clock - start) / period + 1;
    MultipleOf(n, period);
    start + n * period
  }

  lemma Apart(k: int, period: int)
    requires period > 0
    ensures (k >= 1 ==> k * period >= period) && (k <= -1 ==> k * period <= -period)
  {
    if k >= 1 {
      assert (k - 1) * period >= 0;
    } else if k <= -1 {
      assert (k + 1) * period <= 0;
    }
  }

  lemma MultipleOf(n: int, period: int)
    requires period > 0
    ensures (n * period) % period == 0 && (n * period) / period == n
  {
    var q, r := (n * period) / period, (n * period) % period;
    assert (n - q) * period == r;
    Apart(n - q, period);
  }

  /** When, on the local clock, the observed record was first seen. */
  datatype Seen = Never | At(clock: int)

  function FreshRecord(c: Config, id: string, now: int): Record {
    Record(id, c.leaseDuration / SECOND, now, now, 0)
  }

  /** The lease check: somebody else holds the lock and its lease has not run out yet. */
  predicate HeldByOther(c: Config, id: string, seen: Seen, got: Record, now: int) {
    seen.At? && seen.clock + c.leaseDuration > now && got.holder != id
  }

  /** The record an attempt writes, given the one it read. */
  function Proposal(c: Config, id: string, now: int, got: Record): Record {
    if got.holder == id
    then FreshRecord(c, id, now).(acquireTime := got.acquireTime)
    else FreshRecord(c, id, now).(transitions := got.transitions + 1)
  }

  /** The API server's copy of one claim: a versioned register. */
  class ClaimServer {
    var record: Record
    var version: nat
    var clock: int  // the elector's local clock
    ghost var faults: nat  // how many calls have gone unanswered, or were answered with something unreadable
    ghost var foreign: nat // how many writes by others there have been

    constructor ()
      ensures record == NO_RECORD && version == 0
    {
      record, version, clock := NO_RECORD, 0, 0;
      faults, foreign := 0, 0;
    }

    /** Other controllers and users write between two of our calls, and time passes. */
    method Others()
      modifies this
      ensures clock >= old(clock) && faults == old(faults)
      ensures foreign >= old(foreign) && version == old(version) + foreign - old(foreign)
      ensures foreign == old(foreign) ==> record == old(record)
    {
      var elapsed: nat :| true;
      clock := clock + elapsed;
      if * {
        var r: Record := *;
        record, version := r, version + 1;
        foreign := foreign + 1;
      }
    }

    method Sleep(duration: nat)
      modifies this
      ensures clock >= old(clock) + duration && faults == old(faults)
      ensures foreign >= old(foreign) && version == old(version) + foreign - old(foreign)
      ensures foreign == old(foreign) ==> record == old(record)
    {
      clock := clock + duration;
      Others();
    }
  }

  /** Why a leading phase ends. */
  datatype Ended = WorkOver | TermOver | RenewalFailed

  /** The lock object: the claim as last fetched, which Update sends back. */
  class ProvisionPvcLock {
    const identity: string
    const server: ClaimServer
    var fetched: bool       // pl.p is not nil
    var fetchedVersion: nat // resource version of pl.p
    ghost var asked: nat     // how many attempts have fetched the claim, or tried to
    ghost var lastAsked: int // and when the last one did

    constructor (identity: string, server: ClaimServer)
      ensures this.identity == identity && this.server == server && !fetched
    {
      this.identity, this.server := identity, server;
      fetched, fetchedVersion := false, 0;
      asked, lastAsked := 0, 0;
    }

    /** Without a reply nothing is held; a record that cannot be read is an error with the claim held. */
    method Get() returns (ok: bool, r: Record)
      modifies this, server`faults
      ensures ok ==> fetched && r == server.record
      ensures fetched ==> fetchedVersion == server.version
      ensures server.faults == old(server.faults) + if ok then 0 else 1
      ensures asked == old(asked) + 1 && lastAsked == server.clock
    {
      var readable: bool := *;
      fetched := *;
      ok := fetched && readable;
      asked, lastAsked := asked + 1, server.clock;
      server.faults := server.faults + if ok then 0 else 1;
      r := NO_RECORD;
      if fetched {
        fetchedVersion := server.version;
      }
      if ok {
        r := server.record;
      }
    }

    /**
      Accepted only if the claim is still at the fetched version. The reply may be lost:
      then the write has happened although an error is returned.
    */
    method Update(r: Record) returns (ok: bool)
      modifies this, server
      ensures server.clock == old(server.clock) && server.foreign == old(server.foreign)
      ensures asked == old(asked) && lastAsked == old(lastAsked)
      // it fails only if a message is lost or somebody else has written since
      ensures server.faults >= old(server.faults)
      ensures !ok && server.faults == old(server.faults) ==> !old(fetched) || old(fetchedVersion) != old(server.version)
      ensures ok ==> old(fetched) && old(fetchedVersion) == old(server.version)
      ensures ok ==> server.record == Stored(r)
      ensures || (server.version == old(server.version) && server.record == old(server.record))
              || (&& server.version == old(server.version) + 1 && server.record == Stored(r)
                  && old(fetched) && old(fetchedVersion) == old(server.version))
      ensures ok ==> server.version == old(server.version) + 1
    {
      var reachesServer: bool := *;
      server.faults := server.faults + if reachesServer then 0 else 1;
      if !fetched || !reachesServer || fetchedVersion != server.version {
        return false;
      }
      server.record, server.version := Stored(r), server.version + 1;
      fetchedVersion := server.version;
      ok := *;
      server.faults := server.faults + if ok then 0 else 1;
      fetched := ok;
    }
  }

  class LeaderElector {
    const config: Config
    const lock: ProvisionPvcLock
    var observedRecord: Record
    var observedTime: Seen

    constructor (config: Config, lock: ProvisionPvcLock)
      requires Accepted(config)
      ensures this.config == config && this.lock == lock
      ensures observedRecord == NO_RECORD && observedTime == Never
    {
      this.config, this.lock := config, lock;
      observedRecord, observedTime := NO_RECORD, Never;
    }

    /** NewLeaderElector, which refuses durations that leave no room for a renewal. */
    static method New(config: Config, lock: ProvisionPvcLock?) returns (le: LeaderElector?)
      ensures le == null <==> !Accepted(config) || lock == null
      ensures le != null ==> fresh(le) && le.config == config && le.lock == lock
                             && le.observedRecord == NO_RECORD && le.observedTime == Never
    {
      if config.leaseDuration <= config.renewDeadline {
        return null;
      }
      if config.renewDeadline <= config.retryPeriod * 12 / 10 {
        return null;
      }
      if lock == null {
        return null;
      }
      le := new LeaderElector(config, lock);
    }

    /**
      One attempt. `got` is the record it fetched and `atVersion` the claim's version then.
    */
    method TryAcquireOrRenew() returns (ok: bool, ghost got: Record, ghost atVersion: nat, ghost now: int)
      requires Accepted(config)
      modifies this, lock, lock.server
      // success: exactly one write since the Get, and it is ours
      ensures ok ==> observedRecord == Proposal(config, lock.identity, now, got)
      // a renewal keeps the acquire time and forgets the transitions, a takeover counts one more
      ensures ok ==> observedRecord == Record(lock.identity, config.leaseDuration / SECOND,
                                              if got.holder == lock.identity then got.acquireTime else now, now,
                                              if got.holder == lock.identity then 0 else got.transitions + 1)
      ensures ok ==> lock.server.version == atVersion + 1 && lock.server.record == Stored(observedRecord)
      ensures ok ==> observedTime.At? && observedTime.clock == lock.server.clock
      // nobody's running lease is taken: either it was ours, or this elector had seen that very
      // record for a whole lease before this attempt began, or it had never waited for any record
      ensures ok && got.holder != lock.identity ==>
                old(observedRecord) == got
                && (old(observedTime).At? ==> old(observedTime).clock + config.leaseDuration <= now)
      // failure: either nothing was learnt, or the record is remembered with the time it was
      // first seen, or the write was applied and its reply lost
      ensures !ok && observedRecord != old(observedRecord) ==>
                observedTime.At? && now <= observedTime.clock <= lock.server.clock
      ensures !ok && observedRecord == old(observedRecord) ==> observedTime == old(observedTime)
      ensures old(lock.server.clock) == now <= lock.server.clock
      // every attempt asks the server once
      ensures lock.asked == old(lock.asked) + 1 && now <= lock.lastAsked <= lock.server.clock
      ensures lock.server.faults >= old(lock.server.faults) && lock.server.foreign >= old(lock.server.foreign)
      ensures lock.server.faults == old(lock.server.faults) && lock.server.foreign == old(lock.server.foreign) ==>
                got == old(lock.server.record)
      // and one that is answered fails only if somebody wrote in between, or somebody else's
      // record has not been watched for a whole lease
      ensures !ok && lock.server.faults == old(lock.server.faults) ==>
                || (lock.server.version > atVersion && lock.server.foreign > old(lock.server.foreign))
                || (&& got.holder != lock.identity
                    && (old(observedRecord) != got
                        || (old(observedTime).At? && old(observedTime).clock + config.leaseDuration > now)))
    {
      var nowRead := lock.server.clock;
      now := nowRead;
      lock.server.Others();
      var found, old_ := lock.Get();
      got, atVersion := old_, lock.server.version;
      if !found {
        // Create always refuses, so a missing claim fails like any other error
        return false, got, atVersion, now;
      }
      lock.server.Others();
      if observedRecord != old_ {
        observedRecord := old_;
        observedTime := At(lock.server.clock);
      }
      if HeldByOther(config, lock.identity, observedTime, old_, nowRead) {
        return false, got, atVersion, now;
      }
      var proposal := Proposal(config, lock.identity, nowRead, old_);
      lock.server.Others();
      ok := lock.Update(proposal);
      if ok {
        observedRecord := proposal;
        observedTime := At(lock.server.clock);
      }
    }

    /** The server has this elector's record, and that moment is remembered. */
    ghost predicate Holds()
      reads this, lock, lock.server
    {
      && observedRecord.holder == lock.identity && lock.server.record == Stored(observedRecord)
      && observedTime == At(lock.server.clock)
    }

    /**
      Attempts at every tick that finds the elector waiting, until one succeeds; the last
      attempt is made as soon as it is waiting after the deadline. So it gives up only when
      the whole renew deadline has passed.
    */
    method PollRenew() returns (ok: bool)
      requires Accepted(config) && config.retryPeriod > 0
      modifies this, lock, lock.server
      ensures ok ==> Holds()
      ensures !ok ==> lock.server.clock >= old(lock.server.clock) + config.renewDeadline
      ensures lock.server.clock > old(lock.server.clock)
      // it tries at least once, and once more when the deadline has passed before it gives up
      ensures lock.asked > old(lock.asked)
      ensures !ok ==> lock.lastAsked >= old(lock.server.clock) + config.renewDeadline
      // a record that is held is renewed unless a call is lost or somebody else writes
      ensures lock.server.faults >= old(lock.server.faults) && lock.server.foreign >= old(lock.server.foreign)
      ensures old(Holds()) && !ok ==>
                lock.server.faults > old(lock.server.faults) || lock.server.foreign > old(lock.server.foreign)
    {
      var server := lock.server;
      var start := server.clock;
      var deadline := start + config.renewDeadline;
      var open := true;
      while open
        invariant server.clock >= start && (server.clock == start ==> open)
        invariant !open ==> server.clock >= deadline && lock.lastAsked >= deadline
        invariant lock.asked >= old(lock.asked) && (lock.asked == old(lock.asked) ==> open)
        invariant server.faults >= old(server.faults) && server.foreign >= old(server.foreign)
        invariant old(Holds()) && server.faults == old(server.faults) && server.foreign == old(server.foreign) ==>
                    open && server.record == old(server.record)
        decreases open, deadline - server.clock
      {
        if server.clock < deadline {
          var tick := NextTick(config.retryPeriod, start, server.clock);
          server.Sleep((if tick < deadline then tick else deadline) - server.clock);
        }
        open := server.clock < deadline;
        var done, _, _, _ := TryAcquireOrRenew();
        if done {
          return true;
        }
      }
      ok := false;
    }

    /**
      Renews until the work is over, the term has ended or a renewal has failed for the whole
      deadline. `last` is when the record was last known to be held.
    */
    method Renew(termEnd: int) returns (ended: Ended, ghost last: int)
      requires Accepted(config) && config.retryPeriod > 0 && Holds()
      modifies this, lock, lock.server
      ensures old(lock.server.clock) <= last <= lock.server.clock
      ensures ended == TermOver ==> lock.server.clock >= termEnd
      ensures ended == RenewalFailed ==> lock.server.clock >= last + config.renewDeadline && last < termEnd
      ensures ended != RenewalFailed ==> Holds() && last == lock.server.clock
      ensures lock.server.faults >= old(lock.server.faults) && lock.server.foreign >= old(lock.server.foreign)
      ensures ended == RenewalFailed ==>
                lock.server.faults > old(lock.server.faults) || lock.server.foreign > old(lock.server.foreign)
    {
      var server := lock.server;
      last := server.clock;
      while true
        invariant Holds() && old(server.clock) <= last == server.clock
        invariant server.faults >= old(server.faults) && server.foreign >= old(server.foreign)
        decreases termEnd - server.clock
      {
        if * {
          return WorkOver, last;
        }
        if server.clock >= termEnd {
          return TermOver, last;
        }
        var ok := PollRenew();
        if !ok {
          return RenewalFailed, last;
        }
        last := server.clock;
      }
    }

    /** Attempts until one succeeds; after `patience` rounds at the latest somebody has done the work. */
    method Acquire(patience: nat) returns (over: bool)
      requires Accepted(config)
      modifies this, lock, lock.server
      ensures !over ==> Holds()
      ensures lock.server.clock >= old(lock.server.clock)
      // it is over only after that many attempts, and at once if the first one is answered and may take the lock
      ensures over ==> lock.asked == old(lock.asked) + patience
      ensures lock.server.faults >= old(lock.server.faults) && lock.server.foreign >= old(lock.server.foreign)
      ensures (&& patience > 0 && lock.server.faults == old(lock.server.faults) && lock.server.foreign == old(lock.server.foreign)
               && (|| old(lock.server.record).holder == lock.identity
                   || (&& old(observedRecord) == old(lock.server.record)
                       && (old(observedTime).At? ==>
                             old(observedTime).clock + config.leaseDuration <= old(lock.server.clock)))))
              ==> !over
    {
      var rounds := patience;
      while rounds > 0
        invariant lock.server.clock >= old(lock.server.clock)
        invariant 0 <= rounds <= patience && lock.asked == old(lock.asked) + patience - rounds
        invariant lock.server.faults >= old(lock.server.faults) && lock.server.foreign >= old(lock.server.foreign)
        invariant rounds == patience ==>
                    && observedRecord == old(observedRecord) && observedTime == old(observedTime)
                    && lock.server.record == old(lock.server.record) && lock.server.clock == old(lock.server.clock)
        invariant (&& rounds < patience
                   && lock.server.faults == old(lock.server.faults) && lock.server.foreign == old(lock.server.foreign)) ==>
                    && old(lock.server.record).holder != lock.identity
                    && (|| old(observedRecord) != old(lock.server.record)
                        || (&& old(observedTime).At?
                            && old(observedTime).clock + config.leaseDuration > old(lock.server.clock)))
      {
        var ok, _, _, _ := TryAcquireOrRenew();
        if ok {
          return false;
        }
        lock.server.Sleep(config.retryPeriod);
        rounds := rounds - 1;
      }
      over := true;
    }

    /**
      The whole life of an elector. `led` is the leading phase, if there was one: it begins
      when this elector's record is on the server and ends no earlier than the term, unless
      the work is over or no renewal got through for a whole deadline.
    */
    method Run(patience: nat) returns (led: bool, ghost from: int, ghost first: Record, ghost ended: Ended, ghost last: int)
      requires Accepted(config) && config.retryPeriod > 0
      modifies this, lock, lock.server
      ensures !led ==> lock.asked == old(lock.asked) + patience
      ensures led ==>
                && first.holder == lock.identity && old(lock.server.clock) <= from <= last <= lock.server.clock
                && (ended == TermOver ==> lock.server.clock >= from + config.termLimit)
                && (ended == RenewalFailed ==> lock.server.clock >= last + config.renewDeadline && last < from + config.termLimit)
                && (ended != RenewalFailed ==> Holds())
    {
      led, from, first, ended, last := false, 0, NO_RECORD, WorkOver, 0;
      var over := Acquire(patience);
      if over {
        return;
      }
      led := true;
      from, first := lock.server.clock, lock.server.record;
      var e, l := Renew(lock.server.clock + config.termLimit);
      ended, last := e, l;
    }
  }
}

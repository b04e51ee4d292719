/** The provisioner's one loop: what a wake-up signal is sure of, whenever it comes, and
    how far apart the passes start. */
module DriveLoop {
  import opened Basics

  const ACTIVE_LOOP_INTERVAL_MS := 5_000
  const IDLE_LOOP_INTERVAL_MS := 60_000

  /** What the scheduling query says. */
  datatype Schedule = Schedule(tickDue: bool, cadenceDue: bool, livenessDue: bool, nextDueAt: Option<int>)

  /** An await: how long it takes, and whether a signal comes in it. */
  datatype Await = Await(takes: nat, signalled: bool)

  /** What happens to one turn of the loop, await by await, and when it is told to stop. */
  datatype Turn = Turn(
    tick: Await, lastLive: bool, cadence: Await, watch: seq<Await>, announce: Await, stopAfterPass: bool,
    read: Await, next: Schedule, rest: Await, stopAfterRest: bool,
    stopBeforeWait: bool, wait: Await, stopAfterWait: bool)

  /** Signals, and starts of the ticker's pass, in the order they happen. */
  datatype Event = Signal | TickStart

  ghost predicate Followed(log: seq<Event>, i: nat) {
    exists j :: i < j < |log| && log[j] == TickStart
  }

  /** Every signal of the log is followed by a start of the ticker's pass. */
  ghost predicate AllFollowed(log: seq<Event>) {
    forall i :: 0 <= i < |log| && log[i] == Signal ==> Followed(log, i)
  }

  lemma TickFollowsAll(log: seq<Event>)
    ensures AllFollowed(log + [TickStart])
  {
    var next := log + [TickStart];
    forall i | 0 <= i < |next| && next[i] == Signal ensures Followed(next, i) { assert next[|log|] == TickStart; }
  }

  lemma StaysFollowed(log: seq<Event>, more: seq<Event>, n: nat)
    requires log <= more && n <= |log| && forall i :: 0 <= i < n && log[i] == Signal ==> Followed(log, i)
    ensures forall i :: 0 <= i < n && more[i] == Signal ==> Followed(more, i)
  {
    forall i | 0 <= i < n && more[i] == Signal ensures Followed(more, i) {
      var j :| i < j < |log| && log[j] == TickStart;
      assert more[j] == TickStart;
    }
  }

  lemma AllFollowedStay(log: seq<Event>, more: seq<Event>)
    requires AllFollowed(log) || log + [TickStart] <= more
    requires log <= more
    ensures forall i: nat :: i < |log| && more[i] == Signal ==> Followed(more, i)
  {
    forall i: nat | i < |log| && more[i] == Signal ensures Followed(more, i) {
      if log + [TickStart] <= more {
        assert more[|log|] == TickStart;
      } else {
        assert Followed(log, i);
        StaysFollowed(log, more, |log|);
      }
    }
  }

  /** Two passes never start closer than the active interval. */
  ghost predicate Apart(starts: seq<int>) {
    forall i, j :: 0 <= i < j < |starts| ==> starts[i] + ACTIVE_LOOP_INTERVAL_MS <= starts[j]
  }

  lemma NextIsApart(starts: seq<int>, now: int)
    requires Apart(starts) && (starts != [] ==> starts[|starts| - 1] + ACTIVE_LOOP_INTERVAL_MS <= now)
    ensures Apart(starts + [now])
  {
  }

  /** How long a loop with nothing due waits. */
  function Delay(nextDueAt: Option<int>, now: int): nat {
    Max(ACTIVE_LOOP_INTERVAL_MS, if nextDueAt.Some? then Min(IDLE_LOOP_INTERVAL_MS, Max(0, nextDueAt.value - now)) else IDLE_LOOP_INTERVAL_MS)
  }

  /** It never spins, never sleeps past the idle interval, and meets a due time on the
      dot unless that is nearer than the active interval. */
  lemma DelayMeetsDue(nextDueAt: Option<int>, now: int)
    ensures ACTIVE_LOOP_INTERVAL_MS <= Delay(nextDueAt, now) <= IDLE_LOOP_INTERVAL_MS
    ensures nextDueAt.Some? ==>
              (now + Delay(nextDueAt, now) == nextDueAt.value <==>
                 ACTIVE_LOOP_INTERVAL_MS <= nextDueAt.value - now <= IDLE_LOOP_INTERVAL_MS)
    ensures nextDueAt.None? || nextDueAt.value - now > 60_000 ==> Delay(nextDueAt, now) == 60_000
    ensures nextDueAt.Some? && nextDueAt.value - now < 5_000 ==> Delay(nextDueAt, now) == 5_000
  {
  }

  class Drive {
    /** The wake's latch, and whether the loop waits on it. */
    var latched: bool
    var waiter: bool
    var clock: int
    var first: bool
    var schedule: Schedule
    const forever: bool
    const hasCadence: bool
    const hasWatch: bool
    ghost var log: seq<Event>
    ghost var starts: seq<int>
    /** How much was logged when the last turn began. */
    ghost var begun: nat

    /** No signal is lost: one that no pass has followed is still latched. */
    ghost predicate Valid()
      reads this
    {
      && (latched || AllFollowed(log))
      && Apart(starts) && (starts != [] ==> starts[|starts| - 1] <= clock)
    }

    /** At the head of the loop a pass may start. */
    ghost predicate AtHead()
      reads this
    {
      Valid() && (first <==> starts == []) && (starts != [] ==> starts[|starts| - 1] + ACTIVE_LOOP_INTERVAL_MS <= clock)
    }

    constructor (now: int, schedule: Schedule, forever: bool, hasCadence: bool, hasWatch: bool)
      ensures AtHead() && log == [] && starts == [] && first
    {
      latched, waiter, clock, first, this.schedule := false, false, now, true, schedule;
      this.forever, this.hasCadence, this.hasWatch := forever, hasCadence, hasWatch;
      log, starts, begun := [], [], 0;
    }

    /** A poke: latched, and a waiting loop goes on. */
    method Poke()
      requires Valid()
      modifies this`latched, this`waiter, this`log
      ensures Valid() && latched && !waiter && log == old(log) + [Signal]
    {
      latched, waiter := true, false;
      log := log + [Signal];
    }

    /** Any await: others run meanwhile. */
    method Pause(a: Await)
      requires Valid()
      modifies this`latched, this`waiter, this`log, this`clock
      ensures Valid() && clock == old(clock) + a.takes
      ensures old(log) <= log == if a.signalled then old(log) + [Signal] else old(log)
      ensures if a.signalled then latched else latched == old(latched)
    {
      clock := clock + a.takes;
      if a.signalled { Poke(); }
    }

    /** A sleep takes at least its time. */
    method Sleep(ms: nat, a: Await)
      requires Valid()
      modifies this`latched, this`waiter, this`log, this`clock
      ensures Valid() && clock >= old(clock) + ms && old(log) <= log
    {
      Pause(Await(ms + a.takes, a.signalled));
    }

    /** Not at all when a signal is latched; else until a signal, or the time. */
    method Wait(ms: nat, a: Await)
      requires Valid()
      modifies this`latched, this`waiter, this`log, this`clock
      ensures Valid() && clock >= old(clock) && old(log) <= log
      ensures latched || clock >= old(clock) + ms
      ensures old(latched) ==> clock == old(clock) && log == old(log)
      ensures !old(latched) && !a.signalled ==> clock == old(clock) + ms + a.takes
    {
      if latched { return; }
      waiter := true;
      if a.signalled { Pause(a); } else { Pause(Await(ms + a.takes, false)); }
      waiter := false;
    }

    method WatchAll(watch: seq<Await>)
      requires Valid()
      modifies this`latched, this`waiter, this`log, this`clock
      ensures Valid() && clock >= old(clock) && old(log) <= log
    {
      for k := 0 to |watch|
        invariant Valid() && clock >= old(clock) && old(log) <= log
      {
        Pause(watch[k]);
      }
    }

    /** The passes that are due, then the next schedule, then the rest of the interval. */
    method RunPasses(runTick: bool, runCadence: bool, t: Turn) returns (stopped: bool)
      requires Valid() && (latched ==> runTick)
      requires starts != [] ==> starts[|starts| - 1] + ACTIVE_LOOP_INTERVAL_MS <= clock
      modifies this
      ensures Valid() && (!stopped ==> clock >= old(clock) + ACTIVE_LOOP_INTERVAL_MS) && clock >= old(clock)
      ensures first == old(first) && starts == old(starts) + [old(clock)]
      ensures (if runTick then old(log) + [TickStart] else old(log)) <= log
    {
      hide AllFollowed, Apart;
      var passStartedAt := clock;
      NextIsApart(starts, clock);
      starts := starts + [clock];
      latched := false;
      if runTick {
        TickFollowsAll(log);
        log := log + [TickStart];
      }
      stopped := InPasses(runTick, runCadence, t);
      if stopped { return; }
      stopped := RestOfInterval(passStartedAt, t);
    }

    method InPasses(runTick: bool, runCadence: bool, t: Turn) returns (stopped: bool)
      requires Valid()
      modifies this`latched, this`waiter, this`log, this`clock
      ensures Valid() && clock >= old(clock) && old(log) <= log
    {
      hide AllFollowed, Apart;
      if runTick { Pause(t.tick); }
      if runCadence && hasCadence { Pause(t.cadence); }
      if schedule.livenessDue && hasWatch { WatchAll(t.watch); }
      Pause(t.announce);
      stopped := t.stopAfterPass || (!forever && runTick && t.lastLive);
    }

    method RestOfInterval(passStartedAt: int, t: Turn) returns (stopped: bool)
      requires Valid() && passStartedAt <= clock
      modifies this`latched, this`waiter, this`log, this`clock, this`schedule
      ensures Valid() && clock >= old(clock) && clock >= passStartedAt + ACTIVE_LOOP_INTERVAL_MS && old(log) <= log
    {
      hide AllFollowed, Apart;
      Pause(t.read);
      schedule := t.next;
      var floorRemaining := ACTIVE_LOOP_INTERVAL_MS - (clock - passStartedAt);
      if floorRemaining > 0 { Sleep(floorRemaining, t.rest); }
      stopped := t.stopAfterRest;
    }

    /** Nothing is due: waits for a signal or the next due time, and reads again. */
    method WaitForWork(t: Turn) returns (stopped: bool)
      requires Valid() && !latched
      modifies this`latched, this`waiter, this`log, this`clock, this`schedule
      ensures Valid() && clock >= old(clock) && old(log) <= log
      ensures !stopped ==> latched || clock >= old(clock) + ACTIVE_LOOP_INTERVAL_MS
      ensures !stopped && !t.wait.signalled ==>
                clock == old(clock) + Delay(old(schedule).nextDueAt, old(clock)) + t.wait.takes + t.read.takes
    {
      if t.stopBeforeWait { return true; }
      var untilDue := IDLE_LOOP_INTERVAL_MS;
      if schedule.nextDueAt.Some? {
        var due := if schedule.nextDueAt.value - clock > 0 then schedule.nextDueAt.value - clock else 0;
        if due < untilDue { untilDue := due; }
      }
      var delay := if untilDue > ACTIVE_LOOP_INTERVAL_MS then untilDue else ACTIVE_LOOP_INTERVAL_MS;
      Wait(delay, t.wait);
      if t.stopAfterWait { return true; }
      Pause(t.read);
      schedule := t.next;
      stopped := false;
    }

    /** One turn of the loop. A latched signal starts the ticker's pass at once; a turn
        without a signal takes at least the active interval. */
    method Iterate(t: Turn) returns (stopped: bool)
      requires AtHead()
      modifies this
      ensures Valid() && (!stopped ==> AtHead()) && clock >= old(clock) && begun == |old(log)|
      ensures old(log) <= log && old(starts) <= starts <= old(starts) + [old(clock)]
      ensures old(latched) || old(first) || old(schedule).tickDue ==> old(log) + [TickStart] <= log
      ensures (old(latched) || old(first) || old(schedule).tickDue || old(schedule).cadenceDue || old(schedule).livenessDue)
              == (starts == old(starts) + [old(clock)])
      ensures AllFollowed(old(log)) || old(log) + [TickStart] <= log
      ensures !stopped ==> latched || clock >= old(clock) + ACTIVE_LOOP_INTERVAL_MS
    {
      hide AllFollowed;
      ghost var n := |log|;
      var wakeTick, forceTick, forceCadence := latched, first, first && hasCadence;
      first := false;
      var runTick := wakeTick || forceTick || schedule.tickDue;
      var runCadence := forceCadence || schedule.cadenceDue;
      if runTick || runCadence || schedule.livenessDue {
        stopped := RunPasses(runTick, runCadence, t);
      } else {
        stopped := WaitForWork(t);
      }
      begun := n;
    }

    /** The loop. Every signal from before the last turn that it began is followed by a
        pass, also when that turn stops it. */
    method DriveTicks(turns: seq<Turn>) returns (stopped: bool)
      requires AtHead()
      modifies this
      ensures Valid() && Apart(starts) && old(log) <= log && (!stopped ==> AtHead())
      ensures |turns| > 0 ==> |old(log)| <= begun <= |log| && forall i: nat :: i < begun && log[i] == Signal ==> Followed(log, i)
    {
      hide AllFollowed;
      stopped := false;
      for k := 0 to |turns|
        invariant AtHead() && old(log) <= log
        invariant k > 0 ==> |old(log)| <= begun <= |log| && forall i: nat :: i < begun && log[i] == Signal ==> Followed(log, i)
      {
        ghost var before := log;
        stopped := Iterate(turns[k]);
        AllFollowedStay(before, log);
        if stopped { return; }
      }
    }
  }
}

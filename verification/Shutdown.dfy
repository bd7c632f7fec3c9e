/** How long Stop can take. Time is in milliseconds; timers fire on time and nothing else takes time.
    When the guest answers, when the child exits and when the monitor shows Stopped is up to the world. */
module Shutdown {
  import opened Options

  const CLOSE_LIMIT := 3_000
  const RPC_LIMIT := 10_000
  const EXIT_LIMIT := 10_000
  const KILL_LIMIT := 5_000
  const POLL_LIMIT := 10_000
  const POLL_TICK := 100

  /** What the world does: how long the network takes to shut down once told to, how long the shutdown
      call would take and whether it succeeds, and when, if ever, the exit can be received and Stopped
      is shown. */
  datatype World = World(closing: nat, answer: nat, answered: bool, exitAt: Option<nat>, stoppedAt: Option<nat>)

  function Min(a: nat, b: nat): nat {
    if a < b then a else b
  }

  function Max(a: nat, b: nat): nat {
    if a < b then b else a
  }

  class Stopper {
    const world: World
    var now: nat
    var downAt: Option<nat>  // when the network will be down, once it has been told to shut down
    var forced: bool         // Stop itself has set Stopped

    constructor (world: World, start: nat)
      ensures this.world == world && now == start && !forced && downAt == None
    {
      this.world, now, forced, downAt := world, start, false, None;
    }

    predicate ShowsStopped()
      reads this
    {
      forced || (world.stoppedAt.Some? && world.stoppedAt.value <= now)
    }

    /** How long a Close at time t waits; a later one only for what is left of the first. */
    function ClosingAt(down: Option<nat>, t: nat): nat {
      if down == None then Min(world.closing, 3_000)
      else if down.value <= t then 0
      else Min(down.value - t, 3_000)
    }

    function DownAfter(down: Option<nat>, t: nat): Option<nat> {
      if down == None then Some(t + world.closing) else down
    }

    method CloseNetwork()
      modifies `now, `downAt
      ensures now == old(now) + ClosingAt(old(downAt), old(now))
      ensures downAt == DownAfter(old(downAt), old(now))
    {
      if downAt == None { downAt := Some(now + world.closing); }
      if now < downAt.value { now := now + Min(downAt.value - now, CLOSE_LIMIT); }
    }

    /** When a wait for the exit ends that begins at t and takes at most d. */
    function Until(t: nat, d: nat): nat {
      if world.exitAt.Some? && world.exitAt.value <= t + d then Max(t, world.exitAt.value) else t + d
    }

    /** Waits until the exit can be received, at most d. At the very end of d either may win. */
    method WaitTimeout(d: nat) returns (exited: bool)
      modifies `now
      ensures now == Until(old(now), d)
      ensures exited ==> world.exitAt.Some? && world.exitAt.value <= now
      ensures !exited ==> now == old(now) + d && (world.exitAt.None? || now <= world.exitAt.value)
    {
      if world.exitAt.None? || now + d < world.exitAt.value {
        now := now + d;
        return false;
      }
      exited := *;
      if world.exitAt.value < now + d { exited := true; }
      if exited {
        now := Max(now, world.exitAt.value);
      } else {
        now := now + d;
      }
    }

    /** The guest has agreed to shut down. */
    predicate Agrees() {
      world.answered && world.answer <= RPC_LIMIT
    }

    /** How stopping the VM goes that begins at t: with no kill only if the guest agrees and the child
        exits in time; otherwise with a kill, and a wait for the exit. */
    predicate VmEnds(t: nat, end: nat, killed: bool) {
      var agrees := world.answered && world.answer <= 10_000;
      var asked := t + Min(world.answer, 10_000);
      && (!killed ==> agrees && world.exitAt.Some? && end == Max(asked, world.exitAt.value) <= asked + 10_000)
      && (killed && agrees ==> (world.exitAt.None? || asked + 10_000 <= world.exitAt.value)
                               && end == Until(asked + 10_000, 5_000))
      && (killed && !agrees ==> end == Until(asked, 5_000))
    }

    /** Asks the guest to shut down; kills the child when that fails or takes too long. */
    method StopVm() returns (killed: bool)
      modifies `now
      ensures old(now) <= now <= old(now) + RPC_LIMIT + EXIT_LIMIT + KILL_LIMIT
      ensures VmEnds(old(now), now, killed)
    {
      now := now + Min(world.answer, RPC_LIMIT);
      if Agrees() {
        var exited := WaitTimeout(EXIT_LIMIT);
        if exited { return false; }
      }
      killed := true;
      var _ := WaitTimeout(KILL_LIMIT);
    }

    /** Stopped is not shown by time t unless Stop sets it. */
    predicate NotShownBy(t: int) {
      world.stoppedAt.None? || t < world.stoppedAt.value
    }

    /** The wait for the monitor: returns as soon as a look shows Stopped, and after the deadline sets it.
        When a tick and the deadline are due together, either may be taken. */
    method AwaitStopped(hasNet: bool) returns (ticks: nat)
      requires !forced
      modifies this
      ensures ShowsStopped() && ticks <= POLL_LIMIT / POLL_TICK
      ensures old(now) <= now <= old(now) + POLL_LIMIT + CLOSE_LIMIT
      ensures forced ==>
        now == old(now) + POLL_LIMIT + (if hasNet then ClosingAt(old(downAt), old(now) + POLL_LIMIT) else 0)
      ensures forced ==> NotShownBy(old(now) + POLL_LIMIT - POLL_TICK)
      ensures !forced ==> now == old(now) + ticks * POLL_TICK && !NotShownBy(now)
      ensures !forced && ticks > 0 ==> NotShownBy(now - POLL_TICK)
    {
      var deadline := now + POLL_LIMIT;
      ticks := 0;
      while !ShowsStopped()
        invariant !forced && downAt == old(downAt) && now == old(now) + ticks * POLL_TICK && now <= deadline
        invariant ticks > 0 ==> NotShownBy(now - POLL_TICK)
        decreases deadline - now
      {
        if now == deadline {
          if hasNet { CloseNetwork(); }
          forced := true;
          return;
        }
        now := now + POLL_TICK;
        var late := *;
        if now == deadline && late {
          if hasNet { CloseNetwork(); }
          forced := true;
          return;
        }
        ticks := ticks + 1;
      }
    }

    /** The world in which every wait runs to its limit. */
    predicate Worst() {
      world.closing >= 41_000 && world.answered && world.answer == RPC_LIMIT
      && world.exitAt.None? && world.stoppedAt.None?
    }

    /** Stop of a machine seen running: it returns only once Stopped is shown, after at most
        3 + 10 + 10 + 5 + 10 + 3 seconds, which the worst world makes it take. First the network is closed,
        until `closed`; then the VM is stopped, until `ended`; then Stop waits for Stopped. */
    method Stop(hasNet: bool, hasVm: bool) returns (ticks: nat, ghost closed: nat, ghost ended: nat, ghost killed: bool)
      requires !forced
      modifies this
      ensures ShowsStopped() && ticks <= 100
      ensures old(now) <= now <= old(now) + 41_000
      ensures !hasVm ==> now <= old(now) + 6_000
      ensures hasNet && hasVm && Worst() && (old(downAt).Some? ==> old(downAt).value >= old(now) + 41_000) ==>
        now == old(now) + 41_000
      ensures closed == old(now) + (if hasNet then ClosingAt(old(downAt), old(now)) else 0)
      ensures if hasVm then VmEnds(closed, ended, killed) else ended == closed && forced
      ensures forced ==> NotShownBy(ended + 9_900) || !hasVm
      ensures forced ==>
        var last := if hasVm then ended + 10_000 else ended;
        now == last + (if hasNet then ClosingAt(DownAfter(old(downAt), old(now)), last) else 0)
      ensures !forced ==>
        now == ended + 100 * ticks && !NotShownBy(now) && (ticks > 0 ==> NotShownBy(now - 100))
    {
      ticks, killed := 0, false;
      if hasNet { CloseNetwork(); }
      closed, ended := now, now;
      if hasVm {
        var kill := StopVm();
        killed, ended := kill, now;
        ticks := AwaitStopped(hasNet);
        return;
      }
      if hasNet { CloseNetwork(); }
      forced := true;
    }
  }
}

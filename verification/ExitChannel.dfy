/** How a VM announces its exit: a channel with room for one error, filled and then closed by the
    goroutine that reaps the child, and received from by any number of waiters. */
module ExitChannel {
  import opened Options

  type Error = nat

  /** Where the reaping goroutine is. */
  datatype Reaper = Reaping | Sending(err: Error) | Closing | Gone

  /** What one Wait or WaitTimeout call returned. Wait never times out. */
  datatype Outcome = Exited(err: Option<Error>) | TimedOut

  datatype Vm = Vm(
    reaper: Reaper,
    buffer: Option<Error>,
    closed: bool,
    exit: Option<Option<Error>>,  // what reaping the child gave, once it is reaped
    results: seq<Outcome>)        // of the calls that have returned, in order

  const STARTED := Vm(Reaping, None, false, None, [])

  datatype Action = Reap(result: Option<Error>) | Send | Close | Receive | GiveUp

  predicate Enabled(vm: Vm, a: Action) {
    match a
    case Reap(_) => vm.reaper.Reaping?
    case Send => vm.reaper.Sending? && vm.buffer.None?
    case Close => vm.reaper.Closing?
    case Receive => vm.buffer.Some? || vm.closed
    case GiveUp => true
  }

  function Apply(vm: Vm, a: Action): Vm
    requires Enabled(vm, a)
  {
    match a
    case Reap(result) =>
      vm.(reaper := if result.Some? then Sending(result.value) else Closing, exit := Some(result))
    case Send => vm.(reaper := Closing, buffer := Some(vm.reaper.err))
    case Close => vm.(reaper := Gone, closed := true)
    case Receive => vm.(buffer := None, results := vm.results + [Exited(vm.buffer)])
    case GiveUp => vm.(results := vm.results + [TimedOut])
  }

  predicate Legal(vm: Vm, acts: seq<Action>)
    decreases |acts|
  {
    acts == [] || (Enabled(vm, acts[0]) && Legal(Apply(vm, acts[0]), acts[1..]))
  }

  function Exec(vm: Vm, acts: seq<Action>): Vm
    requires Legal(vm, acts)
    decreases |acts|
  {
    if acts == [] then vm else Exec(Apply(vm, acts[0]), acts[1..])
  }

  function Errors(rs: seq<Outcome>): nat {
    if rs == [] then 0
    else Errors(rs[..|rs| - 1]) + (if rs[|rs| - 1].Exited? && rs[|rs| - 1].err.Some? then 1 else 0)
  }

  predicate Received(rs: seq<Outcome>) {
    exists i | 0 <= i < |rs| :: rs[i].Exited?
  }

  predicate Failed(vm: Vm) {
    vm.exit.Some? && vm.exit.value.Some?
  }

  function Held(vm: Vm): nat {
    if vm.reaper.Sending? || vm.buffer.Some? then 1 else 0
  }

  /** The error is with the reaper, in the channel, or with the one call that returned it. */
  predicate Consistent(vm: Vm) {
    && (vm.reaper.Reaping? <==> vm.exit.None?)
    && (vm.closed <==> vm.reaper.Gone?)
    && Errors(vm.results) + Held(vm) == (if Failed(vm) then 1 else 0)
    && !(vm.reaper.Sending? && vm.buffer.Some?)
    && (vm.reaper.Sending? ==> vm.exit == Some(Some(vm.reaper.err)))
    && (vm.buffer.Some? ==> vm.exit == Some(vm.buffer))
    && (Received(vm.results) ==> vm.exit.Some? && !vm.reaper.Sending? && vm.buffer.None?)
    && (forall i | 0 <= i < |vm.results| && vm.results[i].Exited? && vm.results[i].err.Some? ::
          vm.exit == Some(vm.results[i].err))
  }

  lemma Returned(rs: seq<Outcome>, o: Outcome)
    ensures Errors(rs + [o]) == Errors(rs) + (if o.Exited? && o.err.Some? then 1 else 0)
    ensures Received(rs + [o]) <==> Received(rs) || o.Exited?
  {
    var rs' := rs + [o];
    assert rs'[..|rs'| - 1] == rs && rs'[|rs|] == o;
    assert forall i | 0 <= i < |rs| :: rs'[i] == rs[i];
  }

  lemma ReaperStep(vm: Vm, a: Action)
    requires Consistent(vm) && Enabled(vm, a) && (a.Reap? || a.Send? || a.Close?)
    ensures Consistent(Apply(vm, a))
  {}

  lemma CallStep(vm: Vm, a: Action)
    requires Consistent(vm) && Enabled(vm, a) && (a.Receive? || a.GiveUp?)
    ensures Consistent(Apply(vm, a))
  {
    var vm' := Apply(vm, a);
    Returned(vm.results, vm'.results[|vm.results|]);
  }

  lemma ConsistentStep(vm: Vm, a: Action)
    requires Consistent(vm) && Enabled(vm, a)
    ensures Consistent(Apply(vm, a))
  {
    if a.Receive? || a.GiveUp? {
      CallStep(vm, a);
    } else {
      ReaperStep(vm, a);
    }
  }

  lemma {:induction false} ConsistentAlways(vm: Vm, acts: seq<Action>)
    requires Consistent(vm) && Legal(vm, acts)
    ensures Consistent(Exec(vm, acts))
    decreases |acts|
  {
    if acts != [] {
      ConsistentStep(vm, acts[0]);
      ConsistentAlways(Apply(vm, acts[0]), acts[1..]);
    }
  }

  /** Over every interleaving of the reaper with any number of calls: at most one call returns the exit
      error, exactly one if the child failed and any receive completed; it is the child's error; a call
      that reports an exit is right; and once the channel is closed no call blocks. */
  lemma Broadcast(acts: seq<Action>)
    requires Legal(STARTED, acts)
    ensures var vm := Exec(STARTED, acts);
      && Errors(vm.results) <= (if Failed(vm) then 1 else 0)
      && (Failed(vm) && Received(vm.results) ==> Errors(vm.results) == 1)
      && (Received(vm.results) ==> vm.exit.Some?)
      && (forall i | 0 <= i < |vm.results| && vm.results[i].Exited? && vm.results[i].err.Some? ::
            vm.exit == Some(vm.results[i].err))
      && (vm.closed ==> Enabled(vm, Receive))
  {
    ConsistentAlways(STARTED, acts);
  }

  /** A time-out says nothing about the child: it may be reaped all the same. */
  lemma TimeOutMayBeLate(result: Option<Error>)
    ensures Legal(STARTED, [Reap(result), GiveUp])
    ensures var vm := Exec(STARTED, [Reap(result), GiveUp]); vm.exit.Some? && vm.results == [TimedOut]
  {
    var vm := Apply(STARTED, Reap(result));
    assert [Reap(result), GiveUp][1..] == [GiveUp] && [GiveUp][1..] == [];
    assert Legal(Apply(vm, GiveUp), []);
  }

  /** Reaping, sending and closing take three steps at most, and nothing but the reaper is needed. */
  lemma ReaperFinishes(vm: Vm)
    requires Consistent(vm) && vm.exit.Some?
    ensures !vm.closed ==> Enabled(vm, Send) || Enabled(vm, Close)
    ensures Enabled(vm, Send) ==> Enabled(Apply(vm, Send), Close)
    ensures Enabled(vm, Close) ==> Apply(vm, Close).closed
  {}

  lemma {:induction false} LegalConcat(vm: Vm, xs: seq<Action>, ys: seq<Action>)
    requires Legal(vm, xs) && Legal(Exec(vm, xs), ys)
    ensures Legal(vm, xs + ys) && Exec(vm, xs + ys) == Exec(Exec(vm, xs), ys)
    decreases |xs|
  {
    if xs == [] {
      assert xs + ys == ys;
    } else {
      assert (xs + ys)[1..] == xs[1..] + ys;
      LegalConcat(Apply(vm, xs[0]), xs[1..], ys);
    }
  }

  lemma LastOf(rs: seq<Outcome>, o: Outcome)
    ensures (rs + [o])[..|rs|] == rs && (rs + [o])[|rs|] == o
  {}

  /** A VM's child. Unwatched: spawned, but killed at once because it could not be configured; there is
      no channel, and nobody waits for it. */
  datatype Child = NotSpawned | Unwatched | Watched(vm: Vm)

  /** How far Start gets. */
  datatype Spawn = Fails | FailsAfterSpawn | Works

  /** What a call of Wait or WaitTimeout has come to; Blocked when it still waits. */
  datatype Return = Blocked | Returned(err: Option<Error>, exited: bool)

  class Handle {
    var child: Child
    ghost var run: seq<Action>  // of the channel, since Start

    ghost predicate Valid()
      reads this
    {
      child.Watched? ==> Legal(STARTED, run) && Exec(STARTED, run) == child.vm && Consistent(child.vm)
    }

    constructor ()
      ensures Valid() && child == NotSpawned
    {
      child, run := NotSpawned, [];
    }

    method Act(a: Action)
      requires Valid() && child.Watched? && Enabled(child.vm, a)
      modifies this
      ensures Valid() && child == Watched(Apply(old(child).vm, a)) && run == old(run) + [a]
    {
      ConsistentStep(child.vm, a);
      assert [a][1..] == [];
      LegalConcat(STARTED, run, [a]);
      child := Watched(Apply(child.vm, a));
      run := run + [a];
    }

    /** Anything the reaper and other calls may do; callers know no more than the contract. */
    method Others()
      requires Valid()
      modifies this
      ensures Valid() && old(run) <= run
      ensures child.Watched? == old(child).Watched? && (!child.Watched? ==> child == old(child))
    {}

    /** After a successful Start a reaper is at work that has announced nothing; otherwise there is
        nothing to wait for, whether or not a child was spawned. */
    method Start(spawn: Spawn) returns (ok: bool)
      requires Valid() && child == NotSpawned
      modifies this
      ensures Valid() && ok == child.Watched? && (ok <==> spawn == Works)
      ensures ok ==> child.vm.exit.None? && !Enabled(child.vm, Receive)
      ensures child == NotSpawned <==> spawn == Fails
    {
      match spawn {
        case Fails =>
        case FailsAfterSpawn => child := Unwatched;
        case Works => child, run := Watched(STARTED), [];
      }
      ok := child.Watched?;
    }

    /** What a call that reports the exit of a watched child has done: it was the one to receive, the
        child is reaped, and an error is the child's and given to nobody else. */
    ghost predicate Announced(err: Option<Error>)
      requires child.Watched?
      reads this
    {
      var vm := child.vm;
      && vm.exit.Some? && (err.Some? ==> vm.exit == Some(err))
      && |vm.results| > 0 && vm.results[|vm.results| - 1] == Exited(err)
      && (err.Some? ==> Errors(vm.results[..|vm.results| - 1]) == 0)
    }

    method ReceiveExit() returns (err: Option<Error>)
      requires Valid() && child.Watched? && Enabled(child.vm, Receive)
      modifies this
      ensures Valid() && old(run) <= run && child.Watched? && Announced(err)
    {
      err := child.vm.buffer;
      LastOf(child.vm.results, Exited(err));
      Act(Receive);
    }

    /** Blocks until something can be received; after the channel is closed it does not. */
    method Wait() returns (r: Return)
      requires Valid()
      modifies this
      ensures Valid() && old(run) <= run && child.Watched? == old(child).Watched?
      ensures r.Blocked? ==> child.Watched? && !child.vm.closed
      ensures r.Returned? && child.Watched? ==> Announced(r.err)
      ensures !child.Watched? ==> r == Returned(None, true)
    {
      Others();
      if !child.Watched? { return Returned(None, true); }
      if !Enabled(child.vm, Receive) { return Blocked; }
      var err := ReceiveExit();
      return Returned(err, true);
    }

    /** Gives up when the timer has fired; when something can be received too, either may win. */
    method WaitTimeout(fired: bool) returns (r: Return)
      requires Valid()
      modifies this
      ensures Valid() && old(run) <= run && child.Watched? == old(child).Watched?
      ensures r.Blocked? ==> child.Watched? && !child.vm.closed && !fired
      ensures r.Returned? && r.exited && child.Watched? ==> Announced(r.err)
      ensures r.Returned? && !r.exited ==> fired && child.Watched? && r.err == None
      ensures !child.Watched? ==> r == Returned(None, true)
    {
      Others();
      if !child.Watched? { return Returned(None, true); }
      var ready := Enabled(child.vm, Receive);
      if !ready && !fired { return Blocked; }
      var first := *;
      if ready && (first || !fired) {
        var err := ReceiveExit();
        return Returned(err, true);
      }
      Act(GiveUp);
      return Returned(None, false);
    }
  }
}

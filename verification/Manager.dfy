/** The manager's methods in the form of its code: each works on the shared maps in atomic sections,
    and anything the other goroutines may do happens in between. A ghost state follows along, so
    every method is shown to take only steps of the Lifecycle transition system. */
module Manager {
  import opened Options
  import opened Lifecycle
  import opened LifecycleSafety

  datatype Result = Ok | Rejected | Waiting  // Waiting: still blocked when the observation ends

  /** Steps that are not goroutine t's. */
  predicate Foreign(a: Action, t: Tid) {
    match a
    case BeginStart(u, _) => u != t
    case BeginStop(u, _) => u != t
    case Advance(u, _) => u != t
    case _ => true
  }

  /** Nothing else is kept from the others. */
  lemma ForeignExactly(a: Action, t: Tid)
    ensures !Foreign(a, t) <==>
      || (exists id :: a == BeginStart(t, id)) || (exists id :: a == BeginStop(t, id))
      || (exists outcome :: a == Advance(t, outcome))
  {
    match a
    case BeginStart(u, id) => assert u == t ==> a == BeginStart(t, id);
    case BeginStop(u, id) => assert u == t ==> a == BeginStop(t, id);
    case Advance(u, outcome) => assert u == t ==> a == Advance(t, outcome);
    case Create(_) =>
    case Delete(_) =>
    case ProcExit(_) =>
  }

  lemma {:induction false} LegalConcat(s: State, xs: seq<Action>, ys: seq<Action>)
    requires Legal(s, xs) && Legal(Exec(s, xs), ys)
    ensures Legal(s, xs + ys) && Exec(s, xs + ys) == Exec(Exec(s, xs), ys)
    decreases |xs|
  {
    if xs == [] {
      assert xs + ys == ys;
    } else {
      assert (xs + ys)[1..] == xs[1..] + ys;
      LegalConcat(Apply(s, xs[0]), xs[1..], ys);
    }
  }

  lemma ForeignStep(s: State, a: Action, t: Tid)
    requires Enabled(s, a) && Foreign(a, t)
    ensures t in Apply(s, a).threads <==> t in s.threads
    ensures t in s.threads ==> Apply(s, a).threads[t] == s.threads[t]
    ensures s.state.Keys <= Apply(s, a).state.Keys
  {}

  /** Other goroutines do not move goroutine t, nor create it. */
  lemma {:induction false} ForeignKeeps(s: State, acts: seq<Action>, t: Tid)
    requires Legal(s, acts) && forall i :: 0 <= i < |acts| ==> Foreign(acts[i], t)
    ensures t in Exec(s, acts).threads <==> t in s.threads
    ensures t in s.threads ==> Exec(s, acts).threads[t] == s.threads[t]
    ensures s.state.Keys <= Exec(s, acts).state.Keys
    decreases |acts|
  {
    if acts != [] {
      ForeignStep(s, acts[0], t);
      ForeignKeeps(Apply(s, acts[0]), acts[1..], t);
    }
  }

  /** A run that is over at one moment is so ever after. */
  ghost predicate StaysOver(s: State, s': State, run: Run) {
    && (run in s.procs && s.procs[run] == Exited ==> run in s'.procs && s'.procs[run] == Exited)
    && (run in s.owner && run !in s.open ==> run in s'.owner && run !in s'.open)
    && (run in s.aborted ==> run in s'.aborted)
  }

  lemma {:induction false} OverAlong(s: State, acts: seq<Action>, run: Run)
    requires Inv(s) && Legal(s, acts)
    ensures StaysOver(s, Exec(s, acts), run)
    decreases |acts|
  {
    if acts != [] {
      StepGrows(s, acts[0]);
      InvStep(s, acts[0]);
      OverAlong(Apply(s, acts[0]), acts[1..], run);
    }
  }

  lemma {:induction false} LegalSplit(s: State, xs: seq<Action>, ys: seq<Action>)
    requires Legal(s, xs + ys)
    ensures Legal(s, xs) && Legal(Exec(s, xs), ys) && Exec(s, xs + ys) == Exec(Exec(s, xs), ys)
    decreases |xs|
  {
    if xs == [] {
      assert xs + ys == ys;
    } else {
      assert (xs + ys)[1..] == xs[1..] + ys;
      LegalSplit(Apply(s, xs[0]), xs[1..], ys);
    }
  }

  function Stage(trace: seq<Action>, k: nat): seq<Action>
    requires k <= |trace|
  {
    trace[..k]
  }

  /** The trace is a run of the system, kept its invariant all along, and has led to model. */
  ghost predicate History(trace: seq<Action>, model: State) {
    forall k: nat {:trigger Stage(trace, k)} | k <= |trace| ::
      && Legal(INIT, Stage(trace, k)) && Inv(Exec(INIT, Stage(trace, k)))
      && (k == |trace| ==> Exec(INIT, Stage(trace, k)) == model)
  }

  lemma HistoryNow(trace: seq<Action>, model: State)
    requires History(trace, model)
    ensures Legal(INIT, trace) && model == Exec(INIT, trace) && Inv(model)
  {
    assert Stage(trace, |trace|) == trace;
  }

  lemma OverSince(before: seq<Action>, s: State, trace: seq<Action>, model: State, run: Run)
    requires History(before, s) && History(trace, model) && before <= trace
    ensures StaysOver(s, model, run)
  {
    HistoryNow(before, s);
    HistoryNow(trace, model);
    var more := trace[|before|..];
    assert trace == before + more;
    LegalSplit(INIT, before, more);
    OverAlong(s, more, run);
  }

  /** Between its two accesses a goroutine has the mutex, and the maps are as it left them. */
  lemma HeldHalf(trace: seq<Action>, model: State, t: Tid)
    requires History(trace, model) && t in model.threads && model.threads[t].Halfway()
    ensures model.lock == Some(t) && HalfDone(model, model.threads[t])
  {
    HistoryNow(trace, model);
    assert model.threads[t].HoldsLock();
  }

  lemma Known(trace: seq<Action>, model: State, t: Tid)
    requires History(trace, model) && t in model.threads
    ensures ThreadKnown(model, model.threads[t])
  {
    HistoryNow(trace, model);
  }

  lemma AbortedIsKilled(trace: seq<Action>, model: State, run: Run)
    requires History(trace, model) && run in model.aborted
    ensures run in model.procs && model.procs[run] == Killed
  {
    HistoryNow(trace, model);
  }

  lemma HistoryBegins()
    ensures History([], INIT)
  {
    forall k: nat | k <= 0
      ensures Legal(INIT, Stage([], k)) && Exec(INIT, Stage([], k)) == INIT
    {
      assert Stage([], k) == [];
    }
  }

  lemma HistoryStep(trace: seq<Action>, model: State, a: Action)
    requires History(trace, model) && Enabled(model, a)
    ensures History(trace + [a], Apply(model, a))
  {
    HistoryNow(trace, model);
    InvStep(model, a);
    assert [a][1..] == [];
    LegalConcat(INIT, trace, [a]);
    forall k: nat | k <= |trace| + 1
      ensures Legal(INIT, Stage(trace + [a], k)) && Inv(Exec(INIT, Stage(trace + [a], k)))
      ensures k == |trace| + 1 ==> Exec(INIT, Stage(trace + [a], k)) == Apply(model, a)
    {
      if k <= |trace| {
        assert Stage(trace + [a], k) == Stage(trace, k);
      } else {
        assert Stage(trace + [a], k) == trace + [a];
      }
    }
  }

  /** What a call may find out about a machine. */
  datatype Finding = IsStopped | IsStopping | NoneRuns | CannotStart | CannotStop | ListedAs(run: Run)

  ghost predicate Finds(s: State, id: Id, f: Finding) {
    match f
    case IsStopped => id in s.state && s.state[id] == Stopped
    case IsStopping => id in s.state && s.state[id] == Stopping
    case NoneRuns => forall r :: r in s.procs && r in s.owner && s.owner[r] == id ==> s.procs[r] != Up
    case CannotStart => !(id in s.registered && id in s.state && s.state[id] in {Created, Stopped})
    case CannotStop => !(id in s.registered && id in s.state && s.state[id] == Running)
    case ListedAs(run) => Lookup(s.vms, id) == Some(run) && Lookup(s.networks, id) == Some(run)
  }

  /** The machine was so after the first k steps of the trace. */
  ghost predicate SeenIn(trace: seq<Action>, id: Id, f: Finding, k: nat) {
    k <= |trace| && Legal(INIT, Stage(trace, k)) && Finds(Exec(INIT, Stage(trace, k)), id, f)
  }

  lemma SeenNow(trace: seq<Action>, model: State, id: Id, f: Finding)
    requires History(trace, model) && Finds(model, id, f)
    ensures SeenIn(trace, id, f, |trace|)
  {
    HistoryNow(trace, model);
    assert Stage(trace, |trace|) == trace;
  }

  lemma SeenStays(trace: seq<Action>, longer: seq<Action>, id: Id, f: Finding, k: nat)
    requires SeenIn(trace, id, f, k) && trace <= longer
    ensures SeenIn(longer, id, f, k)
  {
    assert Stage(trace, k) == Stage(longer, k);
  }

  lemma {:induction false} DisciplinedPrefix(s: State, xs: seq<Action>, ys: seq<Action>)
    requires Disciplined(s, xs + ys, ALL)
    ensures Disciplined(s, xs, ALL)
    decreases |xs|
  {
    if xs != [] {
      assert (xs + ys)[1..] == xs[1..] + ys;
      DisciplinedPrefix(Apply(s, xs[0]), xs[1..], ys);
    }
  }

  /** When callers keep the rules, no child of a machine that was seen Stopped ran at that moment. */
  lemma StoppedMeansDown(trace: seq<Action>, id: Id, k: nat)
    requires SeenIn(trace, id, IsStopped, k) && Disciplined(INIT, trace, ALL)
    ensures SeenIn(trace, id, NoneRuns, k)
  {
    assert trace == Stage(trace, k) + trace[k..];
    DisciplinedPrefix(INIT, Stage(trace, k), trace[k..]);
    DisciplinedRunsAreSafe(Stage(trace, k));
    DownIn(Exec(INIT, Stage(trace, k)), id);
  }

  lemma DownIn(s: State, id: Id)
    requires Safe(s) && In(s, id, {Created, Stopped})
    ensures Finds(s, id, NoneRuns)
  {
    forall r | r in s.procs && r in s.owner && s.owner[r] == id
      ensures s.procs[r] != Up
    {
      assert Owner(s, r) == Some(id);
    }
  }

  /** At some moment after the first `since` steps the machine was unknown or not running. */
  ghost predicate DownSince(trace: seq<Action>, id: Id, since: nat) {
    exists k :: since <= k && SeenIn(trace, id, CannotStop, k)
  }

  lemma DownEarlier(trace: seq<Action>, id: Id, since: nat, later: nat)
    requires since <= later && DownSince(trace, id, later)
    ensures DownSince(trace, id, since)
  {
    var k :| later <= k && SeenIn(trace, id, CannotStop, k);
  }

  lemma DownStays(trace: seq<Action>, longer: seq<Action>, since: nat)
    requires trace <= longer
    ensures forall id :: DownSince(trace, id, since) ==> DownSince(longer, id, since)
  {
    forall id | DownSince(trace, id, since)
      ensures DownSince(longer, id, since)
    {
      var k :| since <= k && SeenIn(trace, id, CannotStop, k);
      SeenStays(trace, longer, id, CannotStop, k);
    }
  }

  class Manager {
    var machines: set<Id>
    var states: map<Id, MState>
    var vms: map<Id, Run>
    var networks: map<Id, Run>
    var lock: Option<Tid>
    var procs: map<Run, Proc>  // the children's process table
    var next: Run
    var open: set<Run>         // the virtual networks that are not closed
    ghost var model: State
    ghost var trace: seq<Action>

    ghost predicate Valid()
      reads this
    {
      && History(trace, model)
      && machines == model.registered && states == model.state
      && vms == model.vms && networks == model.networks && lock == model.lock
      && procs == model.procs && next == model.next && open == model.open
    }

    constructor ()
      ensures Valid() && model == INIT
    {
      machines, states, vms, networks := {}, map[], map[], map[];
      lock, procs, next, open := None, map[], 0, {};
      model, trace := INIT, [];
      HistoryBegins();
    }

    /** Anything the other goroutines may do; callers know no more than the contract. */
    method Interference(ghost t: Tid) returns (ghost others: seq<Action>)
      requires Valid()
      modifies this
      ensures Valid()
      ensures forall i :: 0 <= i < |others| ==> Foreign(others[i], t)
      ensures Legal(old(model), others) && model == Exec(old(model), others)
      ensures trace == old(trace) + others
    {
      others := [];
      assert trace + [] == trace;
    }

    ghost method Note(a: Action)
      requires History(trace, model) && Enabled(model, a)
      modifies `model, `trace
      ensures History(trace, model)
      ensures model == Apply(old(model), a) && trace == old(trace) + [a]
    {
      HistoryStep(trace, model, a);
      model := Apply(model, a);
      trace := trace + [a];
    }

    /** Where goroutine t is; None when it does not run (any more). */
    ghost function At(t: Tid): Option<Thread>
      reads this
    {
      if t in model.threads then Some(model.threads[t]) else None
    }

    /** Lets the others run; afterwards goroutine t is where it was. */
    method Yield(ghost t: Tid)
      requires Valid()
      modifies this
      ensures Valid() && old(trace) <= trace && At(t) == old(At(t))
      ensures old(states.Keys) <= states.Keys
      ensures At(t).Some? ==> At(t).value.id in states
    {
      ghost var before := model;
      ghost var others := Interference(t);
      ForeignKeeps(before, others, t);
      HistoryNow(trace, model);
      assert t in model.threads ==> ThreadKnown(model, model.threads[t]);
    }

    /** What goroutine t's next step does. */
    ghost function Next(t: Tid, outcome: Outcome): Effect
      requires t in model.threads
      reads this
    {
      EffectOf(model, model.threads[t], outcome)
    }

    /** t's next step leaves the mutex and the maps alone, and begins no run. */
    ghost predicate Plain(t: Tid, outcome: Outcome)
      reads this
    {
      && Enabled(model, Advance(t, outcome)) && t in model.threads
      && !BeginsRun(model.threads[t], outcome)
      && var e := Next(t, outcome); e.vm == Keep && e.net == Keep && (e.next.Some? ==> !e.next.value.Halfway())
    }

    /** A step of t that touches nothing the manager or the machine holds. */
    ghost method Go(t: Tid, outcome: Outcome)
      requires Valid() && Plain(t, outcome) && !model.threads[t].HoldsLock()
      requires var e := Next(t, outcome); e.sets == None && e.proc == None && e.closes == None
      modifies `model, `trace
      ensures Valid() && trace == old(trace) + [Advance(t, outcome)]
      ensures At(t) == old(Next(t, outcome).next)
    {
      Note(Advance(t, outcome));
    }

    method SetState(t: Tid, id: Id, st: MState)
      requires Valid() && Plain(t, Good) && !model.threads[t].HoldsLock() && model.threads[t].id == id
      requires var e := Next(t, Good); e.sets == Some(st) && e.proc == None && e.closes == None
      modifies this
      ensures Valid() && trace == old(trace) + [Advance(t, Good)]
      ensures At(t) == old(Next(t, Good).next)
      ensures states == old(states)[id := st] && procs == old(procs) && open == old(open)
    {
      states := states[id := st];
      Note(Advance(t, Good));
    }

    /** The end of Start's admission: sets Starting and gives the mutex back. */
    method SetStarting(t: Tid, id: Id)
      requires Valid() && At(t) == Some(StartChecked(id)) && id in states
      modifies this
      ensures Valid() && trace == old(trace) + [Advance(t, Good)]
      ensures At(t) == Some(StartBegun(id)) && states == old(states)[id := Starting] && lock == None
    {
      states := states[id := Starting];
      lock := None;
      Note(Advance(t, Good));
    }

    method SetProc(t: Tid, run: Run, p: Proc, ghost outcome: Outcome)
      requires Valid() && Plain(t, outcome) && !model.threads[t].HoldsLock()
      requires var e := Next(t, outcome); e.sets == None && e.proc == Some((run, p)) && e.closes == None
      modifies this
      ensures Valid() && trace == old(trace) + [Advance(t, outcome)]
      ensures At(t) == old(Next(t, outcome).next)
      ensures procs == old(procs)[run := p]
    {
      procs := procs[run := p];
      Note(Advance(t, outcome));
    }

    method CloseNetwork(t: Tid, run: Run, ghost outcome: Outcome)
      requires Valid() && Plain(t, outcome) && !model.threads[t].HoldsLock()
      requires var e := Next(t, outcome); e.sets == None && e.proc == None && e.closes == Some(run)
      modifies this
      ensures Valid() && trace == old(trace) + [Advance(t, outcome)]
      ensures At(t) == old(Next(t, outcome).next)
      ensures open == old(open) - {run} && procs == old(procs)
      ensures states == old(states) && model.owner == old(model.owner)
    {
      open := open - {run};
      Note(Advance(t, outcome));
    }

    method ListVm(t: Tid, id: Id, run: Run)
      requires Valid() && lock == None && At(t) == Some(StartUp(id, run)) && id in states
      modifies this
      ensures Valid() && old(trace) <= trace && At(t) == Some(StartListing(id, run))
    {
      lock := Some(t);
      vms := vms[id := run];
      Note(Advance(t, Good));
    }

    method ListNetwork(t: Tid, id: Id, run: Run)
      requires Valid() && At(t) == Some(StartListing(id, run)) && id in states
      modifies this
      ensures Valid() && old(trace) <= trace && At(t) == Some(StartListed(id, run))
      ensures id in states && Finds(model, id, ListedAs(run))
    {
      HeldHalf(trace, model, t);
      networks := networks[id := run];
      lock := None;
      Note(Advance(t, Good));
    }

    /** The two writes to the maps, under the mutex. */
    method ListRun(t: Tid, id: Id, run: Run)
      requires Valid() && lock == None && At(t) == Some(StartUp(id, run)) && id in states
      modifies this
      ensures Valid() && old(trace) <= trace && At(t) == Some(StartListed(id, run))
      ensures id in states && Finds(model, id, ListedAs(run))
    {
      ListVm(t, id, run);
      Yield(t);
      ListNetwork(t, id, run);
    }

    method UnlistVm(t: Tid, id: Id)
      requires Valid() && lock == None && t in model.threads && model.threads[t].id == id && id in states
      requires model.threads[t].MonStopped? || model.threads[t].StopForced?
      modifies this
      ensures Valid() && old(trace) <= trace && At(t) == old(Next(t, Good).next)
    {
      lock := Some(t);
      vms := vms - {id};
      Note(Advance(t, Good));
    }

    method UnlistNetwork(t: Tid, id: Id)
      requires Valid() && t in model.threads && model.threads[t].id == id && id in states
      requires model.threads[t].MonUnlisting? || model.threads[t].StopUnlisting?
      modifies this
      ensures Valid() && old(trace) <= trace && At(t) == None && id !in vms && id !in networks
    {
      HeldHalf(trace, model, t);
      networks := networks - {id};
      lock := None;
      Note(Advance(t, Good));
    }

    /** The two deletions from the maps, under the mutex. */
    method UnlistRun(t: Tid, id: Id)
      requires Valid() && lock == None && t in model.threads && model.threads[t].id == id && id in states
      requires model.threads[t].MonStopped? || model.threads[t].StopForced?
      modifies this
      ensures Valid() && old(trace) <= trace && At(t) == None && id !in vms && id !in networks
    {
      UnlistVm(t, id);
      Yield(t);
      UnlistNetwork(t, id);
    }

    method NewNetwork(t: Tid, id: Id) returns (run: Run)
      requires Valid() && At(t) == Some(StartBegun(id)) && id in states
      modifies this
      ensures Valid() && trace == old(trace) + [Advance(t, Good)]
      ensures At(t) == Some(StartNet(id, run))
    {
      run := next;
      next, open := next + 1, open + {run};
      Note(Advance(t, Good));
    }

    /** Registers a new machine. */
    method Create(id: Id) returns (r: Result)
      requires Valid() && id !in states
      modifies this
      ensures Valid() && old(trace) <= trace
      ensures r == if old(lock) == None then Ok else Waiting
      ensures r == Ok ==> machines == old(machines) + {id} && states == old(states)[id := Created]
    {
      if lock != None { return Waiting; }
      machines, states := machines + {id}, states[id := Created];
      Note(Action.Create(id));
      return Ok;
    }

    /** Removes a stopped machine; its goroutines may still be there. */
    method Delete(id: Id) returns (r: Result)
      requires Valid()
      modifies this
      ensures Valid() && old(trace) <= trace
      ensures r == Ok <==> old(lock) == None && id in old(machines) && id in old(states)
                           && old(states)[id] in {Stopped, Created}
      ensures machines == if r == Ok then old(machines) - {id} else old(machines)
    {
      if lock != None { return Waiting; }
      if id !in machines { return Rejected; }
      HistoryNow(trace, model);
      if states[id] != Stopped && states[id] != Created { return Rejected; }
      machines := machines - {id};
      Note(Action.Delete(id));
      return Ok;
    }

    method Lock(t: Tid, id: Id)
      requires Valid() && lock == None && At(t) == None && id in machines
      requires id in states && states[id] in {Created, Stopped}
      modifies this
      ensures Valid() && old(trace) <= trace && At(t) == Some(StartChecked(id))
    {
      lock := Some(t);
      Note(BeginStart(t, id));
    }

    /** Admission: the state is checked and set to Starting without letting go of the mutex. */
    method AdmitStart(t: Tid, id: Id) returns (r: Result)
      requires Valid() && At(t) == None
      modifies this
      ensures Valid() && old(trace) <= trace
      ensures r == if old(lock) != None then Waiting
                   else if id in old(machines) && id in old(states) && old(states)[id] in {Created, Stopped} then Ok
                   else Rejected
      ensures r != Ok ==> trace == old(trace) && model == old(model) && lock == old(lock)
      ensures r == Ok ==> At(t) == Some(StartBegun(id)) && id in states
      ensures r != Ok ==> At(t) == None
    {
      if lock != None { return Waiting; }
      if id !in machines { return Rejected; }
      HistoryNow(trace, model);
      if states[id] != Created && states[id] != Stopped { return Rejected; }
      Lock(t, id);
      Yield(t);
      SetStarting(t, id);
      return Ok;
    }

    /** Creates the network; a failure sets the machine back to Stopped. */
    method OpenNetwork(t: Tid, id: Id, netOk: bool) returns (r: Result, run: Run)
      requires Valid() && At(t) == Some(StartBegun(id)) && id in states
      modifies this
      ensures Valid() && old(trace) <= trace
      ensures r == if netOk then Ok else Rejected
      ensures r == Ok ==> At(t) == Some(StartNet(id, run))
      ensures r == Rejected ==> At(t) == None && Finds(model, id, IsStopped)
    {
      if netOk {
        run := NewNetwork(t, id);
        return Ok, run;
      }
      states := states[id := Stopped];
      Note(Advance(t, Bad));
      return Rejected, 0;
    }

    /** The child could not be configured: it is killed, and the network closed. */
    method KillChild(t: Tid, id: Id, run: Run)
      requires Valid() && At(t) == Some(StartNet(id, run)) && id in states
      modifies this
      ensures Valid() && old(trace) <= trace && At(t) == Some(StartFailed(id, run))
      ensures procs == old(procs)[run := Killed] && open == old(open) - {run} && run in model.aborted
      ensures states == old(states) && model.owner == old(model.owner)
    {
      procs := procs[run := Killed];
      open := open - {run};
      Note(Advance(t, BadAfterSpawn));
    }

    /** After a failed start the network is closed, and a child that was spawned is killed. */
    ghost predicate GivenUp(id: Id, run: Run, spawn: Outcome)
      reads this
    {
      && Finds(model, id, IsStopped) && run !in open
      && (spawn == BadAfterSpawn ==> run in procs && procs[run] != Up)
    }

    /** Shows Stopped after the network of the failed start has been closed. */
    method BackToStopped(t: Tid, id: Id, run: Run, ghost spawn: Outcome)
      requires Valid() && At(t) == Some(StartFailed(id, run)) && id in states
      requires run in model.owner && run !in open && (spawn == BadAfterSpawn ==> run in model.aborted)
      modifies this
      ensures Valid() && old(trace) <= trace && At(t) == None && GivenUp(id, run, spawn)
    {
      ghost var before, s := trace, model;
      Yield(t);
      OverSince(before, s, trace, model, run);
      if spawn == BadAfterSpawn { AbortedIsKilled(trace, model, run); }
      SetState(t, id, Stopped);
    }

    /** Spawns the VM; a failure closes the network and sets the machine back to Stopped. */
    method Spawn(t: Tid, id: Id, run: Run, spawn: Outcome) returns (r: Result)
      requires Valid() && At(t) == Some(StartNet(id, run)) && id in states
      modifies this
      ensures Valid() && old(trace) <= trace
      ensures r == if spawn == Good then Ok else Rejected
      ensures r == Ok ==> At(t) == Some(StartUp(id, run))
      ensures r == Rejected ==> At(t) == None && GivenUp(id, run, spawn)
    {
      Known(trace, model, t);
      match spawn {
        case Good =>
          SetProc(t, run, Up, Good);
          return Ok;
        case BadAfterSpawn => KillChild(t, id, run);
        case Bad => CloseNetwork(t, run, Bad);
      }
      BackToStopped(t, id, run, spawn);
      return Rejected;
    }

    method ListSeen(t: Tid, id: Id, run: Run) returns (ghost k: nat)
      requires Valid() && lock == None && At(t) == Some(StartUp(id, run)) && id in states
      modifies this
      ensures Valid() && old(trace) <= trace && At(t) == Some(StartListed(id, run))
      ensures k == |trace| && SeenIn(trace, id, ListedAs(run), k)
    {
      ListRun(t, id, run);
      SeenNow(trace, model, id, ListedAs(run));
      k := |trace|;
    }

    method ShowRunning(t: Tid, id: Id, run: Run)
      requires Valid() && At(t) == Some(StartListed(id, run))
      modifies this
      ensures Valid() && old(trace) < trace && At(t) == Some(StartShown(id, run))
      ensures id in states && states[id] == Running
    {
      Yield(t);
      SetState(t, id, Running);
    }

    /** Lists the VM and its network, and then shows the machine as running; the monitor is next. */
    method Publish(t: Tid, id: Id, run: Run) returns (r: Result, ghost k: nat)
      requires Valid() && At(t) == Some(StartUp(id, run)) && id in states
      modifies this
      ensures Valid() && old(trace) <= trace
      ensures r == if old(lock) == None then Ok else Waiting
      ensures r == Ok ==> |old(trace)| <= k < |trace| && SeenIn(trace, id, ListedAs(run), k)
      ensures r == Ok ==> At(t) == Some(StartShown(id, run)) && id in states && states[id] == Running
      ensures r == Waiting ==> At(t) == Some(StartUp(id, run)) && lock != None
    {
      k := 0;
      if lock != None { return Waiting, k; }
      k := ListSeen(t, id, run);
      ghost var seen := trace;
      ShowRunning(t, id, run);
      SeenStays(seen, trace, id, ListedAs(run), k);
      return Ok, k;
    }

    /** Why Start refused, k steps into the trace. */
    ghost predicate StartRefused(id: Id, netOk: bool, spawn: Outcome, k: nat)
      reads this
    {
      SeenIn(trace, id, CannotStart, k) || (!(netOk && spawn == Good) && SeenIn(trace, id, IsStopped, k))
    }

    /** The network and the VM, once Start is admitted. */
    method BringUp(t: Tid, id: Id, netOk: bool, spawn: Outcome) returns (r: Result, run: Run)
      requires Valid() && At(t) == Some(StartBegun(id)) && id in states
      modifies this
      ensures Valid() && old(trace) <= trace
      ensures r == if netOk && spawn == Good then Ok else Rejected
      ensures At(t) == if r == Ok then Some(StartUp(id, run)) else None
      ensures r == Rejected ==> Finds(model, id, IsStopped) && (netOk ==> GivenUp(id, run, spawn))
    {
      r, run := OpenNetwork(t, id, netOk);
      if r != Ok { return; }
      Yield(t);
      r := Spawn(t, id, run, spawn);
    }

    /** Everything in Start up to a spawned process. */
    method Bring(t: Tid, id: Id, netOk: bool, spawn: Outcome) returns (r: Result, run: Run, ghost k: nat)
      requires Valid() && At(t) == None
      modifies this
      ensures Valid() && old(trace) <= trace
      ensures At(t) == if r == Ok then Some(StartUp(id, run)) else None
      ensures r == Ok ==> netOk && spawn == Good
      ensures r == Rejected ==> |old(trace)| <= k && StartRefused(id, netOk, spawn, k)
      ensures r == Waiting ==> lock != None
    {
      run, k := 0, |trace|;
      r := AdmitStart(t, id);
      if r != Ok {
        if r == Rejected { SeenNow(trace, model, id, CannotStart); }
        return;
      }
      Yield(t);
      r, run := BringUp(t, id, netOk, spawn);
      k := |trace|;
      if r == Rejected { SeenNow(trace, model, id, IsStopped); }
    }

    method BecomeMonitor(t: Tid, id: Id, run: Run)
      requires Valid() && At(t) == Some(StartShown(id, run))
      modifies this
      ensures Valid() && old(trace) <= trace && At(t) == Some(MonWait(id, run))
    {
      Yield(t);
      Go(t, Good);
    }

    /** The rest of Start, once the process is spawned. */
    method Finish(t: Tid, id: Id, run: Run) returns (r: Result, ghost k: nat)
      requires Valid() && At(t) == Some(StartUp(id, run)) && id in states
      modifies this
      ensures Valid() && old(trace) <= trace && r != Rejected
      ensures r == Ok ==> At(t) == Some(MonWait(id, run))
      ensures r == Ok ==> |old(trace)| <= k && SeenIn(trace, id, ListedAs(run), k)
      ensures r == Waiting ==> lock != None
    {
      r, k := Publish(t, id, run);
      if r != Ok { return; }
      ghost var seen := trace;
      BecomeMonitor(t, id, run);
      SeenStays(seen, trace, id, ListedAs(run), k);
    }

    /** Start: Ok leaves the run's monitor behind, after VM and network were both listed. Rejected leaves
        nothing; the machine could not be started, or it is back at Stopped because its network or its
        VM failed. */
    method Start(t: Tid, id: Id, netOk: bool, spawn: Outcome) returns (r: Result, run: Run, ghost k: nat)
      requires Valid() && At(t) == None
      modifies this
      ensures Valid() && old(trace) <= trace
      ensures r == Ok ==> At(t) == Some(MonWait(id, run)) && netOk && spawn == Good
      ensures r == Ok ==> |old(trace)| <= k && SeenIn(trace, id, ListedAs(run), k)
      ensures r == Rejected ==> At(t) == None && |old(trace)| <= k && StartRefused(id, netOk, spawn, k)
      ensures r == Waiting ==> lock != None
    {
      Yield(t);
      r, run, k := Bring(t, id, netOk, spawn);
      if r != Ok { return; }
      Yield(t);
      r, k := Finish(t, id, run);
    }

    method AwaitExit(t: Tid, id: Id, run: Run) returns (r: Result)
      requires Valid() && At(t) == Some(MonWait(id, run)) && id in states
      modifies this
      ensures Valid() && old(trace) <= trace
      ensures At(t) == if r == Ok then Some(MonExited(id, run)) else Some(MonWait(id, run))
      ensures r != Ok ==> procs == old(procs)
      ensures r == if run in old(procs) && old(procs)[run] == Exited then Ok else Waiting
    {
      if run !in procs || procs[run] != Exited { return Waiting; }
      Go(t, Good);
      return Ok;
    }

    /** Sets Stopped and notes where in the trace that was. */
    method ShowStopped(t: Tid, id: Id) returns (ghost k: nat)
      requires Valid() && Enabled(model, Advance(t, Good)) && model.threads[t].id == id
      requires model.threads[t].MonClosed? || model.threads[t].StopForcing? || model.threads[t].StopNoVm?
      modifies this
      ensures Valid() && old(trace) <= trace && At(t) == old(Next(t, Good).next)
      ensures k == |trace| && SeenIn(trace, id, IsStopped, k)
    {
      SetState(t, id, Stopped);
      k := |trace|;
      SeenNow(trace, model, id, IsStopped);
    }

    /** Closes the network and shows the machine as stopped. */
    method WindUp(t: Tid, id: Id, run: Run) returns (ghost k: nat)
      requires Valid() && At(t) == Some(MonExited(id, run)) && id in states
      modifies this
      ensures Valid() && old(trace) <= trace && At(t) == Some(MonStopped(id, run)) && id in states
      ensures |old(trace)| <= k && SeenIn(trace, id, IsStopped, k)
    {
      CloseNetwork(t, run, Good);
      Yield(t);
      k := ShowStopped(t, id);
    }

    /** The run is over: the child is reaped, its network closed and the machine unlisted. */
    ghost predicate Over(id: Id, run: Run)
      reads this
    {
      run in procs && procs[run] == Exited && run !in open && id !in vms && id !in networks
    }

    method LastSteps(t: Tid, id: Id, run: Run)
      requires Valid() && lock == None && At(t) == Some(MonStopped(id, run)) && id in states
      modifies this
      ensures Valid() && old(trace) <= trace && At(t) == None && Over(id, run)
    {
      Known(trace, model, t);
      ghost var before, s := trace, model;
      UnlistRun(t, id);
      OverSince(before, s, trace, model, run);
    }

    method CleanUp(t: Tid, id: Id, run: Run) returns (r: Result)
      requires Valid() && At(t) == Some(MonStopped(id, run))
      modifies this
      ensures Valid() && old(trace) <= trace
      ensures r == Ok ==> At(t) == None && Over(id, run)
      ensures r != Ok ==> r == Waiting && At(t) == Some(MonStopped(id, run)) && lock != None
    {
      Yield(t);
      if lock != None { return Waiting; }
      LastSteps(t, id, run);
      return Ok;
    }

    /** The goroutine that Start leaves behind. It shows Stopped and then cleans up. */
    method Monitor(t: Tid, id: Id, run: Run) returns (r: Result, ghost k: nat)
      requires Valid() && At(t) == Some(MonWait(id, run))
      modifies this
      ensures Valid() && old(trace) <= trace
      ensures r == Ok ==> At(t) == None && Over(id, run)
      ensures r == Ok ==> |old(trace)| <= k && SeenIn(trace, id, IsStopped, k)
      ensures r != Ok ==> r == Waiting && At(t).Some? && RunOf(At(t).value) == Some(run)
      ensures r == Waiting ==> lock != None || run !in procs || procs[run] != Exited
    {
      k := 0;
      Yield(t);
      r := AwaitExit(t, id, run);
      if r != Ok { return; }
      Yield(t);
      k := WindUp(t, id, run);
      ghost var seen := trace;
      r := CleanUp(t, id, run);
      SeenStays(seen, trace, id, IsStopped, k);
    }

    /** Stop's look at the maps, and then at the state, which is not atomic with it. */
    method ReadForStop(t: Tid, id: Id) returns (r: Result, vm: Option<Run>, net: Option<Run>)
      requires Valid() && At(t) == None
      modifies this
      ensures Valid() && old(trace) <= trace
      ensures r == if old(lock) != None then Waiting else if id in old(machines) then Ok else Rejected
      ensures At(t) == if r == Ok then Some(StopRead(id, vm, net)) else None
      ensures r == Ok ==> vm == Lookup(old(vms), id) && net == Lookup(old(networks), id)
      ensures r != Ok ==> trace == old(trace) && model == old(model) && lock == old(lock)
    {
      vm, net := None, None;
      if lock != None { return Waiting, vm, net; }
      if id !in machines { return Rejected, vm, net; }
      vm, net := Lookup(vms, id), Lookup(networks, id);
      Note(BeginStop(t, id));
      return Ok, vm, net;
    }

    method CheckRunning(t: Tid, id: Id, vm: Option<Run>, net: Option<Run>) returns (r: Result)
      requires Valid() && At(t) == Some(StopRead(id, vm, net)) && id in states
      modifies this
      ensures Valid() && old(trace) <= trace
      ensures r == if old(states)[id] == Running then Ok else Rejected
      ensures At(t) == if r == Ok then Some(StopChecked(id, vm, net)) else None
      ensures states == old(states) && model.state == old(model.state)
    {
      r := if states[id] == Running then Ok else Rejected;
      Go(t, Good);
    }

    method CloseListed(t: Tid, id: Id, vm: Option<Run>, net: Option<Run>)
      requires Valid() && At(t) == Some(StopSet(id, vm, net)) && id in states
      modifies this
      ensures Valid() && old(trace) <= trace
      ensures At(t) == Some(if vm.Some? then StopVm(id, vm.value) else StopNoVm(id))
      ensures open == if net.Some? then old(open) - {net.value} else old(open)
    {
      if net.Some? {
        CloseNetwork(t, net.value, Good);
      } else {
        Go(t, Good);
      }
    }

    method ShowStopping(t: Tid, id: Id, vm: Option<Run>, net: Option<Run>) returns (ghost j: nat)
      requires Valid() && At(t) == Some(StopChecked(id, vm, net)) && id in states
      modifies this
      ensures Valid() && old(trace) <= trace && At(t) == Some(StopSet(id, vm, net))
      ensures j == |trace| && SeenIn(trace, id, IsStopping, j)
    {
      SetState(t, id, Stopping);
      j := |trace|;
      SeenNow(trace, model, id, IsStopping);
    }

    /** Sets Stopping and closes the network. */
    method BeginStopping(t: Tid, id: Id, vm: Option<Run>, net: Option<Run>) returns (ghost j: nat)
      requires Valid() && At(t) == Some(StopChecked(id, vm, net)) && id in states
      modifies this
      ensures Valid() && old(trace) <= trace
      ensures |old(trace)| <= j <= |trace| && SeenIn(trace, id, IsStopping, j)
      ensures At(t) == Some(if vm.Some? then StopVm(id, vm.value) else StopNoVm(id))
      ensures net.Some? ==> net.value !in open
    {
      j := ShowStopping(t, id, vm, net);
      ghost var seen := trace;
      Yield(t);
      CloseListed(t, id, vm, net);
      SeenStays(seen, trace, id, IsStopping, j);
    }

    /** Asks the guest to shut down and kills the process unless it is seen to exit. */
    method StopProcess(t: Tid, id: Id, run: Run, graceful: bool)
      requires Valid() && At(t) == Some(StopVm(id, run)) && id in states
      modifies this
      ensures Valid() && old(trace) <= trace && At(t) == Some(StopPoll(id))
      ensures procs == if run in old(procs) && old(procs)[run] == Up then old(procs)[run := Killed] else old(procs)
      ensures run in procs ==> procs[run] != Up
    {
      if graceful && run in procs && procs[run] == Exited {
        Go(t, Good);
      } else if run in procs && procs[run] == Up {
        SetProc(t, run, Killed, Bad);
      } else {
        Go(t, Bad);
      }
    }

    method UnlistForced(t: Tid, id: Id) returns (r: Result)
      requires Valid() && At(t) == Some(StopForced(id))
      modifies this
      ensures Valid() && old(trace) <= trace
      ensures if r == Ok then At(t) == None && id !in vms && id !in networks else r == Waiting && lock != None
    {
      Yield(t);
      if lock != None { return Waiting; }
      UnlistRun(t, id);
      return Ok;
    }

    /** After the deadline: sets Stopped, then unlists the machine. */
    method ForceStopped(t: Tid, id: Id) returns (r: Result, ghost k: nat)
      requires Valid() && At(t) == Some(StopForcing(id)) && id in states
      modifies this
      ensures Valid() && old(trace) <= trace
      ensures |old(trace)| <= k && SeenIn(trace, id, IsStopped, k)
      ensures if r == Ok then At(t) == None && id !in vms && id !in networks else r == Waiting && lock != None
    {
      k := ShowStopped(t, id);
      ghost var seen := trace;
      r := UnlistForced(t, id);
      SeenStays(seen, trace, id, IsStopped, k);
    }

    method StopWaiting(t: Tid, id: Id)
      requires Valid() && At(t) == Some(StopPoll(id))
      modifies this
      ensures Valid() && old(trace) <= trace && At(t) == Some(StopForcing(id)) && id in states
    {
      Yield(t);
      Go(t, Bad);
      Yield(t);
    }

    method PassDeadline(t: Tid, id: Id) returns (r: Result, ghost k: nat)
      requires Valid() && At(t) == Some(StopPoll(id))
      modifies this
      ensures Valid() && old(trace) <= trace
      ensures |old(trace)| <= k && SeenIn(trace, id, IsStopped, k)
      ensures if r == Ok then At(t) == None else r == Waiting && lock != None
    {
      StopWaiting(t, id);
      r, k := ForceStopped(t, id);
    }

    /** One look at the state; when it shows Stopped, Stop is done. */
    method Poll(t: Tid, id: Id) returns (seen: bool)
      requires Valid() && At(t) == Some(StopPoll(id)) && id in states
      modifies this
      ensures Valid() && old(trace) <= trace
      ensures seen == (old(states)[id] == Stopped)
      ensures if seen then At(t) == None && SeenIn(trace, id, IsStopped, |old(trace)|) else At(t) == Some(StopPoll(id))
    {
      seen := states[id] == Stopped;
      if seen {
        SeenNow(trace, model, id, IsStopped);
        Go(t, Good);
        SeenStays(old(trace), trace, id, IsStopped, |old(trace)|);
      }
    }

    /** Polls until the monitor has set Stopped, and forces it after the deadline. */
    method AwaitStopped(t: Tid, id: Id, ticks: nat) returns (r: Result, ghost k: nat)
      requires Valid() && At(t) == Some(StopPoll(id))
      modifies this
      ensures Valid() && old(trace) <= trace
      ensures |old(trace)| <= k && SeenIn(trace, id, IsStopped, k)
      ensures if r == Ok then At(t) == None else r == Waiting && lock != None
    {
      var tick := 0;
      while tick < ticks
        invariant Valid() && old(trace) <= trace && At(t) == Some(StopPoll(id))
      {
        Yield(t);
        k := |trace|;
        var seen := Poll(t, id);
        if seen { return Ok, k; }
        tick := tick + 1;
      }
      r, k := PassDeadline(t, id);
    }

    /** Nothing to stop but the network. */
    method StopWithoutVm(t: Tid, id: Id) returns (ghost k: nat)
      requires Valid() && At(t) == Some(StopNoVm(id)) && id in states
      modifies this
      ensures Valid() && old(trace) <= trace && At(t) == None
      ensures |old(trace)| <= k && SeenIn(trace, id, IsStopped, k)
    {
      k := ShowStopped(t, id);
    }

    /** What is left for Stop once the network is closed. */
    method EndRun(t: Tid, id: Id, vm: Option<Run>, graceful: bool, ticks: nat) returns (r: Result, ghost k: nat)
      requires Valid() && At(t) == Some(if vm.Some? then StopVm(id, vm.value) else StopNoVm(id))
      modifies this
      ensures Valid() && old(trace) <= trace
      ensures |old(trace)| <= k && SeenIn(trace, id, IsStopped, k)
      ensures if r == Ok then At(t) == None else r == Waiting && lock != None
    {
      Yield(t);
      if vm.Some? {
        StopProcess(t, id, vm.value, graceful);
        r, k := AwaitStopped(t, id, ticks);
      } else {
        k := StopWithoutVm(t, id);
        r := Ok;
      }
    }

    /** Stop, from the point where it has found the machine running. */
    method BringDown(t: Tid, id: Id, vm: Option<Run>, net: Option<Run>, graceful: bool, ticks: nat)
      returns (r: Result, ghost j: nat, ghost k: nat)
      requires Valid() && At(t) == Some(StopChecked(id, vm, net)) && id in states
      modifies this
      ensures Valid() && old(trace) <= trace
      ensures |old(trace)| <= j <= k && SeenIn(trace, id, IsStopping, j) && SeenIn(trace, id, IsStopped, k)
      ensures if r == Ok then At(t) == None else r == Waiting && lock != None
    {
      j := BeginStopping(t, id, vm, net);
      ghost var seen := trace;
      r, k := EndRun(t, id, vm, graceful, ticks);
      SeenStays(seen, trace, id, IsStopping, j);
    }

    /** The part of Stop that may refuse: the machine must be known, and running when it is looked at. */
    method FindRunning(t: Tid, id: Id) returns (r: Result, vm: Option<Run>, net: Option<Run>, ghost k: nat)
      requires Valid() && At(t) == None
      modifies this
      ensures Valid() && old(trace) <= trace
      ensures At(t) == if r == Ok then Some(StopChecked(id, vm, net)) else None
      ensures r == Rejected ==> |old(trace)| <= k && SeenIn(trace, id, CannotStop, k)
      ensures r == Waiting ==> lock != None
    {
      r, vm, net := ReadForStop(t, id);
      k := |trace|;
      if r != Ok {
        if r == Rejected { SeenNow(trace, model, id, CannotStop); }
        return;
      }
      Yield(t);
      r := CheckRunning(t, id, vm, net);
      k := |trace|;
      if r == Rejected { SeenNow(trace, model, id, CannotStop); }
    }

    /** Stop: when it reports success, the machine has been seen Stopping and then Stopped since the call,
        and, where callers keep the rules, none of its children ran at that moment; when it refuses, the
        machine was unknown or not running at some moment since the call. */
    method Stop(t: Tid, id: Id, graceful: bool, ticks: nat) returns (r: Result, ghost j: nat, ghost k: nat)
      requires Valid() && At(t) == None
      modifies this
      ensures Valid() && old(trace) <= trace
      ensures r != Waiting ==> At(t) == None && |old(trace)| <= k
      ensures r == Ok ==> |old(trace)| <= j <= k
      ensures r == Ok ==> SeenIn(trace, id, IsStopping, j) && SeenIn(trace, id, IsStopped, k)
      ensures r == Ok && Disciplined(INIT, trace, ALL) ==> SeenIn(trace, id, NoneRuns, k)
      ensures r == Rejected ==> SeenIn(trace, id, CannotStop, k)
      ensures r == Waiting ==> lock != None
    {
      j := 0;
      Yield(t);
      var vm, net;
      r, vm, net, k := FindRunning(t, id);
      if r != Ok { return; }
      Yield(t);
      r, j, k := BringDown(t, id, vm, net, graceful, ticks);
      if r == Ok && Disciplined(INIT, trace, ALL) { StoppedMeansDown(trace, id, k); }
    }

    /** The machines that are seen running, one look at a time. */
    method CollectRunning(t: Tid) returns (ids: seq<Id>)
      requires Valid() && At(t) == None
      modifies this
      ensures Valid() && old(trace) <= trace && At(t) == None
      ensures forall id :: id in old(machines) ==> id in ids || DownSince(trace, id, |old(trace)|)
    {
      ids := [];
      var left := machines;
      while left != {}
        invariant Valid() && old(trace) <= trace && At(t) == None
        invariant forall id :: id in old(machines) ==> id in left || id in ids || DownSince(trace, id, |old(trace)|)
        decreases left
      {
        ghost var before := trace;
        Yield(t);
        DownStays(before, trace, |old(trace)|);
        var id :| id in left;
        if id in states && states[id] == Running {
          ids := ids + [id];
        } else {
          SeenNow(trace, model, id, CannotStop);
        }
        left := left - {id};
      }
    }

    method StopOne(t: Tid, id: Id, graceful: bool, ticks: nat) returns (r: Result)
      requires Valid() && At(t) == None
      modifies this
      ensures Valid() && old(trace) <= trace
      ensures r != Waiting ==> At(t) == None && DownSince(trace, id, |old(trace)|)
      ensures r == Waiting ==> lock != None
    {
      ghost var j, k;
      r, j, k := Stop(t, id, graceful, ticks);
      assert r != Waiting ==> SeenIn(trace, id, CannotStop, k);
    }

    /** Stops every running machine: each machine known at the call has been seen not running since. */
    method StopAll(t: Tid, graceful: bool, ticks: nat) returns (r: Result)
      requires Valid() && At(t) == None
      modifies this
      ensures Valid() && old(trace) <= trace
      ensures r == Ok ==> At(t) == None
      ensures r == Ok ==> forall id :: id in old(machines) ==> DownSince(trace, id, |old(trace)|)
      ensures r != Ok ==> r == Waiting && lock != None
    {
      if lock != None { return Waiting; }
      var ids := CollectRunning(t);
      var i := 0;
      while i < |ids|
        invariant i <= |ids| && Valid() && old(trace) <= trace && At(t) == None
        invariant forall id :: id in old(machines) ==> id in ids[i..] || DownSince(trace, id, |old(trace)|)
      {
        ghost var before := trace;
        r := StopOne(t, ids[i], graceful, ticks);
        if r == Waiting { return; }
        DownStays(before, trace, |old(trace)|);
        DownEarlier(trace, ids[i], |old(trace)|, |before|);
        i := i + 1;
      }
      return Ok;
    }
  }
}

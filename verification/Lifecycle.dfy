/** The machine manager as a transition system. A step is one access of a goroutine to shared state (or
    one process event); a critical section of the manager's mutex that makes two accesses takes two
    steps and holds the mutex across them. */
module Lifecycle {
  import opened Options

  type Id = nat
  type Run = nat  // one execution of Start after admission: its network, its process, its monitor
  type Tid = nat

  datatype MState = Created | Starting | Running | Stopping | Stopped

  /** A VM's child process. Killed: the signal is sent, the process is not reaped. */
  datatype Proc = Up | Killed | Exited

  /** Where a goroutine is. */
  datatype Thread =
    | StartChecked(id: Id)              // may start; holds the manager's mutex
    | StartBegun(id: Id)                // state set to Starting
    | StartNet(id: Id, run: Run)        // network created
    | StartFailed(id: Id, run: Run)     // no VM, network closed
    | StartUp(id: Id, run: Run)         // process spawned
    | StartListing(id: Id, run: Run)    // VM listed, network not yet; holds the mutex
    | StartListed(id: Id, run: Run)     // in the manager's maps
    | StartShown(id: Id, run: Run)      // state set to Running
    | MonWait(id: Id, run: Run)         // the monitor of a run, waiting for the exit
    | MonExited(id: Id, run: Run)
    | MonClosed(id: Id, run: Run)       // network closed
    | MonStopped(id: Id, run: Run)      // state set to Stopped
    | MonUnlisting(id: Id, run: Run)    // VM unlisted, network not yet; holds the mutex
    | StopRead(id: Id, vm: Option<Run>, net: Option<Run>)  // maps read
    | StopChecked(id: Id, vm: Option<Run>, net: Option<Run>)  // state was Running
    | StopSet(id: Id, vm: Option<Run>, net: Option<Run>)   // state set to Stopping
    | StopVm(id: Id, run: Run)          // network closed, stopping the VM
    | StopPoll(id: Id)                  // waiting to see Stopped
    | StopForcing(id: Id)               // deadline passed
    | StopForced(id: Id)                // state set to Stopped
    | StopUnlisting(id: Id)             // VM unlisted, network not yet; holds the mutex
    | StopNoVm(id: Id)                  // nothing to stop but the network
  {
    predicate IsStart() {
      || StartChecked? || StartBegun? || StartNet? || StartFailed?
      || StartUp? || StartListing? || StartListed? || StartShown?
    }

    predicate IsMonitor() {
      MonWait? || MonExited? || MonClosed? || MonStopped? || MonUnlisting?
    }

    predicate IsStop() {
      !IsStart() && !IsMonitor()
    }

    /** Between the two map accesses of a critical section. */
    predicate Halfway() {
      StartListing? || MonUnlisting? || StopUnlisting?
    }

    predicate HoldsLock() {
      StartChecked? || Halfway()
    }
  }

  datatype State = State(
    registered: set<Id>,        // keys of the manager's machine map
    state: map<Id, MState>,     // every machine object ever created
    vms: map<Id, Run>,
    networks: map<Id, Run>,
    threads: map<Tid, Thread>,
    lock: Option<Tid>,
    owner: map<Run, Id>,
    latest: map<Id, Run>,
    procs: map<Run, Proc>,
    next: Run,
    open: set<Run>,             // networks not closed
    aborted: set<Run>)          // children that Start killed for it could not configure them; nobody waits for them

  const INIT := State({}, map[], map[], map[], map[], None, map[], map[], map[], 0, {}, {})

  /** Which way a step goes where the environment decides. */
  datatype Outcome = Good | Bad | BadAfterSpawn

  datatype Action =
    | Create(id: Id)
    | Delete(id: Id)
    | BeginStart(t: Tid, id: Id)
    | BeginStop(t: Tid, id: Id)
    | Advance(t: Tid, outcome: Outcome)
    | ProcExit(run: Run)

  function Lookup(m: map<Id, Run>, id: Id): (r: Option<Run>)
    ensures if id in m then r == Some(m[id]) else r == None
  {
    if id in m then Some(m[id]) else None
  }

  predicate Enabled(s: State, a: Action) {
    match a
    case Create(id) => s.lock == None && id !in s.state
    case Delete(id) =>
      s.lock == None && id in s.registered && id in s.state && s.state[id] in {Stopped, Created}
    case BeginStart(t, id) =>
      && s.lock == None && t !in s.threads && id in s.registered
      && id in s.state && s.state[id] in {Created, Stopped}
    case BeginStop(t, id) => s.lock == None && t !in s.threads && id in s.registered
    case ProcExit(run) => run in s.procs && s.procs[run] != Exited && run !in s.aborted
    case Advance(t, outcome) => t in s.threads && CanAdvance(s, t, s.threads[t], outcome)
  }

  predicate CanAdvance(s: State, t: Tid, th: Thread, outcome: Outcome) {
    && th.id in s.state
    && match th
       case StartUp(_, _) => s.lock == None
       case MonWait(_, run) => run in s.procs && s.procs[run] == Exited
       case MonStopped(_, _) => s.lock == None
       case StopVm(_, vm) => outcome == Good ==> vm in s.procs && s.procs[vm] == Exited
       case StopPoll(id) => outcome == Good ==> s.state[id] == Stopped
       case StopForced(_) => s.lock == None
       case _ => true
  }

  function Apply(s: State, a: Action): State
    requires Enabled(s, a)
  {
    match a
    case Create(id) => s.(registered := s.registered + {id}, state := s.state[id := Created])
    case Delete(id) => s.(registered := s.registered - {id})
    case BeginStart(t, id) => s.(lock := Some(t), threads := s.threads[t := StartChecked(id)])
    case BeginStop(t, id) =>
      s.(threads := s.threads[t := StopRead(id, Lookup(s.vms, id), Lookup(s.networks, id))])
    case ProcExit(run) => s.(procs := s.procs[run := Exited])
    case Advance(t, outcome) => Move(s, t, s.threads[t], outcome)
  }

  // What a goroutine's step changes -------------------------------------------------------------

  datatype Listing = Keep | Put(run: Run) | Drop

  /** The goroutine's next position (None when it returns), the machine state it sets, what it does to
      its machine's entry in each map, and what it does to networks and processes. */
  datatype Effect = Effect(
    next: Option<Thread>,
    sets: Option<MState>,
    vm: Listing,
    net: Listing,
    closes: Option<Run>,
    proc: Option<(Run, Proc)>)

  function Goes(th: Thread): Effect {
    Effect(Some(th), None, Keep, Keep, None, None)
  }

  function Returns(): Effect {
    Effect(None, None, Keep, Keep, None, None)
  }

  function EffectOf(s: State, th: Thread, outcome: Outcome): Effect {
    match th
    case StartChecked(id) => Goes(StartBegun(id)).(sets := Some(Starting))
    case StartBegun(id) =>
      if outcome == Good then Goes(StartNet(id, s.next)) else Returns().(sets := Some(Stopped))
    case StartNet(id, run) => (
      match outcome
      case Good => Goes(StartUp(id, run)).(proc := Some((run, Up)))
      case Bad => Goes(StartFailed(id, run)).(closes := Some(run))
      case BadAfterSpawn => Goes(StartFailed(id, run)).(closes := Some(run), proc := Some((run, Killed))))
    case StartFailed(id, _) => Returns().(sets := Some(Stopped))
    case StartUp(id, run) => Goes(StartListing(id, run)).(vm := Put(run))
    case StartListing(id, run) => Goes(StartListed(id, run)).(net := Put(run))
    case StartListed(id, run) => Goes(StartShown(id, run)).(sets := Some(Running))
    case StartShown(id, run) => Goes(MonWait(id, run))  // Start returns and its monitor goes on
    case MonWait(id, run) => Goes(MonExited(id, run))
    case MonExited(id, run) => Goes(MonClosed(id, run)).(closes := Some(run))
    case MonClosed(id, run) => Goes(MonStopped(id, run)).(sets := Some(Stopped))
    case MonStopped(id, run) => Goes(MonUnlisting(id, run)).(vm := Drop)
    case MonUnlisting(_, _) => Returns().(net := Drop)
    case StopRead(id, vm, net) =>
      if id in s.state && s.state[id] == Running then Goes(StopChecked(id, vm, net)) else Returns()
    case StopChecked(id, vm, net) => Goes(StopSet(id, vm, net)).(sets := Some(Stopping))
    case StopSet(id, vm, net) =>
      Goes(if vm.Some? then StopVm(id, vm.value) else StopNoVm(id)).(closes := net)
    case StopVm(id, run) =>
      Goes(StopPoll(id)).(proc := if outcome != Good && run in s.procs && s.procs[run] == Up
                                  then Some((run, Killed)) else None)
    case StopPoll(id) => if outcome == Good then Returns() else Goes(StopForcing(id))
    case StopForcing(id) => Goes(StopForced(id)).(sets := Some(Stopped))
    case StopForced(id) => Goes(StopUnlisting(id)).(vm := Drop)
    case StopUnlisting(_) => Returns().(net := Drop)
    case StopNoVm(_) => Returns().(sets := Some(Stopped))
  }

  predicate BeginsRun(th: Thread, outcome: Outcome) {
    th.StartBegun? && outcome == Good
  }

  function Aborts(th: Thread, outcome: Outcome): set<Run> {
    if th.StartNet? && outcome == BadAfterSpawn then {th.run} else {}
  }

  function List(m: map<Id, Run>, id: Id, l: Listing): map<Id, Run> {
    match l case Keep => m case Put(run) => m[id := run] case Drop => m - {id}
  }

  /** Goroutine t, at th, has effect e. */
  function Do(s: State, t: Tid, th: Thread, e: Effect, begins: bool, aborts: set<Run>): State {
    s.(threads := if e.next.Some? then s.threads[t := e.next.value] else s.threads - {t},
       lock := if e.next.Some? && e.next.value.Halfway() then Some(t) else if th.HoldsLock() then None else s.lock,
       state := if e.sets.Some? then s.state[th.id := e.sets.value] else s.state,
       vms := List(s.vms, th.id, e.vm),
       networks := List(s.networks, th.id, e.net),
       owner := if begins then s.owner[s.next := th.id] else s.owner,
       latest := if begins then s.latest[th.id := s.next] else s.latest,
       next := if begins then s.next + 1 else s.next,
       open := if begins then s.open + {s.next} else if e.closes.Some? then s.open - {e.closes.value} else s.open,
       procs := if e.proc.Some? then s.procs[e.proc.value.0 := e.proc.value.1] else s.procs,
       aborted := s.aborted + aborts)
  }

  function Move(s: State, t: Tid, th: Thread, outcome: Outcome): State {
    Do(s, t, th, EffectOf(s, th, outcome), BeginsRun(th, outcome), Aborts(th, outcome))
  }

  // Runs ----------------------------------------------------------------------------------------

  ghost predicate Legal(s: State, acts: seq<Action>)
    decreases |acts|
  {
    acts == [] || (Enabled(s, acts[0]) && Legal(Apply(s, acts[0]), acts[1..]))
  }

  ghost function Exec(s: State, acts: seq<Action>): State
    requires Legal(s, acts)
    decreases |acts|
  {
    if acts == [] then s else Exec(Apply(s, acts[0]), acts[1..])
  }

  // What holds without any assumption on the callers --------------------------------------------

  /** The run whose network, process and map entries this goroutine is there to clean up. */
  function RunOf(th: Thread): Option<Run> {
    if th.StartNet? || th.StartUp? || th.StartListing? || th.StartListed? || th.StartShown? || th.IsMonitor()
    then Some(th.run) else None
  }

  predicate Minds(s: State, t: Tid, run: Run) {
    t in s.threads && RunOf(s.threads[t]) == Some(run)
  }

  ghost predicate Minded(s: State, run: Run) {
    exists t :: Minds(s, t, run)
  }

  ghost predicate ThreadKnown(s: State, th: Thread) {
    && th.id in s.state
    && (RunOf(th).Some? ==> th.run in s.owner && s.owner[th.run] == th.id)
    && (th.StartNet? ==> th.run !in s.procs)
    && (RunOf(th).Some? && !th.StartNet? ==> th.run in s.procs)
    && (th.IsMonitor() && !th.MonWait? ==> s.procs[th.run] == Exited)
    && (th.MonClosed? || th.MonStopped? || th.MonUnlisting? ==> th.run !in s.open)
  }

  ghost predicate Sane(s: State) {
    && s.registered <= s.state.Keys
    && (forall r :: r in s.owner ==> r < s.next && s.owner[r] in s.state)
    && s.procs.Keys + s.open <= s.owner.Keys
    && (forall t :: t in s.threads ==> ThreadKnown(s, s.threads[t]))
    && (forall t, u, r :: Minds(s, t, r) && Minds(s, u, r) ==> t == u)
  }

  /** The manager's mutex is held by the one goroutine inside a critical section, and by no other. */
  ghost predicate Exclusive(s: State) {
    && (s.lock.Some? ==> s.lock.value in s.threads)
    && (forall t :: t in s.threads ==> (s.threads[t].HoldsLock() <==> s.lock == Some(t)))
  }

  /** A goroutine is between the two map accesses for this machine. */
  predicate Midway(s: State, id: Id) {
    s.lock.Some? && s.lock.value in s.threads && s.threads[s.lock.value].Halfway() && s.threads[s.lock.value].id == id
  }

  predicate Agree(s: State, id: Id) {
    Lookup(s.vms, id) == Lookup(s.networks, id) || Midway(s, id)
  }

  /** What the goroutine in between has done already. */
  predicate HalfDone(s: State, th: Thread) {
    && (th.StartListing? ==> Lookup(s.vms, th.id) == Some(th.run))
    && (th.MonUnlisting? || th.StopUnlisting? ==> th.id !in s.vms)
  }

  /** The maps agree outside critical sections: a listed machine has its VM and its network from the
      same run of Start. An entry is always from a run of its machine, and the goroutine that will
      unlist it is there. */
  ghost predicate Paired(s: State) {
    && (forall id :: Agree(s, id))
    && (s.lock.Some? && s.lock.value in s.threads ==> HalfDone(s, s.threads[s.lock.value]))
    && (forall id :: id in s.vms ==> ListedWell(s, id, s.vms[id]))
    && (forall id :: id in s.networks ==> ListedWell(s, id, s.networks[id]))
  }

  ghost predicate ListedWell(s: State, id: Id, run: Run) {
    run in s.procs && run in s.owner && s.owner[run] == id && Minded(s, run)
  }

  /** Every open network has its goroutine, and a process that is not reaped has one exactly if it is not
      a child that Start killed: those stay unreaped and unminded. */
  ghost predicate NoLeaks(s: State) {
    && (forall r :: r in s.open ==> Minded(s, r))
    && (forall r :: r in s.procs && s.procs[r] != Exited ==> (Minded(s, r) <==> r !in s.aborted))
    && (forall r :: r in s.aborted ==> r in s.procs && s.procs[r] == Killed)
  }

  ghost predicate Inv(s: State) {
    Sane(s) && Exclusive(s) && Paired(s) && NoLeaks(s)
  }

  /** Steps only add machines, runs and processes, and what is over stays over. */
  ghost predicate Grows(s: State, s': State) {
    && s.state.Keys <= s'.state.Keys
    && s.next <= s'.next
    && (forall r :: r in s.owner ==> r in s'.owner && s'.owner[r] == s.owner[r])
    && (forall r :: r in s.procs ==> r in s'.procs && (s.procs[r] == Exited ==> s'.procs[r] == Exited))
    && (forall r :: r in s.owner && r !in s.open ==> r !in s'.open)
  }

  /** What every effect is like, as far as the mutex, the maps and the minding of runs go. */
  predicate Shaped(s: State, th: Thread, e: Effect, begins: bool) {
    && (e.next.Some? ==> e.next.value.id == th.id && !e.next.value.StartChecked?)
    && (e.next.Some? && e.next.value.Halfway() <==> th.StartUp? || th.MonStopped? || th.StopForced?)
    && (e.vm != Keep <==> th.StartUp? || th.MonStopped? || th.StopForced?)
    && (th.StartUp? ==> e.vm == Put(th.run) && e.next == Some(StartListing(th.id, th.run)))
    && (th.MonStopped? || th.StopForced? ==> e.vm == Drop && !e.next.value.StartListing?)
    && (e.net == if th.StartListing? then Put(th.run) else if th.Halfway() then Drop else Keep)
    && (e.next.Some? && RunOf(e.next.value).Some? ==>
          if begins then RunOf(e.next.value) == Some(s.next) else RunOf(e.next.value) == RunOf(th))
    && (RunOf(th).Some? && !th.MonUnlisting? && !th.StartNet? ==> e.next.Some? && RunOf(e.next.value) == RunOf(th))
    && (begins ==> th.StartBegun?)
  }

  lemma StartShaped(s: State, th: Thread, outcome: Outcome)
    requires th.IsStart()
    ensures Shaped(s, th, EffectOf(s, th, outcome), BeginsRun(th, outcome))
  {}

  lemma StopShaped(s: State, th: Thread, outcome: Outcome)
    requires th.IsStop()
    ensures Shaped(s, th, EffectOf(s, th, outcome), BeginsRun(th, outcome))
  {}

  lemma MonitorShaped(s: State, th: Thread, outcome: Outcome)
    requires th.IsMonitor()
    ensures Shaped(s, th, EffectOf(s, th, outcome), BeginsRun(th, outcome))
  {}

  lemma EffectShaped(s: State, th: Thread, outcome: Outcome)
    ensures Shaped(s, th, EffectOf(s, th, outcome), BeginsRun(th, outcome))
  {
    if th.IsStart() {
      StartShaped(s, th, outcome);
    } else if th.IsMonitor() {
      MonitorShaped(s, th, outcome);
    } else {
      StopShaped(s, th, outcome);
    }
  }

  /** What every effect is like, as far as processes go. */
  predicate Deed(s: State, th: Thread, e: Effect, aborts: set<Run>) {
    && (e.proc.Some? ==>
          var (r, p) := e.proc.value;
          if r in s.procs then s.procs[r] == Up && p == Killed
          else th.StartNet? && r == th.run && r in s.owner
               && (if p == Up then e.next == Some(StartUp(th.id, r)) else p == Killed && aborts == {r}))
    && (aborts != {} ==> th.StartNet? && aborts == {th.run} && e.proc == Some((th.run, Killed)))
  }

  lemma EffectDeed(s: State, t: Tid, outcome: Outcome)
    requires Sane(s) && t in s.threads && CanAdvance(s, t, s.threads[t], outcome)
    ensures Deed(s, s.threads[t], EffectOf(s, s.threads[t], outcome), Aborts(s.threads[t], outcome))
  {
    assert ThreadKnown(s, s.threads[t]);
  }

  lemma GrowsDo(s: State, t: Tid, e: Effect, begins: bool, aborts: set<Run>)
    requires Sane(s) && t in s.threads && Deed(s, s.threads[t], e, aborts)
    ensures Grows(s, Do(s, t, s.threads[t], e, begins, aborts))
  {}

  lemma StepGrows(s: State, a: Action)
    requires Sane(s) && Enabled(s, a)
    ensures Grows(s, Apply(s, a))
  {
    if a.Advance? {
      var th := s.threads[a.t];
      EffectDeed(s, a.t, a.outcome);
      GrowsDo(s, a.t, EffectOf(s, th, a.outcome), BeginsRun(th, a.outcome), Aborts(th, a.outcome));
    }
  }

  lemma KnownKept(s: State, s': State, th: Thread)
    requires Grows(s, s') && ThreadKnown(s, th) && (th.StartNet? ==> th.run !in s'.procs)
    ensures ThreadKnown(s', th)
  {}

  lemma MovedBegunKnown(s: State, t: Tid, outcome: Outcome)
    requires Sane(s) && t in s.threads && CanAdvance(s, t, s.threads[t], outcome) && s.threads[t].StartBegun?
    ensures var s' := Move(s, t, s.threads[t], outcome);
      t in s'.threads ==> ThreadKnown(s', s'.threads[t])
  {
    assert s.next !in s.owner;
  }

  lemma MovedEarlyStartKnown(s: State, t: Tid, outcome: Outcome)
    requires Sane(s) && t in s.threads && CanAdvance(s, t, s.threads[t], outcome)
    requires var th := s.threads[t]; th.StartChecked? || th.StartNet? || th.StartFailed?
    ensures var s' := Move(s, t, s.threads[t], outcome);
      t in s'.threads ==> ThreadKnown(s', s'.threads[t])
  {
    assert ThreadKnown(s, s.threads[t]);
  }

  lemma MovedLateStartKnown(s: State, t: Tid, outcome: Outcome)
    requires Sane(s) && t in s.threads && CanAdvance(s, t, s.threads[t], outcome)
    requires var th := s.threads[t]; th.StartUp? || th.StartListing? || th.StartListed? || th.StartShown?
    ensures var s' := Move(s, t, s.threads[t], outcome);
      t in s'.threads ==> ThreadKnown(s', s'.threads[t])
  {
    assert ThreadKnown(s, s.threads[t]);
  }

  lemma MovedStartKnown(s: State, t: Tid, outcome: Outcome)
    requires Sane(s) && t in s.threads && CanAdvance(s, t, s.threads[t], outcome) && s.threads[t].IsStart()
    ensures var s' := Move(s, t, s.threads[t], outcome);
      t in s'.threads ==> ThreadKnown(s', s'.threads[t])
  {
    var th := s.threads[t];
    if th.StartBegun? {
      MovedBegunKnown(s, t, outcome);
    } else if th.StartChecked? || th.StartNet? || th.StartFailed? {
      MovedEarlyStartKnown(s, t, outcome);
    } else {
      MovedLateStartKnown(s, t, outcome);
    }
  }

  lemma MovedMonitorKnown(s: State, t: Tid, outcome: Outcome)
    requires Sane(s) && t in s.threads && CanAdvance(s, t, s.threads[t], outcome) && s.threads[t].IsMonitor()
    ensures var s' := Move(s, t, s.threads[t], outcome);
      t in s'.threads ==> ThreadKnown(s', s'.threads[t])
  {
    assert ThreadKnown(s, s.threads[t]);
  }

  lemma MovedStopKnown(s: State, t: Tid, outcome: Outcome)
    requires Sane(s) && t in s.threads && CanAdvance(s, t, s.threads[t], outcome) && s.threads[t].IsStop()
    ensures var s' := Move(s, t, s.threads[t], outcome);
      t in s'.threads ==> ThreadKnown(s', s'.threads[t])
  {
    var th := s.threads[t];
    assert ThreadKnown(s, th);
    EffectShaped(s, th, outcome);
    StopStaysStop(s, th, outcome);
    StepGrows(s, Advance(t, outcome));
    var e := EffectOf(s, th, outcome);
    if e.next.Some? { NoRunKnown(Move(s, t, th, outcome), e.next.value); }
  }

  lemma StopStaysStop(s: State, th: Thread, outcome: Outcome)
    requires th.IsStop()
    ensures var e := EffectOf(s, th, outcome); e.next.Some? ==> e.next.value.IsStop()
  {}

  lemma NoRunKnown(s: State, th: Thread)
    requires th.IsStop() && th.id in s.state
    ensures ThreadKnown(s, th)
  {}

  lemma OtherKnown(s: State, a: Action, t: Tid)
    requires Sane(s) && Enabled(s, a) && t in s.threads && !(a.Advance? && a.t == t)
    ensures ThreadKnown(Apply(s, a), s.threads[t])
  {
    StepGrows(s, a);
    assert ThreadKnown(s, s.threads[t]);
    if s.threads[t].StartNet? {
      assert Minds(s, t, s.threads[t].run);
      assert a.Advance? && s.threads[a.t].StartNet? ==> Minds(s, a.t, s.threads[a.t].run);
      if a.Advance? { EffectDeed(s, a.t, a.outcome); }
    }
    KnownKept(s, Apply(s, a), s.threads[t]);
  }

  lemma ThreadsKnown(s: State, a: Action, t: Tid)
    requires Sane(s) && Enabled(s, a) && t in Apply(s, a).threads
    ensures ThreadKnown(Apply(s, a), Apply(s, a).threads[t])
  {
    var s' := Apply(s, a);
    if a.Advance? && a.t == t {
      if s.threads[t].IsStart() {
        MovedStartKnown(s, t, a.outcome);
      } else if s.threads[t].IsMonitor() {
        MovedMonitorKnown(s, t, a.outcome);
      } else {
        MovedStopKnown(s, t, a.outcome);
      }
    } else if t in s.threads {
      OtherKnown(s, a, t);
    }
  }

  lemma MindersOf(s: State, t: Tid, e: Effect, begins: bool, aborts: set<Run>, u: Tid, run: Run)
    requires t in s.threads && Shaped(s, s.threads[t], e, begins)
    requires Minds(Do(s, t, s.threads[t], e, begins, aborts), u, run)
    ensures Minds(s, u, run) || (t == u && begins && run == s.next)
  {}

  /** Who minds what after a step: as before, except where the stepping goroutine started to. */
  lemma MindersStep(s: State, a: Action, t: Tid, run: Run)
    requires Sane(s) && Enabled(s, a) && Minds(Apply(s, a), t, run)
    ensures Minds(s, t, run)
      || (a.Advance? && a.t == t && s.threads[t].StartBegun? && a.outcome == Good && run == s.next)
  {
    if a.Advance? {
      var th := s.threads[a.t];
      EffectShaped(s, th, a.outcome);
      MindersOf(s, a.t, EffectOf(s, th, a.outcome), BeginsRun(th, a.outcome), Aborts(th, a.outcome), t, run);
    }
  }

  lemma OneMinder(s: State, a: Action, t: Tid, u: Tid, run: Run)
    requires Sane(s) && Enabled(s, a)
    requires Minds(Apply(s, a), t, run) && Minds(Apply(s, a), u, run)
    ensures t == u
  {
    MindersStep(s, a, t, run);
    MindersStep(s, a, u, run);
    assert Minds(s, t, run) ==> ThreadKnown(s, s.threads[t]);
    assert Minds(s, u, run) ==> ThreadKnown(s, s.threads[u]);
  }

  lemma KeysDo(s: State, t: Tid, e: Effect, begins: bool, aborts: set<Run>)
    requires Sane(s) && t in s.threads && s.threads[t].id in s.state && Deed(s, s.threads[t], e, aborts)
    ensures var s' := Do(s, t, s.threads[t], e, begins, aborts);
      && s'.registered <= s'.state.Keys
      && (forall r :: r in s'.owner ==> r < s'.next && s'.owner[r] in s'.state)
      && s'.procs.Keys + s'.open <= s'.owner.Keys
  {}

  lemma KeysStep(s: State, a: Action)
    requires Sane(s) && Enabled(s, a)
    ensures var s' := Apply(s, a);
      && s'.registered <= s'.state.Keys
      && (forall r :: r in s'.owner ==> r < s'.next && s'.owner[r] in s'.state)
      && s'.procs.Keys + s'.open <= s'.owner.Keys
  {
    if a.Advance? {
      var th := s.threads[a.t];
      EffectDeed(s, a.t, a.outcome);
      KeysDo(s, a.t, EffectOf(s, th, a.outcome), BeginsRun(th, a.outcome), Aborts(th, a.outcome));
    }
  }

  lemma SaneStep(s: State, a: Action)
    requires Sane(s) && Enabled(s, a)
    ensures Sane(Apply(s, a))
  {
    var s' := Apply(s, a);
    StepGrows(s, a);
    KeysStep(s, a);
    forall t | t in s'.threads
      ensures ThreadKnown(s', s'.threads[t])
    {
      ThreadsKnown(s, a, t);
    }
    forall t, u, r | Minds(s', t, r) && Minds(s', u, r)
      ensures t == u
    {
      OneMinder(s, a, t, u, r);
    }
  }

  lemma ExclusiveDo(s: State, t: Tid, e: Effect, begins: bool, aborts: set<Run>)
    requires Exclusive(s) && t in s.threads && Shaped(s, s.threads[t], e, begins)
    requires s.threads[t].StartUp? || s.threads[t].MonStopped? || s.threads[t].StopForced? ==> s.lock == None
    ensures Exclusive(Do(s, t, s.threads[t], e, begins, aborts))
  {
    var s' := Do(s, t, s.threads[t], e, begins, aborts);
    forall u | u in s'.threads
      ensures s'.threads[u].HoldsLock() <==> s'.lock == Some(u)
    {
      if u in s.threads { assert s.threads[u].HoldsLock() <==> s.lock == Some(u); }
      assert s.threads[t].HoldsLock() <==> s.lock == Some(t);
    }
  }

  lemma ExclusiveStep(s: State, a: Action)
    requires Sane(s) && Exclusive(s) && Enabled(s, a)
    ensures Exclusive(Apply(s, a))
  {
    if a.Advance? {
      var th := s.threads[a.t];
      EffectShaped(s, th, a.outcome);
      ExclusiveDo(s, a.t, EffectOf(s, th, a.outcome), BeginsRun(th, a.outcome), Aborts(th, a.outcome));
    } else {
      QuietLock(s, a);
    }
  }

  lemma QuietLock(s: State, a: Action)
    requires Exclusive(s) && Enabled(s, a) && !a.Advance?
    ensures Exclusive(Apply(s, a))
  {
    assert forall t :: t in s.threads ==> (s.threads[t].HoldsLock() <==> s.lock == Some(t));
  }

  lemma MindsDo(s: State, t: Tid, e: Effect, begins: bool, aborts: set<Run>, u: Tid, run: Run)
    requires t in s.threads && Shaped(s, s.threads[t], e, begins) && Minds(s, u, run)
    requires t == u ==> !s.threads[t].MonUnlisting?
    requires t == u && s.threads[t].StartNet? ==> e.next == Some(StartUp(s.threads[t].id, run))
    ensures Minds(Do(s, t, s.threads[t], e, begins, aborts), u, run)
  {}

  /** A run's goroutine stays until it has cleaned up. */
  lemma MindedStep(s: State, a: Action, run: Run)
    requires Sane(s) && Enabled(s, a) && Minded(s, run)
    ensures Minded(Apply(s, a), run) || Releases(s, a, run)
  {
    var u :| Minds(s, u, run);
    if a.Advance? && !Releases(s, a, run) {
      var th := s.threads[a.t];
      EffectShaped(s, th, a.outcome);
      MindsDo(s, a.t, EffectOf(s, th, a.outcome), BeginsRun(th, a.outcome), Aborts(th, a.outcome), u, run);
    }
    assert Minds(Apply(s, a), u, run) || Releases(s, a, run);
  }

  /** The last step of a run's goroutine: the monitor's clean-up, or Start giving up. */
  predicate Releases(s: State, a: Action, run: Run) {
    && a.Advance? && Minds(s, a.t, run)
    && (s.threads[a.t].MonUnlisting? || (s.threads[a.t].StartNet? && a.outcome != Good))
  }

  /** Where a map entry after a step comes from. */
  lemma VmEntryStep(s: State, a: Action, id: Id)
    requires Enabled(s, a) && id in Apply(s, a).vms
    ensures (id in s.vms && s.vms[id] == Apply(s, a).vms[id])
      || (a.Advance? && s.threads[a.t] == StartUp(id, Apply(s, a).vms[id]))
  {}

  lemma NetEntryStep(s: State, a: Action, id: Id)
    requires Enabled(s, a) && id in Apply(s, a).networks
    ensures (id in s.networks && s.networks[id] == Apply(s, a).networks[id])
      || (a.Advance? && s.threads[a.t] == StartListing(id, Apply(s, a).networks[id]))
    ensures a.Advance? && s.threads[a.t].MonUnlisting? ==> s.threads[a.t].id != id
  {}

  lemma ListedKept(s: State, s': State, id: Id, run: Run)
    requires ListedWell(s, id, run) && Grows(s, s') && Minded(s', run)
    ensures ListedWell(s', id, run)
  {}

  lemma VmListedStep(s: State, a: Action, id: Id)
    requires Inv(s) && Enabled(s, a) && id in Apply(s, a).vms
    ensures ListedWell(Apply(s, a), id, Apply(s, a).vms[id])
  {
    var r := Apply(s, a).vms[id];
    StepGrows(s, a);
    VmEntryStep(s, a, id);
    if a.Advance? { assert ThreadKnown(s, s.threads[a.t]); }
    if id in s.vms && s.vms[id] == r {
      assert ListedWell(s, id, r);
      if a.Advance? && s.threads[a.t].MonUnlisting? { UnlistsOwn(s, a.t, id); }
    } else {
      assert Minds(s, a.t, r);
      assert ListedWell(s, id, r);
    }
    MindedStep(s, a, r);
    ListedKept(s, Apply(s, a), id, r);
  }

  /** A monitor that unlists its machine has no other machine's run. */
  lemma UnlistsOwn(s: State, t: Tid, id: Id)
    requires Inv(s) && t in s.threads && s.threads[t].MonUnlisting? && id in s.vms
    ensures s.vms[id] != s.threads[t].run
  {
    assert ThreadKnown(s, s.threads[t]) && s.threads[t].HoldsLock();
    assert ListedWell(s, id, s.vms[id]);
  }

  lemma NetListedStep(s: State, a: Action, id: Id)
    requires Inv(s) && Enabled(s, a) && id in Apply(s, a).networks
    ensures ListedWell(Apply(s, a), id, Apply(s, a).networks[id])
  {
    var r := Apply(s, a).networks[id];
    StepGrows(s, a);
    NetEntryStep(s, a, id);
    if a.Advance? { assert ThreadKnown(s, s.threads[a.t]); }
    if id in s.networks && s.networks[id] == r {
      assert ListedWell(s, id, r);
    } else {
      assert Minds(s, a.t, r);
      assert ListedWell(s, id, r);
    }
    MindedStep(s, a, r);
    ListedKept(s, Apply(s, a), id, r);
  }

  /** Whoever touches the maps holds the mutex, so the goroutine in between finds them as it left them. */
  lemma AgreeDo(s: State, t: Tid, e: Effect, begins: bool, aborts: set<Run>, id: Id)
    requires Exclusive(s) && Paired(s) && t in s.threads && Shaped(s, s.threads[t], e, begins)
    requires s.threads[t].StartUp? || s.threads[t].MonStopped? || s.threads[t].StopForced? ==> s.lock == None
    ensures Agree(Do(s, t, s.threads[t], e, begins, aborts), id)
  {
    assert Agree(s, id);
    assert s.threads[t].HoldsLock() <==> s.lock == Some(t);
  }

  lemma HalfDoneDo(s: State, t: Tid, e: Effect, begins: bool, aborts: set<Run>)
    requires Exclusive(s) && Paired(s) && t in s.threads && Shaped(s, s.threads[t], e, begins)
    requires s.threads[t].StartUp? || s.threads[t].MonStopped? || s.threads[t].StopForced? ==> s.lock == None
    ensures var s' := Do(s, t, s.threads[t], e, begins, aborts);
      s'.lock.Some? && s'.lock.value in s'.threads ==> HalfDone(s', s'.threads[s'.lock.value])
  {
    assert s.threads[t].HoldsLock() <==> s.lock == Some(t);
  }

  lemma MapsStep(s: State, a: Action)
    requires Inv(s) && Enabled(s, a)
    ensures var s' := Apply(s, a);
      && (forall id :: Agree(s', id))
      && (s'.lock.Some? && s'.lock.value in s'.threads ==> HalfDone(s', s'.threads[s'.lock.value]))
  {
    if a.Advance? {
      var th := s.threads[a.t];
      var e, begins, aborts := EffectOf(s, th, a.outcome), BeginsRun(th, a.outcome), Aborts(th, a.outcome);
      EffectShaped(s, th, a.outcome);
      forall id { AgreeDo(s, a.t, e, begins, aborts, id); }
      HalfDoneDo(s, a.t, e, begins, aborts);
    } else {
      QuietMaps(s, a);
    }
  }

  lemma QuietMaps(s: State, a: Action)
    requires Inv(s) && Enabled(s, a) && !a.Advance?
    ensures var s' := Apply(s, a);
      && (forall id :: Agree(s', id))
      && (s'.lock.Some? && s'.lock.value in s'.threads ==> HalfDone(s', s'.threads[s'.lock.value]))
  {
    forall id
      ensures Agree(Apply(s, a), id)
    {
      assert Agree(s, id);
    }
  }

  lemma PairedStep(s: State, a: Action)
    requires Inv(s) && Enabled(s, a)
    ensures Paired(Apply(s, a))
  {
    var s' := Apply(s, a);
    MapsStep(s, a);
    forall id | id in s'.vms
      ensures ListedWell(s', id, s'.vms[id])
    {
      VmListedStep(s, a, id);
    }
    forall id | id in s'.networks
      ensures ListedWell(s', id, s'.networks[id])
    {
      NetListedStep(s, a, id);
    }
  }

  lemma OpenStep(s: State, a: Action, r: Run)
    requires Inv(s) && Enabled(s, a) && r in Apply(s, a).open
    ensures Minded(Apply(s, a), r)
  {
    if r in s.open {
      MindedStep(s, a, r);
      if a.Advance? { assert ThreadKnown(s, s.threads[a.t]); }
    } else {
      assert Minds(Apply(s, a), a.t, r);
    }
  }

  lemma ProcDo(s: State, t: Tid, e: Effect, begins: bool, aborts: set<Run>, r: Run)
    requires Sane(s) && t in s.threads && Deed(s, s.threads[t], e, aborts)
    requires var s' := Do(s, t, s.threads[t], e, begins, aborts);
      r in s'.procs && s'.procs[r] != Exited && r !in s'.aborted
    ensures r !in aborts && r !in s.aborted
    ensures (r in s.procs && s.procs[r] != Exited)
         || (s.threads[t].StartNet? && r == s.threads[t].run && e.next == Some(StartUp(s.threads[t].id, r)))
  {}

  lemma ProcStep(s: State, a: Action, r: Run)
    requires Inv(s) && Enabled(s, a)
    requires var s' := Apply(s, a); r in s'.procs && s'.procs[r] != Exited && r !in s'.aborted
    ensures Minded(Apply(s, a), r)
  {
    if a.Advance? {
      var th := s.threads[a.t];
      assert ThreadKnown(s, th);
      EffectDeed(s, a.t, a.outcome);
      ProcDo(s, a.t, EffectOf(s, th, a.outcome), BeginsRun(th, a.outcome), Aborts(th, a.outcome), r);
      if r in s.procs && s.procs[r] != Exited {
        MindedStep(s, a, r);
      } else {
        assert Minds(Apply(s, a), a.t, r);
      }
    } else {
      MindedStep(s, a, r);
    }
  }

  lemma AbortedDo(s: State, t: Tid, e: Effect, begins: bool, aborts: set<Run>, r: Run)
    requires Sane(s) && NoLeaks(s) && t in s.threads && Deed(s, s.threads[t], e, aborts)
    requires var s' := Do(s, t, s.threads[t], e, begins, aborts); r in s'.aborted
    ensures var s' := Do(s, t, s.threads[t], e, begins, aborts); r in s'.procs && s'.procs[r] == Killed
  {}

  lemma AbortedStep(s: State, a: Action, r: Run)
    requires Inv(s) && Enabled(s, a) && r in Apply(s, a).aborted
    ensures r in Apply(s, a).procs && Apply(s, a).procs[r] == Killed
  {
    if a.Advance? {
      var th := s.threads[a.t];
      EffectDeed(s, a.t, a.outcome);
      AbortedDo(s, a.t, EffectOf(s, th, a.outcome), BeginsRun(th, a.outcome), Aborts(th, a.outcome), r);
    }
  }

  lemma UnmindedDo(s: State, t: Tid, e: Effect, begins: bool, aborts: set<Run>, u: Tid, r: Run)
    requires Sane(s) && t in s.threads && Shaped(s, s.threads[t], e, begins) && Deed(s, s.threads[t], e, aborts)
    requires aborts != {} ==> e.next.Some? && e.next.value.StartFailed?
    requires Minds(s, u, r) && r !in s.aborted
    ensures var s' := Do(s, t, s.threads[t], e, begins, aborts); Minds(s', u, r) ==> r !in s'.aborted
  {
    if r in aborts { assert Minds(s, t, r); }
  }

  /** Nobody minds a child that Start killed. */
  lemma AbortedUnminded(s: State, a: Action, u: Tid, r: Run)
    requires Inv(s) && Enabled(s, a) && Minds(Apply(s, a), u, r)
    ensures r !in Apply(s, a).aborted
  {
    MindersStep(s, a, u, r);
    if !Minds(s, u, r) {
      assert r == s.next && r !in s.procs;
    } else {
      assert Minded(s, r);
      if a.Advance? {
        var th := s.threads[a.t];
        EffectShaped(s, th, a.outcome);
        EffectDeed(s, a.t, a.outcome);
        UnmindedDo(s, a.t, EffectOf(s, th, a.outcome), BeginsRun(th, a.outcome), Aborts(th, a.outcome), u, r);
      }
    }
  }

  lemma MindedExactly(s: State, a: Action, r: Run)
    requires Inv(s) && Enabled(s, a) && r in Apply(s, a).procs && Apply(s, a).procs[r] != Exited
    ensures Minded(Apply(s, a), r) <==> r !in Apply(s, a).aborted
  {
    var s' := Apply(s, a);
    if r !in s'.aborted { ProcStep(s, a, r); }
    if Minded(s', r) {
      var u :| Minds(s', u, r);
      AbortedUnminded(s, a, u, r);
    }
  }

  lemma NoLeaksStep(s: State, a: Action)
    requires Inv(s) && Enabled(s, a)
    ensures NoLeaks(Apply(s, a))
  {
    var s' := Apply(s, a);
    forall r | r in s'.open
      ensures Minded(s', r)
    {
      OpenStep(s, a, r);
    }
    forall r | r in s'.procs && s'.procs[r] != Exited
      ensures Minded(s', r) <==> r !in s'.aborted
    {
      MindedExactly(s, a, r);
    }
    forall r | r in s'.aborted
      ensures r in s'.procs && s'.procs[r] == Killed
    {
      AbortedStep(s, a, r);
    }
  }

  lemma InvStep(s: State, a: Action)
    requires Inv(s) && Enabled(s, a)
    ensures Inv(Apply(s, a))
  {
    SaneStep(s, a);
    ExclusiveStep(s, a);
    PairedStep(s, a);
    NoLeaksStep(s, a);
  }

  lemma {:induction false} InvAlways(s: State, acts: seq<Action>)
    requires Inv(s) && Legal(s, acts)
    ensures Inv(Exec(s, acts))
    decreases |acts|
  {
    if acts != [] {
      InvStep(s, acts[0]);
      InvAlways(Apply(s, acts[0]), acts[1..]);
    }
  }

  lemma SameMaps(m: map<Id, Run>, n: map<Id, Run>)
    requires forall id :: Lookup(m, id) == Lookup(n, id)
    ensures m == n
  {
    forall id
      ensures id in m <==> id in n
      ensures id in m ==> m[id] == n[id]
    {
      assert Lookup(m, id) == Lookup(n, id);
    }
    assert m.Keys == n.Keys;
  }

  /** In every reachable state, whatever the callers do: outside critical sections the two maps are the
      same, every entry is from a run of its machine, and no network, entry or process is left without a
      goroutine that will clean it up, but for the killed children of failed starts. */
  lemma PairedAlways(acts: seq<Action>)
    requires Legal(INIT, acts)
    ensures var s := Exec(INIT, acts);
      && Paired(s) && NoLeaks(s)
      && (s.lock == None ==> s.vms == s.networks)
  {
    InvAlways(INIT, acts);
    var s := Exec(INIT, acts);
    if s.lock == None {
      forall id
        ensures Lookup(s.vms, id) == Lookup(s.networks, id)
      {
        assert Agree(s, id);
      }
      SameMaps(s.vms, s.networks);
    }
  }
}

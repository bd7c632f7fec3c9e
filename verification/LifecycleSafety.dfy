/** What callers gain by not overlapping Start with Stop, and by starting a machine again only once
    the previous monitor is done. */
module LifecycleSafety {
  import opened Options
  import opened Lifecycle

  /** The rules for callers. startWaits: Start is admitted only when no Stop of the machine is active.
      stopWaits: Stop begins only when no Start of it is active. monitorsDone: Start is admitted only
      when no monitor of an earlier run is active. (That one Start excludes another is the manager's
      own doing.) */
  datatype Rules = Rules(startWaits: bool, stopWaits: bool, monitorsDone: bool)

  ghost predicate Admissible(s: State, a: Action, rules: Rules) {
    match a
    case BeginStart(_, id) =>
      && (rules.startWaits ==> forall t | t in s.threads && s.threads[t].id == id :: !s.threads[t].IsStop())
      && (rules.monitorsDone ==> forall t | t in s.threads && s.threads[t].id == id :: !s.threads[t].IsMonitor())
    case BeginStop(_, id) =>
      rules.stopWaits ==> forall t | t in s.threads && s.threads[t].id == id :: !s.threads[t].IsStart()
    case _ => true
  }

  const ALL := Rules(true, true, true)

  ghost predicate Disciplined(s: State, acts: seq<Action>, rules: Rules)
    decreases |acts|
  {
    acts == [] ||
    (Enabled(s, acts[0]) && Admissible(s, acts[0], rules) && Disciplined(Apply(s, acts[0]), acts[1..], rules))
  }

  predicate In(s: State, id: Id, states: set<MState>) {
    id in s.state && s.state[id] in states
  }

  predicate LatestIs(s: State, id: Id, run: Run) {
    id in s.latest && s.latest[id] == run
  }

  predicate Lists(s: State, id: Id, run: Run) {
    id in s.vms && s.vms[id] == run
  }

  /** What each position of a goroutine says about its machine. */
  predicate Fits(s: State, th: Thread) {
    && (RunOf(th).Some? ==> LatestIs(s, th.id, th.run))
    && match th
       case StartChecked(id) => In(s, id, {Created, Stopped})
       case StartListing(id, run) => In(s, id, {Starting}) && Lists(s, id, run)
       case StartListed(id, run) => In(s, id, {Starting}) && Lists(s, id, run)
       case StartShown(id, run) => In(s, id, {Running}) && Lists(s, id, run)
       case MonStopped(id, _) => In(s, id, {Stopping, Stopped})
       case MonUnlisting(id, _) => In(s, id, {Stopping, Stopped})
       case StopRead(id, vm, _) => vm.None? ==> !In(s, id, {Running})
       case StopChecked(_, vm, _) => vm.Some?
       case StopSet(id, vm, _) => vm.Some? && In(s, id, {Stopping, Stopped})
       case StopNoVm(_) => false
       case _ => if th.IsStart() then In(s, th.id, {Starting})
                 else if th.IsStop() then In(s, th.id, {Stopping, Stopped}) else true
  }

  ghost predicate Alone(s: State) {
    forall t, u | t in s.threads && u in s.threads && s.threads[t].id == s.threads[u].id ::
      s.threads[t].IsStart() ==> t == u
  }

  ghost predicate AllFit(s: State) {
    forall t :: t in s.threads ==> Fits(s, s.threads[t])
  }

  predicate WellListed(s: State, id: Id) {
    id in s.vms && LatestIs(s, id, s.vms[id])
  }

  ghost predicate RunningListed(s: State) {
    forall id :: In(s, id, {Running}) ==> WellListed(s, id)
  }

  ghost predicate Orderly(s: State) {
    Inv(s) && Alone(s) && AllFit(s) && RunningListed(s)
  }

  // Each step keeps it --------------------------------------------------------------------------

  /** Nothing about the machine changes. */
  predicate Same(s: State, s': State, id: Id) {
    && (id in s.state ==> id in s'.state && s'.state[id] == s.state[id])
    && Lookup(s'.vms, id) == Lookup(s.vms, id)
    && Lookup(s'.latest, id) == Lookup(s.latest, id)
  }

  /** The machine may be unlisted and may come nearer to Stopped. */
  predicate Calmer(s: State, s': State, id: Id) {
    && id in s.state && id in s'.state
    && (s'.state[id] == s.state[id] || s'.state[id] in {Stopping, Stopped})
    && Lookup(s'.latest, id) == Lookup(s.latest, id)
  }

  lemma SameFits(s: State, s': State, th: Thread)
    requires Fits(s, th) && th.id in s.state && Same(s, s', th.id)
    ensures Fits(s', th)
  {}

  lemma CalmerFits(s: State, s': State, th: Thread)
    requires Fits(s, th) && Calmer(s, s', th.id) && !th.IsStart()
    ensures Fits(s', th)
  {}

  /** The machine a step is about, if any. */
  function About(s: State, a: Action): Option<Id> {
    match a
    case Create(id) => Some(id)
    case Advance(t, _) => if t in s.threads then Some(s.threads[t].id) else None
    case _ => None
  }

  lemma OthersSame(s: State, a: Action, id: Id)
    requires Enabled(s, a) && About(s, a) != Some(id)
    ensures Same(s, Apply(s, a), id)
  {}

  lemma StopsAndMonitorsCalm(s: State, t: Tid, outcome: Outcome)
    requires t in s.threads && CanAdvance(s, t, s.threads[t], outcome) && !s.threads[t].IsStart()
    ensures Calmer(s, Move(s, t, s.threads[t], outcome), s.threads[t].id)
  {}

  lemma MovedEarlyStartFits(s: State, t: Tid, outcome: Outcome)
    requires t in s.threads && CanAdvance(s, t, s.threads[t], outcome) && Fits(s, s.threads[t])
    requires var th := s.threads[t]; th.StartChecked? || th.StartBegun? || th.StartNet? || th.StartFailed?
    ensures var s' := Move(s, t, s.threads[t], outcome); t in s'.threads ==> Fits(s', s'.threads[t])
  {}

  lemma MovedLateStartFits(s: State, t: Tid, outcome: Outcome)
    requires t in s.threads && CanAdvance(s, t, s.threads[t], outcome) && Fits(s, s.threads[t])
    requires var th := s.threads[t]; th.StartUp? || th.StartListing? || th.StartListed? || th.StartShown?
    ensures var s' := Move(s, t, s.threads[t], outcome); t in s'.threads ==> Fits(s', s'.threads[t])
  {}

  lemma MovedStartFits(s: State, t: Tid, outcome: Outcome)
    requires Orderly(s) && t in s.threads && CanAdvance(s, t, s.threads[t], outcome)
    requires s.threads[t].IsStart()
    ensures var s' := Move(s, t, s.threads[t], outcome); t in s'.threads ==> Fits(s', s'.threads[t])
  {
    var th := s.threads[t];
    assert Fits(s, th);
    if th.StartChecked? || th.StartBegun? || th.StartNet? || th.StartFailed? {
      MovedEarlyStartFits(s, t, outcome);
    } else {
      MovedLateStartFits(s, t, outcome);
    }
  }

  lemma MovedMonitorFits(s: State, t: Tid, outcome: Outcome)
    requires Orderly(s) && t in s.threads && CanAdvance(s, t, s.threads[t], outcome)
    requires s.threads[t].IsMonitor()
    ensures var s' := Move(s, t, s.threads[t], outcome); t in s'.threads ==> Fits(s', s'.threads[t])
  {
    assert Fits(s, s.threads[t]);
  }

  lemma MovedStopFits(s: State, t: Tid, outcome: Outcome)
    requires Orderly(s) && t in s.threads && CanAdvance(s, t, s.threads[t], outcome)
    requires s.threads[t].IsStop()
    ensures var s' := Move(s, t, s.threads[t], outcome); t in s'.threads ==> Fits(s', s'.threads[t])
  {
    var th := s.threads[t];
    assert Fits(s, th) && ThreadKnown(s, th);
    if th.StopRead? {
      StopReadFits(s, t, outcome);
    } else if th.StopChecked? {
      StopCheckedFits(s, t, outcome);
    } else {
      StopStaysQuiet(s, t, outcome);
    }
  }

  lemma StopReadFits(s: State, t: Tid, outcome: Outcome)
    requires t in s.threads && s.threads[t].StopRead? && Fits(s, s.threads[t])
    ensures var s' := Move(s, t, s.threads[t], outcome); t in s'.threads ==> Fits(s', s'.threads[t])
  {}

  lemma StopCheckedFits(s: State, t: Tid, outcome: Outcome)
    requires t in s.threads && s.threads[t].StopChecked? && Fits(s, s.threads[t])
    ensures var s' := Move(s, t, s.threads[t], outcome); t in s'.threads ==> Fits(s', s'.threads[t])
  {}

  lemma StopStaysQuiet(s: State, t: Tid, outcome: Outcome)
    requires t in s.threads && CanAdvance(s, t, s.threads[t], outcome) && Fits(s, s.threads[t])
    requires s.threads[t].IsStop() && !s.threads[t].StopRead? && !s.threads[t].StopChecked?
    ensures var s' := Move(s, t, s.threads[t], outcome); t in s'.threads ==> Fits(s', s'.threads[t])
  {}

  lemma MoverFits(s: State, t: Tid, outcome: Outcome)
    requires Orderly(s) && t in s.threads && CanAdvance(s, t, s.threads[t], outcome)
    ensures var s' := Move(s, t, s.threads[t], outcome); t in s'.threads ==> Fits(s', s'.threads[t])
  {
    if s.threads[t].IsStart() {
      MovedStartFits(s, t, outcome);
    } else if s.threads[t].IsMonitor() {
      MovedMonitorFits(s, t, outcome);
    } else {
      MovedStopFits(s, t, outcome);
    }
  }

  lemma NewcomerFits(s: State, a: Action)
    requires RunningListed(s) && Enabled(s, a) && (a.BeginStart? || a.BeginStop?)
    ensures Fits(Apply(s, a), Apply(s, a).threads[a.t])
  {
    assert In(s, a.id, {Running}) ==> WellListed(s, a.id);
  }

  /** A goroutine fits its machine while another moves: another machine's leaves it alone, and another
      of the same machine can only be a monitor or a Stop. */
  lemma BystanderFits(s: State, a: Action, th: Thread)
    requires Enabled(s, a) && th.id in s.state && Fits(s, th)
    requires About(s, a) == Some(th.id) ==> a.Advance? && !s.threads[a.t].IsStart() && !th.IsStart()
    ensures Fits(Apply(s, a), th)
  {
    if About(s, a) != Some(th.id) {
      OthersSame(s, a, th.id);
      SameFits(s, Apply(s, a), th);
    } else {
      StopsAndMonitorsCalm(s, a.t, a.outcome);
      CalmerFits(s, Apply(s, a), th);
    }
  }

  lemma StandsBy(s: State, a: Action, t: Tid)
    requires Orderly(s) && Enabled(s, a) && t in s.threads && !(a.Advance? && a.t == t)
    ensures var th := s.threads[t];
      && th.id in s.state && Fits(s, th)
      && (About(s, a) == Some(th.id) ==> a.Advance? && !s.threads[a.t].IsStart() && !th.IsStart())
  {
    assert ThreadKnown(s, s.threads[t]);
  }

  lemma FitsStep(s: State, a: Action, t: Tid)
    requires Orderly(s) && Enabled(s, a) && Admissible(s, a, ALL) && t in Apply(s, a).threads
    ensures Fits(Apply(s, a), Apply(s, a).threads[t])
  {
    if a.Advance? && a.t == t {
      MoverFits(s, t, a.outcome);
    } else if t in s.threads {
      StandsBy(s, a, t);
      BystanderFits(s, a, s.threads[t]);
    } else {
      NewcomerFits(s, a);
    }
  }

  /** Goroutines keep their machine, and none turns into a Start. */
  lemma Origin(s: State, a: Action, t: Tid)
    requires Enabled(s, a) && t in Apply(s, a).threads
    ensures var th := Apply(s, a).threads[t];
      if t in s.threads then th.id == s.threads[t].id && (th.IsStart() ==> s.threads[t].IsStart())
      else (a == BeginStart(t, th.id) && th.IsStart()) || (a == BeginStop(t, th.id) && !th.IsStart())
  {}

  /** A newly admitted Start finds no goroutine of its machine, a new Stop no Start. */
  lemma NewcomerAlone(s: State, a: Action, t: Tid, u: Tid)
    requires Orderly(s) && Enabled(s, a) && Admissible(s, a, ALL) && u in s.threads
    ensures a == BeginStart(t, s.threads[u].id) ==> false
    ensures a == BeginStop(t, s.threads[u].id) ==> !s.threads[u].IsStart()
  {
    assert Fits(s, s.threads[u]);
  }

  lemma AloneStep(s: State, a: Action)
    requires Orderly(s) && Enabled(s, a) && Admissible(s, a, ALL)
    ensures Alone(Apply(s, a))
  {
    var s' := Apply(s, a);
    forall t, u | t in s'.threads && u in s'.threads && s'.threads[t].id == s'.threads[u].id
      ensures s'.threads[t].IsStart() ==> t == u
    {
      Origin(s, a, t);
      Origin(s, a, u);
      if t in s.threads { NewcomerAlone(s, a, u, t); }
      if u in s.threads { NewcomerAlone(s, a, t, u); }
    }
  }

  lemma RunningAfterStart(s: State, t: Tid, outcome: Outcome)
    requires Orderly(s) && t in s.threads && CanAdvance(s, t, s.threads[t], outcome) && s.threads[t].IsStart()
    ensures var id, s' := s.threads[t].id, Move(s, t, s.threads[t], outcome);
      In(s', id, {Running}) ==> WellListed(s', id)
  {
    assert Fits(s, s.threads[t]) && ThreadKnown(s, s.threads[t]);
  }

  lemma VmsKept(s: State, t: Tid, outcome: Outcome)
    requires t in s.threads && !s.threads[t].IsStart()
    requires !s.threads[t].MonStopped? && !s.threads[t].StopForced?
    ensures Move(s, t, s.threads[t], outcome).vms == s.vms
  {
    EffectShaped(s, s.threads[t], outcome);
  }

  lemma RunningAfterOther(s: State, t: Tid, outcome: Outcome)
    requires t in s.threads && CanAdvance(s, t, s.threads[t], outcome) && !s.threads[t].IsStart()
    requires Fits(s, s.threads[t])
    requires In(s, s.threads[t].id, {Running}) ==> WellListed(s, s.threads[t].id)
    ensures var id, s' := s.threads[t].id, Move(s, t, s.threads[t], outcome);
      In(s', id, {Running}) ==> WellListed(s', id)
  {
    StopsAndMonitorsCalm(s, t, outcome);
    if !s.threads[t].MonStopped? && !s.threads[t].StopForced? { VmsKept(s, t, outcome); }
  }

  lemma RunningStep(s: State, a: Action, id: Id)
    requires Orderly(s) && Enabled(s, a) && In(Apply(s, a), id, {Running})
    ensures WellListed(Apply(s, a), id)
  {
    if About(s, a) != Some(id) {
      OthersSame(s, a, id);
      assert In(s, id, {Running});
    } else if a.Advance? {
      if s.threads[a.t].IsStart() {
        RunningAfterStart(s, a.t, a.outcome);
      } else {
        assert Fits(s, s.threads[a.t]);
        assert In(s, id, {Running}) ==> WellListed(s, id);
        RunningAfterOther(s, a.t, a.outcome);
      }
    }
  }

  lemma OrderlyStep(s: State, a: Action)
    requires Orderly(s) && Enabled(s, a) && Admissible(s, a, ALL)
    ensures Orderly(Apply(s, a))
  {
    var s' := Apply(s, a);
    InvStep(s, a);
    AloneStep(s, a);
    forall t | t in s'.threads
      ensures Fits(s', s'.threads[t])
    {
      FitsStep(s, a, t);
    }
    forall id | In(s', id, {Running})
      ensures WellListed(s', id)
    {
      RunningStep(s, a, id);
    }
  }

  // Stopped means stopped -----------------------------------------------------------------------

  /** No child of the machine runs. */
  ghost predicate NoneUp(s: State, id: Id) {
    forall r :: r in s.procs && r in s.owner && s.owner[r] == id ==> s.procs[r] != Up
  }

  /** What a position says about the machine's children: before a Start has spawned one and after a Stop
      is done with it none runs, and the VM that a Stop has found is that of the latest Start. */
  ghost predicate Calms(s: State, th: Thread) {
    match th
    case StartBegun(id) => NoneUp(s, id)
    case StartNet(id, _) => NoneUp(s, id)
    case StartFailed(id, _) => NoneUp(s, id)
    case StopRead(id, vm, _) => vm.Some? ==> LatestIs(s, id, vm.value)
    case StopChecked(id, vm, _) => vm.Some? ==> LatestIs(s, id, vm.value)
    case StopSet(id, vm, _) => vm.Some? ==> LatestIs(s, id, vm.value)
    case StopVm(id, run) => LatestIs(s, id, run)
    case StopPoll(id) => NoneUp(s, id)
    case StopForcing(id) => NoneUp(s, id)
    case StopForced(id) => NoneUp(s, id)
    case StopUnlisting(id) => NoneUp(s, id)
    case _ => true
  }

  ghost predicate StoppedIsDown(s: State) {
    forall id :: In(s, id, {Created, Stopped}) ==> NoneUp(s, id)
  }

  ghost predicate Calm(s: State) {
    Orderly(s) && StoppedIsDown(s) && forall t :: t in s.threads ==> Calms(s, s.threads[t])
  }

  /** A running child is that of its machine's latest Start. */
  lemma UpIsLatest(s: State, run: Run)
    requires Orderly(s) && run in s.procs && s.procs[run] == Up
    ensures run in s.owner && LatestIs(s, s.owner[run], run)
  {
    assert Minded(s, run);
    var t :| Minds(s, t, run);
    assert ThreadKnown(s, s.threads[t]) && Fits(s, s.threads[t]);
  }

  lemma LatestDown(s: State, id: Id, run: Run)
    requires Orderly(s) && LatestIs(s, id, run) && (run in s.procs ==> s.procs[run] != Up)
    ensures NoneUp(s, id)
  {
    forall r | r in s.procs && r in s.owner && s.owner[r] == id
      ensures s.procs[r] != Up
    {
      if s.procs[r] == Up { UpIsLatest(s, r); }
    }
  }

  lemma NoneUpDo(s: State, t: Tid, e: Effect, begins: bool, aborts: set<Run>, id: Id)
    requires Sane(s) && t in s.threads && Deed(s, s.threads[t], e, aborts) && NoneUp(s, id)
    requires s.threads[t].StartNet? ==> ThreadKnown(s, s.threads[t])
    requires s.threads[t].StartNet? && s.threads[t].id == id && e.proc.Some? ==> e.proc.value.1 != Up
    ensures NoneUp(Do(s, t, s.threads[t], e, begins, aborts), id)
  {}

  /** Only a Start that spawns makes a child run. */
  lemma NoneUpKept(s: State, a: Action, id: Id)
    requires Sane(s) && Enabled(s, a) && NoneUp(s, id)
    requires a.Advance? && s.threads[a.t].StartNet? && s.threads[a.t].id == id ==> a.outcome != Good
    ensures NoneUp(Apply(s, a), id)
  {
    if a.Advance? {
      var th := s.threads[a.t];
      assert ThreadKnown(s, th);
      EffectDeed(s, a.t, a.outcome);
      NoneUpDo(s, a.t, EffectOf(s, th, a.outcome), BeginsRun(th, a.outcome), Aborts(th, a.outcome), id);
    }
  }

  lemma LatestKept(s: State, a: Action, id: Id, run: Run)
    requires Enabled(s, a) && LatestIs(s, id, run)
    requires a.Advance? && s.threads[a.t].StartBegun? ==> s.threads[a.t].id != id
    ensures LatestIs(Apply(s, a), id, run)
  {}

  lemma BystanderCalms(s: State, a: Action, t: Tid)
    requires Calm(s) && Enabled(s, a) && t in s.threads && !(a.Advance? && a.t == t)
    ensures Calms(Apply(s, a), s.threads[t])
  {
    var th := s.threads[t];
    StandsBy(s, a, t);
    assert Calms(s, th);
    if NoneUp(s, th.id) { NoneUpKept(s, a, th.id); }
    if th.StopVm? { LatestKept(s, a, th.id, th.run); }
    if (th.StopRead? || th.StopChecked? || th.StopSet?) && th.vm.Some? { LatestKept(s, a, th.id, th.vm.value); }
  }

  /** After StopVm's step the latest child is killed or has exited. */
  lemma StoppedVmCalms(s: State, t: Tid, outcome: Outcome)
    requires Calm(s) && t in s.threads && s.threads[t].StopVm? && CanAdvance(s, t, s.threads[t], outcome)
    ensures NoneUp(Move(s, t, s.threads[t], outcome), s.threads[t].id)
  {
    var th := s.threads[t];
    var s' := Move(s, t, th, outcome);
    assert Calms(s, th);
    forall r | r in s'.procs && r in s'.owner && s'.owner[r] == th.id
      ensures s'.procs[r] != Up
    {
      if r in s.procs && s.procs[r] == Up {
        UpIsLatest(s, r);
        assert r == th.run;
      }
    }
  }

  lemma EarlyStartCalms(s: State, t: Tid, outcome: Outcome)
    requires Sane(s) && t in s.threads && CanAdvance(s, t, s.threads[t], outcome) && NoneUp(s, s.threads[t].id)
    requires var th := s.threads[t]; th.StartChecked? || th.StartBegun? || (th.StartNet? && outcome != Good)
    ensures var s' := Move(s, t, s.threads[t], outcome); t in s'.threads ==> Calms(s', s'.threads[t])
  {
    NoneUpKept(s, Advance(t, outcome), s.threads[t].id);
  }

  lemma LateStartCalms(s: State, t: Tid, outcome: Outcome)
    requires t in s.threads && CanAdvance(s, t, s.threads[t], outcome) && s.threads[t].IsStart()
    requires var th := s.threads[t]; !th.StartChecked? && !th.StartBegun? && (th.StartNet? ==> outcome == Good)
    ensures var s' := Move(s, t, s.threads[t], outcome); t in s'.threads ==> Calms(s', s'.threads[t])
  {}

  lemma MovedStartCalms(s: State, t: Tid, outcome: Outcome)
    requires Calm(s) && t in s.threads && CanAdvance(s, t, s.threads[t], outcome) && s.threads[t].IsStart()
    ensures var s' := Move(s, t, s.threads[t], outcome); t in s'.threads ==> Calms(s', s'.threads[t])
  {
    var th := s.threads[t];
    if th.StartChecked? || th.StartBegun? || (th.StartNet? && outcome != Good) {
      assert Calms(s, th) && Fits(s, th);
      assert In(s, th.id, {Created, Stopped}) ==> NoneUp(s, th.id);
      EarlyStartCalms(s, t, outcome);
    } else {
      LateStartCalms(s, t, outcome);
    }
  }

  lemma EarlyStopCalms(s: State, t: Tid, outcome: Outcome)
    requires t in s.threads && CanAdvance(s, t, s.threads[t], outcome) && Calms(s, s.threads[t])
    requires var th := s.threads[t]; th.StopRead? || th.StopChecked? || th.StopSet?
    ensures var s' := Move(s, t, s.threads[t], outcome); t in s'.threads ==> Calms(s', s'.threads[t])
  {
    var th := s.threads[t];
    if th.vm.Some? { LatestKept(s, Advance(t, outcome), th.id, th.vm.value); }
  }

  lemma LateStopCalms(s: State, t: Tid, outcome: Outcome)
    requires Sane(s) && t in s.threads && CanAdvance(s, t, s.threads[t], outcome) && Calms(s, s.threads[t])
    requires var th := s.threads[t]; th.StopPoll? || th.StopForcing? || th.StopForced? || th.StopUnlisting?
    ensures var s' := Move(s, t, s.threads[t], outcome); t in s'.threads ==> Calms(s', s'.threads[t])
  {
    NoneUpKept(s, Advance(t, outcome), s.threads[t].id);
  }

  lemma MovedStopCalms(s: State, t: Tid, outcome: Outcome)
    requires Calm(s) && t in s.threads && CanAdvance(s, t, s.threads[t], outcome) && s.threads[t].IsStop()
    ensures var s' := Move(s, t, s.threads[t], outcome); t in s'.threads ==> Calms(s', s'.threads[t])
  {
    var th := s.threads[t];
    assert Calms(s, th) && Fits(s, th);
    if th.StopVm? {
      StoppedVmCalms(s, t, outcome);
    } else if th.StopRead? || th.StopChecked? || th.StopSet? {
      EarlyStopCalms(s, t, outcome);
    } else {
      LateStopCalms(s, t, outcome);
    }
  }

  lemma MovedMonitorCalms(s: State, t: Tid, outcome: Outcome)
    requires Calm(s) && t in s.threads && CanAdvance(s, t, s.threads[t], outcome) && s.threads[t].IsMonitor()
    ensures var s' := Move(s, t, s.threads[t], outcome); t in s'.threads ==> Calms(s', s'.threads[t])
  {}

  /** The VM that a new Stop finds is that of the latest Start. */
  lemma NewcomerCalms(s: State, a: Action)
    requires Calm(s) && Enabled(s, a) && (a.BeginStart? || a.BeginStop?)
    ensures Calms(Apply(s, a), Apply(s, a).threads[a.t])
  {
    if a.BeginStop? && a.id in s.vms {
      var run := s.vms[a.id];
      assert ListedWell(s, a.id, run);
      var t :| Minds(s, t, run);
      assert ThreadKnown(s, s.threads[t]) && Fits(s, s.threads[t]);
    }
  }

  lemma CalmsStep(s: State, a: Action, t: Tid)
    requires Calm(s) && Enabled(s, a) && t in Apply(s, a).threads
    ensures Calms(Apply(s, a), Apply(s, a).threads[t])
  {
    if a.Advance? && a.t == t {
      if s.threads[t].IsStart() {
        MovedStartCalms(s, t, a.outcome);
      } else if s.threads[t].IsMonitor() {
        MovedMonitorCalms(s, t, a.outcome);
      } else {
        MovedStopCalms(s, t, a.outcome);
      }
    } else if t in s.threads {
      BystanderCalms(s, a, t);
    } else {
      NewcomerCalms(s, a);
    }
  }

  /** Whoever sets Stopped knows that no child runs. */
  lemma SetsStoppedDown(s: State, t: Tid, outcome: Outcome)
    requires Calm(s) && t in s.threads && CanAdvance(s, t, s.threads[t], outcome)
    requires EffectOf(s, s.threads[t], outcome).sets == Some(Stopped)
    ensures NoneUp(s, s.threads[t].id) && !(s.threads[t].StartNet? && outcome == Good)
  {
    var th := s.threads[t];
    assert Calms(s, th) && Fits(s, th) && ThreadKnown(s, th);
    if th.MonClosed? { LatestDown(s, th.id, th.run); }
  }

  lemma DownStep(s: State, a: Action, id: Id)
    requires Calm(s) && Enabled(s, a) && In(Apply(s, a), id, {Created, Stopped})
    ensures NoneUp(Apply(s, a), id)
  {
    if In(s, id, {Created, Stopped}) {
      assert NoneUp(s, id);
      if a.Advance? { assert Fits(s, s.threads[a.t]); }
      NoneUpKept(s, a, id);
    } else if a.Create? {
      assert NoneUp(s, id);
    } else {
      NewlyStopped(s, a, id);
      SetsStoppedDown(s, a.t, a.outcome);
      NoneUpKept(s, a, id);
    }
  }

  lemma NewlyStopped(s: State, a: Action, id: Id)
    requires Enabled(s, a) && !a.Create? && In(Apply(s, a), id, {Created, Stopped}) && !In(s, id, {Created, Stopped})
    ensures a.Advance? && s.threads[a.t].id == id && EffectOf(s, s.threads[a.t], a.outcome).sets == Some(Stopped)
  {}

  lemma CalmStep(s: State, a: Action)
    requires Calm(s) && Enabled(s, a) && Admissible(s, a, ALL)
    ensures Calm(Apply(s, a))
  {
    var s' := Apply(s, a);
    OrderlyStep(s, a);
    forall t | t in s'.threads
      ensures Calms(s', s'.threads[t])
    {
      CalmsStep(s, a, t);
    }
    forall id | In(s', id, {Created, Stopped})
      ensures NoneUp(s', id)
    {
      DownStep(s, a, id);
    }
  }

  // Over whole runs -----------------------------------------------------------------------------

  lemma {:induction false} DisciplinedIsLegal(s: State, acts: seq<Action>, rules: Rules)
    requires Disciplined(s, acts, rules)
    ensures Legal(s, acts)
    decreases |acts|
  {
    if acts != [] { DisciplinedIsLegal(Apply(s, acts[0]), acts[1..], rules); }
  }

  lemma {:induction false} CalmAlways(s: State, acts: seq<Action>)
    requires Calm(s) && Disciplined(s, acts, ALL) && Legal(s, acts)
    ensures Calm(Exec(s, acts))
    decreases |acts|
  {
    if acts != [] {
      CalmStep(s, acts[0]);
      CalmAlways(Apply(s, acts[0]), acts[1..]);
    }
  }

  /** A child that exists for the kernel: it runs, or nobody has waited for it yet. */
  predicate Unreaped(s: State, run: Run) {
    run in s.procs && s.procs[run] != Exited
  }

  ghost predicate Safe(s: State) {
    && (forall id :: In(s, id, {Running}) ==>
          WellListed(s, id) && id in s.networks && s.networks[id] == s.vms[id])
    && (forall r, r' | Unreaped(s, r) && Unreaped(s, r') && r != r' && Owner(s, r) == Owner(s, r') ::
          r in s.aborted || r' in s.aborted)
    && (forall t :: t in s.threads ==> !s.threads[t].StopNoVm?)
    && (forall id: Id, r: Run ::
          In(s, id, {Created, Stopped}) && Owner(s, r) == Some(id) && r in s.procs ==> s.procs[r] != Up)
  }

  function Owner(s: State, run: Run): Option<Id> {
    if run in s.owner then Some(s.owner[run]) else None
  }

  lemma OneUnreaped(s: State, r: Run, r': Run)
    requires Orderly(s) && Unreaped(s, r) && Unreaped(s, r') && Owner(s, r) == Owner(s, r')
    requires r !in s.aborted && r' !in s.aborted
    ensures r == r'
  {
    var t :| Minds(s, t, r);
    var t' :| Minds(s, t', r');
    assert ThreadKnown(s, s.threads[t]) && Fits(s, s.threads[t]);
    assert ThreadKnown(s, s.threads[t']) && Fits(s, s.threads[t']);
  }

  /** Nobody is about to change the map entries of a running machine. */
  lemma RunningPaired(s: State, id: Id)
    requires Orderly(s) && In(s, id, {Running})
    ensures WellListed(s, id) && id in s.networks && s.networks[id] == s.vms[id]
  {
    assert Agree(s, id);
    assert s.lock.Some? && s.lock.value in s.threads ==> Fits(s, s.threads[s.lock.value]);
  }

  lemma CalmIsSafe(s: State)
    requires Calm(s)
    ensures Safe(s)
  {
    forall id: Id, r: Run | In(s, id, {Created, Stopped}) && Owner(s, r) == Some(id) && r in s.procs
      ensures s.procs[r] != Up
    {
      assert NoneUp(s, id);
    }
    forall id | In(s, id, {Running})
      ensures WellListed(s, id) && id in s.networks && s.networks[id] == s.vms[id]
    {
      RunningPaired(s, id);
    }
    forall r, r' | Unreaped(s, r) && Unreaped(s, r') && r != r' && Owner(s, r) == Owner(s, r')
      ensures r in s.aborted || r' in s.aborted
    {
      if r !in s.aborted && r' !in s.aborted { OneUnreaped(s, r, r'); }
    }
    forall t | t in s.threads
      ensures !s.threads[t].StopNoVm?
    {
      assert Fits(s, s.threads[t]);
    }
  }

  /** In every state of every disciplined run, over any number of machines and goroutines: a Running
      machine is listed with the VM and network of its latest Start; of two unreaped children of one
      machine, one was killed by a Start that could not configure it; no Stop finds a running machine
      without a VM; and no child of a machine that shows Stopped or Created runs. */
  lemma DisciplinedRunsAreSafe(acts: seq<Action>)
    requires Disciplined(INIT, acts, ALL)
    ensures Legal(INIT, acts) && Safe(Exec(INIT, acts))
  {
    DisciplinedIsLegal(INIT, acts, ALL);
    CalmAlways(INIT, acts);
    CalmIsSafe(Exec(INIT, acts));
  }
}

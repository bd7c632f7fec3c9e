/** No rule for callers can be dropped: runs that keep the two others and go wrong. And what no rule
    helps against. */
module LifecycleLimits {
  import opened Options
  import opened Lifecycle
  import opened LifecycleSafety

  lemma {:induction false} Concat(s: State, xs: seq<Action>, ys: seq<Action>, rules: Rules)
    requires Disciplined(s, xs, rules) && Legal(s, xs) && Disciplined(Exec(s, xs), ys, rules)
    ensures Disciplined(s, xs + ys, rules) && Legal(s, xs + ys) && Legal(Exec(s, xs), ys)
    ensures Exec(s, xs + ys) == Exec(Exec(s, xs), ys)
    decreases |xs|
  {
    DisciplinedIsLegal(Exec(s, xs), ys, rules);
    if xs == [] {
      assert xs + ys == ys;
    } else {
      assert (xs + ys)[1..] == xs[1..] + ys;
      Concat(Apply(s, xs[0]), xs[1..], ys, rules);
    }
  }

  lemma One(s: State, a: Action, rules: Rules)
    requires Enabled(s, a) && Admissible(s, a, rules)
    ensures Disciplined(s, [a], rules) && Legal(s, [a]) && Exec(s, [a]) == Apply(s, a)
  {
    assert [a][1..] == [];
  }

  /** The run is one that callers keeping the rules may cause, and leads to s. */
  ghost predicate Reached(acts: seq<Action>, s: State, rules: Rules) {
    Disciplined(INIT, acts, rules) && Legal(INIT, acts) && Exec(INIT, acts) == s
  }

  function All(acts: seq<Action>): seq<Action> {
    acts
  }

  /** Reached, put so that the run is not unrolled again at every step below. */
  ghost predicate Trail(acts: seq<Action>, s: State, rules: Rules) {
    forall run {:trigger All(run)} | run == acts :: Reached(All(run), s, rules)
  }

  lemma TrailEnds(acts: seq<Action>, s: State, rules: Rules)
    requires Trail(acts, s, rules)
    ensures Reached(acts, s, rules)
  {
    assert All(acts) == acts;
  }

  /** One more step of a run that has led to s. */
  lemma Snoc(acts: seq<Action>, s: State, a: Action, rules: Rules) returns (acts': seq<Action>, s': State)
    requires Trail(acts, s, rules) && Enabled(s, a) && Admissible(s, a, rules)
    ensures Trail(acts', s', rules) && s' == Apply(s, a)
  {
    TrailEnds(acts, s, rules);
    One(s, a, rules);
    Concat(INIT, acts, [a], rules);
    acts', s' := acts + [a], Apply(s, a);
  }

  lemma Overwrite<K, V>(m: map<K, V>, k: K, v: V, w: V)
    ensures m[k := v][k := w] == m[k := w]
  {}

  function Started(s: State, t: Tid, id: Id): State {
    s.(threads := s.threads[t := StartBegun(id)], state := s.state[id := Starting])
  }

  function Spawned(s: State, t: Tid, id: Id): State {
    s.(threads := s.threads[t := StartUp(id, s.next)], owner := s.owner[s.next := id],
       latest := s.latest[id := s.next], next := s.next + 1, open := s.open + {s.next},
       procs := s.procs[s.next := Up])
  }

  function Shown(s: State, t: Tid, id: Id, run: Run): State {
    s.(threads := s.threads[t := MonWait(id, run)], vms := s.vms[id := run],
       networks := s.networks[id := run], state := s.state[id := Running])
  }

  lemma Admit(acts: seq<Action>, s: State, t: Tid, id: Id, rules: Rules) returns (acts': seq<Action>, s': State)
    requires Trail(acts, s, rules)
    requires Enabled(s, BeginStart(t, id)) && Admissible(s, BeginStart(t, id), rules)
    ensures Trail(acts', s', rules) && s' == Started(s, t, id)
  {
    acts', s' := Snoc(acts, s, BeginStart(t, id), rules);
    acts', s' := Snoc(acts', s', Advance(t, Good), rules);
    Overwrite(s.threads, t, StartChecked(id), StartBegun(id));
  }

  lemma Spawn(acts: seq<Action>, s: State, t: Tid, id: Id, rules: Rules) returns (acts': seq<Action>, s': State)
    requires Trail(acts, s, rules)
    requires t in s.threads && s.threads[t] == StartBegun(id) && id in s.state
    ensures Trail(acts', s', rules) && s' == Spawned(s, t, id)
  {
    acts', s' := Snoc(acts, s, Advance(t, Good), rules);
    acts', s' := Snoc(acts', s', Advance(t, Good), rules);
    Overwrite(s.threads, t, StartNet(id, s.next), StartUp(id, s.next));
  }

  function Listed(s: State, t: Tid, id: Id, run: Run): State {
    s.(threads := s.threads[t := StartListed(id, run)], vms := s.vms[id := run], networks := s.networks[id := run])
  }

  lemma ListBoth(acts: seq<Action>, s: State, t: Tid, id: Id, run: Run, rules: Rules)
    returns (acts': seq<Action>, s': State)
    requires Trail(acts, s, rules)
    requires t in s.threads && s.threads[t] == StartUp(id, run) && id in s.state && s.lock == None
    ensures Trail(acts', s', rules) && s' == Listed(s, t, id, run)
  {
    acts', s' := Snoc(acts, s, Advance(t, Good), rules);
    acts', s' := Snoc(acts', s', Advance(t, Good), rules);
    Overwrite(s.threads, t, StartListing(id, run), StartListed(id, run));
  }

  lemma Show(acts: seq<Action>, s: State, t: Tid, id: Id, run: Run, rules: Rules)
    returns (acts': seq<Action>, s': State)
    requires Trail(acts, s, rules)
    requires t in s.threads && s.threads[t] == StartUp(id, run) && id in s.state && s.lock == None
    ensures Trail(acts', s', rules) && s' == Shown(s, t, id, run)
  {
    acts', s' := ListBoth(acts, s, t, id, run, rules);
    Overwrite(s.threads, t, StartListed(id, run), StartShown(id, run));
    Overwrite(s.threads, t, StartShown(id, run), MonWait(id, run));
    acts', s' := Snoc(acts', s', Advance(t, Good), rules);
    acts', s' := Snoc(acts', s', Advance(t, Good), rules);
  }

  function Unlisted(s: State, t: Tid, id: Id): State {
    s.(threads := s.threads - {t}, vms := s.vms - {id}, networks := s.networks - {id})
  }

  /** The last two steps of a monitor, or of a Stop that gave up waiting. */
  lemma Unlist(acts: seq<Action>, s: State, t: Tid, rules: Rules) returns (acts': seq<Action>, s': State)
    requires Trail(acts, s, rules)
    requires t in s.threads && (s.threads[t].MonStopped? || s.threads[t].StopForced?)
    requires s.threads[t].id in s.state && s.lock == None
    ensures Trail(acts', s', rules) && s' == Unlisted(s, t, s.threads[t].id)
  {
    acts', s' := Snoc(acts, s, Advance(t, Good), rules);
    acts', s' := Snoc(acts', s', Advance(t, Good), rules);
    assert s'.threads == s.threads - {t};
  }

  /** Machine 0 after its first run 0 has got a process. */
  function OneRun(state: MState, listed: map<Id, Run>, threads: map<Tid, Thread>, proc: Proc, open: set<Run>): State {
    State({0}, map[0 := state], listed, listed, threads, None, map[0 := 0], map[0 := 0], map[0 := proc], 1, open, {})
  }

  /** A machine 0 and a first run of it, minded by goroutine 1. */
  const CREATED := State({0}, map[0 := Created], map[], map[], map[], None, map[], map[], map[], 0, {}, {})
  const FIRST := OneRun(Running, map[0 := 0], map[1 := MonWait(0, 0)], Up, {0})

  lemma CreateFirst(rules: Rules) returns (acts: seq<Action>)
    ensures Trail(acts, CREATED, rules)
  {
    var s;
    assert Trail([], INIT, rules);
    acts, s := Snoc([], INIT, Create(0), rules);
  }

  lemma StartFirst(rules: Rules) returns (acts: seq<Action>)
    ensures Trail(acts, FIRST, rules)
  {
    acts := CreateFirst(rules);
    var s;
    acts, s := Admit(acts, CREATED, 1, 0, rules);
    acts, s := Spawn(acts, s, 1, 0, rules);
    acts, s := Show(acts, s, 1, 0, 0, rules);
    assert s == FIRST;
  }

  const EXITED := OneRun(Running, map[0 := 0], map[1 := MonExited(0, 0)], Exited, {0})

  lemma FirstExits(rules: Rules) returns (acts: seq<Action>)
    ensures Trail(acts, EXITED, rules)
  {
    acts := StartFirst(rules);
    var s;
    acts, s := Snoc(acts, FIRST, ProcExit(0), rules);
    assert s == OneRun(Running, map[0 := 0], map[1 := MonWait(0, 0)], Exited, {0});
    acts, s := Snoc(acts, s, Advance(1, Good), rules);
    assert s == EXITED;
  }

  const CLOSED := OneRun(Running, map[0 := 0], map[1 := MonClosed(0, 0)], Exited, {})

  lemma FirstCloses(rules: Rules) returns (acts: seq<Action>)
    ensures Trail(acts, CLOSED, rules)
  {
    acts := FirstExits(rules);
    var s;
    acts, s := Snoc(acts, EXITED, Advance(1, Good), rules);
    assert s == CLOSED;
  }

  /** The first run's process has exited and its monitor has set Stopped, but not unlisted it yet. */
  const LEAVING := OneRun(Stopped, map[0 := 0], map[1 := MonStopped(0, 0)], Exited, {})

  lemma FirstLeaves(rules: Rules) returns (acts: seq<Action>)
    ensures Trail(acts, LEAVING, rules)
  {
    acts := FirstCloses(rules);
    var s;
    acts, s := Snoc(acts, CLOSED, Advance(1, Good), rules);
    assert s == LEAVING;
  }

  const RESTARTING := OneRun(Starting, map[0 := 0], map[1 := MonStopped(0, 0), 2 := StartBegun(0)], Exited, {})

  lemma RestartAdmitted(rules: Rules) returns (acts: seq<Action>)
    requires !rules.monitorsDone
    ensures Trail(acts, RESTARTING, rules)
  {
    acts := FirstLeaves(rules);
    var s;
    acts, s := Admit(acts, LEAVING, 2, 0, rules);
    assert s == RESTARTING;
  }

  /** Started again, with the first monitor still there. */
  const RESTARTED := State({0}, map[0 := Running], map[0 := 1], map[0 := 1],
                           map[1 := MonStopped(0, 0), 2 := MonWait(0, 1)], None,
                           map[0 := 0, 1 := 0], map[0 := 1], map[0 := Exited, 1 := Up], 2, {1}, {})

  lemma Restart(rules: Rules) returns (acts: seq<Action>)
    requires !rules.monitorsDone
    ensures Trail(acts, RESTARTED, rules)
  {
    acts := RestartAdmitted(rules);
    var s;
    acts, s := Spawn(acts, RESTARTING, 2, 0, rules);
    acts, s := Show(acts, s, 2, 0, 1, rules);
    assert s == RESTARTED;
  }

  /** With no Stop at all: a machine is started again while its previous monitor still has to unlist
      it. The monitor then unlists the new run: the machine is Running, its VM lives, no Stop finds it. */
  lemma MonitorsDoneNeeded() returns (acts: seq<Action>, s: State)
    ensures Reached(acts, s, Rules(true, true, false))
    ensures !Safe(s) && In(s, 0, {Running}) && 0 !in s.vms && Unreaped(s, 1) && s.owner == map[0 := 0, 1 := 0]
  {
    var rules := Rules(true, true, false);
    acts := Restart(rules);
    acts, s := Unlist(acts, RESTARTED, 1, rules);
    assert In(s, 0, {Running}) && !WellListed(s, 0);
    TrailEnds(acts, s, rules);
  }

  /** A Stop has read the maps before the starting VM was listed. */
  const BLIND := State({0}, map[0 := Starting], map[], map[],
                       map[1 := StartBegun(0), 2 := StopRead(0, None, None)], None, map[], map[], map[], 0, {}, {})
  const RACED := OneRun(Running, map[0 := 0], map[1 := MonWait(0, 0), 2 := StopRead(0, None, None)], Up, {0})

  lemma ReadEarly(rules: Rules) returns (acts: seq<Action>)
    requires !rules.stopWaits
    ensures Trail(acts, BLIND, rules)
  {
    acts := CreateFirst(rules);
    var s;
    acts, s := Admit(acts, CREATED, 1, 0, rules);
    acts, s := Snoc(acts, s, BeginStop(2, 0), rules);
    assert s == BLIND;
  }

  lemma Race(rules: Rules) returns (acts: seq<Action>)
    requires !rules.stopWaits
    ensures Trail(acts, RACED, rules)
  {
    acts := ReadEarly(rules);
    var s;
    acts, s := Spawn(acts, BLIND, 1, 0, rules);
    acts, s := Show(acts, s, 1, 0, 0, rules);
    assert s == RACED;
  }

  /** A Stop that begins while Start is active reads the maps before Start has listed the VM, and checks
      the state after Start has set Running. It goes down the "no VM" branch. */
  lemma StopWaitsNeeded() returns (acts: seq<Action>, s: State)
    ensures Reached(acts, s, Rules(true, false, true))
    ensures !Safe(s) && 2 in s.threads && s.threads[2] == StopNoVm(0) && Unreaped(s, 0) && s.owner == map[0 := 0]
  {
    var rules := Rules(true, false, true);
    acts := Race(rules);
    acts, s := Snoc(acts, RACED, Advance(2, Good), rules);
    acts, s := Snoc(acts, s, Advance(2, Good), rules);
    acts, s := Snoc(acts, s, Advance(2, Good), rules);
    assert s.threads[2].StopNoVm?;
    TrailEnds(acts, s, rules);
  }

  /** A Stop of the running machine, step by step, up to its forced end. */
  const READ := OneRun(Running, map[0 := 0], map[1 := MonWait(0, 0), 2 := StopRead(0, Some(0), Some(0))], Up, {0})

  lemma FirstRead(rules: Rules) returns (acts: seq<Action>)
    ensures Trail(acts, READ, rules)
  {
    acts := StartFirst(rules);
    var s;
    acts, s := Snoc(acts, FIRST, BeginStop(2, 0), rules);
    assert s == READ;
  }

  const CHECKED :=
    OneRun(Running, map[0 := 0], map[1 := MonWait(0, 0), 2 := StopChecked(0, Some(0), Some(0))], Up, {0})

  lemma FirstChecked(rules: Rules) returns (acts: seq<Action>)
    ensures Trail(acts, CHECKED, rules)
  {
    acts := FirstRead(rules);
    var s;
    acts, s := Snoc(acts, READ, Advance(2, Good), rules);
    assert s == CHECKED;
  }

  const STOPPING :=
    OneRun(Stopping, map[0 := 0], map[1 := MonWait(0, 0), 2 := StopSet(0, Some(0), Some(0))], Up, {0})

  lemma FirstStopping(rules: Rules) returns (acts: seq<Action>)
    ensures Trail(acts, STOPPING, rules)
  {
    acts := FirstChecked(rules);
    var s;
    acts, s := Snoc(acts, CHECKED, Advance(2, Good), rules);
    assert s == STOPPING;
  }

  const ASKED := OneRun(Stopping, map[0 := 0], map[1 := MonWait(0, 0), 2 := StopVm(0, 0)], Up, {})

  lemma FirstAsked(rules: Rules) returns (acts: seq<Action>)
    ensures Trail(acts, ASKED, rules)
  {
    acts := FirstStopping(rules);
    var s;
    acts, s := Snoc(acts, STOPPING, Advance(2, Good), rules);
    assert s == ASKED;
  }

  const KILLED := OneRun(Stopping, map[0 := 0], map[1 := MonWait(0, 0), 2 := StopPoll(0)], Killed, {})

  lemma FirstKilled(rules: Rules) returns (acts: seq<Action>)
    ensures Trail(acts, KILLED, rules)
  {
    acts := FirstAsked(rules);
    var s;
    acts, s := Snoc(acts, ASKED, Advance(2, Bad), rules);
    assert s == KILLED;
  }

  const LATE := OneRun(Stopping, map[0 := 0], map[1 := MonWait(0, 0), 2 := StopForcing(0)], Killed, {})

  lemma FirstLate(rules: Rules) returns (acts: seq<Action>)
    ensures Trail(acts, LATE, rules)
  {
    acts := FirstKilled(rules);
    var s;
    acts, s := Snoc(acts, KILLED, Advance(2, Bad), rules);
    assert s == LATE;
  }

  const FORCING := OneRun(Stopped, map[0 := 0], map[1 := MonWait(0, 0), 2 := StopForced(0)], Killed, {})

  lemma FirstForcing(rules: Rules) returns (acts: seq<Action>)
    ensures Trail(acts, FORCING, rules)
  {
    acts := FirstLate(rules);
    var s;
    acts, s := Snoc(acts, LATE, Advance(2, Good), rules);
    assert s == FORCING;
  }

  /** A Stop gave up waiting: the machine is Stopped and unlisted, its killed process not yet reaped. */
  const FORCED := OneRun(Stopped, map[], map[1 := MonWait(0, 0)], Killed, {})

  lemma FirstForced(rules: Rules) returns (acts: seq<Action>)
    ensures Trail(acts, FORCED, rules)
  {
    acts := FirstForcing(rules);
    var s;
    acts, s := Unlist(acts, FORCING, 2, rules);
    assert s == FORCED;
  }

  const AGAIN := OneRun(Starting, map[], map[1 := MonWait(0, 0), 3 := StartBegun(0)], Killed, {})

  lemma StartAgain(rules: Rules) returns (acts: seq<Action>)
    requires !rules.monitorsDone
    ensures Trail(acts, AGAIN, rules)
  {
    acts := FirstForced(rules);
    var s;
    acts, s := Admit(acts, FORCED, 3, 0, rules);
    assert s == AGAIN;
  }

  /** Through the forced path of Stop, with calls that never overlap: two unreaped children of a machine,
      neither of them given up by Start. */
  lemma TwoLiveProcesses() returns (acts: seq<Action>, s: State)
    ensures Reached(acts, s, Rules(true, true, false))
    ensures !Safe(s) && Unreaped(s, 0) && Unreaped(s, 1) && s.owner == map[0 := 0, 1 := 0] && s.aborted == {}
  {
    var rules := Rules(true, true, false);
    acts := StartAgain(rules);
    acts, s := Spawn(acts, AGAIN, 3, 0, rules);
    assert s.owner == map[0 := 0, 1 := 0] && s.procs == map[0 := Killed, 1 := Up];
    assert Unreaped(s, 0) && Unreaped(s, 1) && Owner(s, 0) == Owner(s, 1);
    TrailEnds(acts, s, rules);
  }

  /** The monitor is done, and the Stop that it should release has not looked yet. */
  const OVERSLEPT := OneRun(Stopped, map[], map[2 := StopPoll(0)], Exited, {})
  const REAPED := OneRun(Stopping, map[0 := 0], map[1 := MonExited(0, 0), 2 := StopPoll(0)], Exited, {})

  lemma FirstReaped(rules: Rules) returns (acts: seq<Action>)
    ensures Trail(acts, REAPED, rules)
  {
    acts := FirstKilled(rules);
    var s;
    acts, s := Snoc(acts, KILLED, ProcExit(0), rules);
    assert s == OneRun(Stopping, map[0 := 0], map[1 := MonWait(0, 0), 2 := StopPoll(0)], Exited, {});
    acts, s := Snoc(acts, s, Advance(1, Good), rules);
    assert s == REAPED;
  }

  const WOUND_UP := OneRun(Stopping, map[0 := 0], map[1 := MonClosed(0, 0), 2 := StopPoll(0)], Exited, {})

  lemma FirstWoundUp(rules: Rules) returns (acts: seq<Action>)
    ensures Trail(acts, WOUND_UP, rules)
  {
    acts := FirstReaped(rules);
    var s;
    acts, s := Snoc(acts, REAPED, Advance(1, Good), rules);
    assert s == WOUND_UP;
  }

  lemma Oversleep(rules: Rules) returns (acts: seq<Action>)
    ensures Trail(acts, OVERSLEPT, rules)
  {
    acts := FirstWoundUp(rules);
    var s;
    acts, s := Snoc(acts, WOUND_UP, Advance(1, Good), rules);
    assert s == OneRun(Stopped, map[0 := 0], map[1 := MonStopped(0, 0), 2 := StopPoll(0)], Exited, {});
    acts, s := Unlist(acts, s, 1, rules);
    assert s == OVERSLEPT;
  }

  /** Machine 0 after its second run 1 has got a process; the first is over. */
  function TwoRuns(state: MState, threads: map<Tid, Thread>): State {
    State({0}, map[0 := state], map[], map[], threads, None, map[0 := 0, 1 := 0], map[0 := 1],
          map[0 := Exited, 1 := Up], 2, {1}, {})
  }

  const ASLEEP := TwoRuns(Starting, map[2 := StopPoll(0), 3 := StartUp(0, 1)])
  const WOKEN := TwoRuns(Stopped, map[2 := StopForced(0), 3 := StartUp(0, 1)])

  lemma StartMeanwhile(rules: Rules) returns (acts: seq<Action>)
    requires !rules.startWaits
    ensures Trail(acts, ASLEEP, rules)
  {
    acts := Oversleep(rules);
    var s;
    acts, s := Admit(acts, OVERSLEPT, 3, 0, rules);
    assert s == OneRun(Starting, map[], map[2 := StopPoll(0), 3 := StartBegun(0)], Exited, {});
    acts, s := Spawn(acts, s, 3, 0, rules);
    assert s == ASLEEP;
  }

  /** The Stop passes its deadline and sets Stopped. */
  const WAKING := TwoRuns(Starting, map[2 := StopForcing(0), 3 := StartUp(0, 1)])

  lemma SleepPast(rules: Rules) returns (acts: seq<Action>)
    requires !rules.startWaits
    ensures Trail(acts, WAKING, rules)
  {
    acts := StartMeanwhile(rules);
    var s;
    acts, s := Snoc(acts, ASLEEP, Advance(2, Bad), rules);
    assert s == WAKING;
  }

  lemma WakeUp(rules: Rules) returns (acts: seq<Action>)
    requires !rules.startWaits
    ensures Trail(acts, WOKEN, rules)
  {
    acts := SleepPast(rules);
    var s;
    acts, s := Snoc(acts, WAKING, Advance(2, Good), rules);
    assert s == WOKEN;
  }

  /** A Start that is admitted while a Stop is still active ends Running, and the Stop unlists it. */
  lemma StartWaitsNeeded() returns (acts: seq<Action>, s: State)
    ensures Reached(acts, s, Rules(false, true, true))
    ensures !Safe(s) && In(s, 0, {Running}) && 0 !in s.vms && Unreaped(s, 1) && s.owner == map[0 := 0, 1 := 0]
  {
    var rules := Rules(false, true, true);
    acts := WakeUp(rules);
    acts, s := Show(acts, WOKEN, 3, 0, 1, rules);
    acts, s := Unlist(acts, s, 2, rules);
    assert In(s, 0, {Running}) && !WellListed(s, 0);
    TrailEnds(acts, s, rules);
  }

  // Under all rules -----------------------------------------------------------------------------

  const BEGUN := State({0}, map[0 := Starting], map[], map[], map[1 := StartBegun(0)], None,
                       map[], map[], map[], 0, {}, {})
  const GIVEN_UP := State({0}, map[0 := Starting], map[], map[], map[1 := StartFailed(0, 0)], None,
                          map[0 := 0], map[0 := 0], map[0 := Killed], 1, {}, {0})
  const FAILED := State({0}, map[0 := Stopped], map[], map[], map[], None,
                        map[0 := 0], map[0 := 0], map[0 := Killed], 1, {}, {0})

  lemma FailToConfigure() returns (acts: seq<Action>)
    ensures Trail(acts, GIVEN_UP, ALL)
  {
    acts := CreateFirst(ALL);
    var s;
    acts, s := Admit(acts, CREATED, 1, 0, ALL);
    assert s == BEGUN;
    acts, s := Snoc(acts, BEGUN, Advance(1, Good), ALL);
    acts, s := Snoc(acts, s, Advance(1, BadAfterSpawn), ALL);
    assert s == GIVEN_UP;
  }

  /** The exception in Safe is real: Start kills a child that it could not configure and does not wait
      for it. The machine can be started again, and has two unreaped children, one of them minded by
      nobody. */
  lemma AbortedChildRemains() returns (acts: seq<Action>, s: State)
    ensures Reached(acts, s, ALL)
    ensures Unreaped(s, 0) && Unreaped(s, 1) && s.owner == map[0 := 0, 1 := 0] && !Minded(s, 0)
  {
    acts := FailToConfigure();
    acts, s := Snoc(acts, GIVEN_UP, Advance(1, Good), ALL);
    assert s == FAILED;
    acts, s := Admit(acts, FAILED, 1, 0, ALL);
    acts, s := Spawn(acts, s, 1, 0, ALL);
    assert s.threads == map[1 := StartUp(0, 1)] && s.procs == map[0 := Killed, 1 := Up];
    TrailEnds(acts, s, ALL);
  }

  /** Such a child is never reaped. */
  lemma {:induction false} AbortedStays(s: State, acts: seq<Action>, run: Run)
    requires Inv(s) && Legal(s, acts) && run in s.aborted
    ensures var s' := Exec(s, acts); run in s'.aborted && run in s'.procs && s'.procs[run] == Killed
    decreases |acts|
  {
    if acts != [] {
      InvStep(s, acts[0]);
      AbortedStays(Apply(s, acts[0]), acts[1..], run);
    }
  }
}

/** The image cache: how concurrent calls of Ensure fill the directories, and what a returned
    directory is worth. The first twelve digits of a digest are taken to identify it. */
module ImageCache {
  import opened Options

  type Tid = nat

  /** A cache directory: the image's base name and its digest. */
  datatype Dir = Dir(name: string, digest: string)

  /** What has been done for a directory that exists. */
  datatype Content = Content(extracted: bool, init: bool, resolvConf: bool)

  const MADE := Content(false, false, false)
  const COMPLETE := Content(true, true, true)

  /** Which part of filling a directory a call is to do next. */
  datatype Part = Image | Init | ResolvConf

  function With(c: Content, p: Part): Content {
    match p
    case Image => c.(extracted := true)
    case Init => c.(init := true)
    case ResolvConf => c.(resolvConf := true)
  }

  /** How a call came by its result. */
  datatype How = Hit(seen: Content) | Led | Joined(leader: Tid)

  /** Where a call of Ensure is. */
  datatype Call =
    | Looking(dir: Dir)                // about to look for the directory
    | Missed(dir: Dir)                 // about to enter the flight for its digest
    | Waiting(dir: Dir, leader: Tid)   // another call leads the flight
    | Leading(dir: Dir)                // about to look again
    | Pulling(dir: Dir)
    | Extracting(dir: Dir)
    | Injecting(dir: Dir)
    | Resolving(dir: Dir)
    | Done(dir: Dir, ok: bool, how: How)
  {
    predicate Flying() {
      Leading? || Pulling? || Filling()
    }

    predicate Filling() {
      Extracting? || Injecting? || Resolving?
    }
  }

  datatype State = State(dirs: map<Dir, Content>, flights: map<string, Tid>, calls: map<Tid, Call>)

  const EMPTY := State(map[], map[], map[])

  datatype Action = Begin(t: Tid, dir: Dir) | Step(t: Tid, good: bool)

  predicate Enabled(s: State, a: Action) {
    match a
    case Begin(t, _) => t !in s.calls
    case Step(t, _) =>
      && t in s.calls && !s.calls[t].Done?
      && (s.calls[t].Waiting? ==> s.calls[t].leader in s.calls && s.calls[s.calls[t].leader].Done?)
  }

  function Goto(s: State, t: Tid, c: Call): State {
    s.(calls := s.calls[t := c])
  }

  /** The flight is over: its leader returns, and whoever waits may. */
  function Land(s: State, t: Tid, dir: Dir, ok: bool): State {
    Goto(s, t, Done(dir, ok, Led)).(flights := s.flights - {dir.digest})
  }

  function Fill(s: State, dir: Dir, p: Part): State {
    if dir in s.dirs then s.(dirs := s.dirs[dir := With(s.dirs[dir], p)]) else s
  }

  function Apply(s: State, a: Action): State
    requires Enabled(s, a)
  {
    match a
    case Begin(t, dir) => Goto(s, t, Looking(dir))
    case Step(t, good) => (
      match s.calls[t]
      case Looking(dir) =>
        Goto(s, t, if dir in s.dirs then Done(dir, true, Hit(s.dirs[dir])) else Missed(dir))
      case Missed(dir) =>
        if dir.digest in s.flights then Goto(s, t, Waiting(dir, s.flights[dir.digest]))
        else Goto(s, t, Leading(dir)).(flights := s.flights[dir.digest := t])
      case Waiting(dir, leader) => Goto(s, t, Done(dir, s.calls[leader].ok, Joined(leader)))
      case Leading(dir) => if dir in s.dirs then Land(s, t, dir, true) else Goto(s, t, Pulling(dir))
      case Pulling(dir) =>
        if good then Goto(s, t, Extracting(dir)).(dirs := s.dirs[dir := MADE])
        else Land(s, t, dir, false)
      case Extracting(dir) => if good then Fill(Goto(s, t, Injecting(dir)), dir, Image) else GiveUp(s, t, dir)
      case Injecting(dir) => if good then Fill(Goto(s, t, Resolving(dir)), dir, Init) else GiveUp(s, t, dir)
      case Resolving(dir) =>
        if good then Fill(Land(s, t, dir, true), dir, ResolvConf) else GiveUp(s, t, dir)
      case Done(_, _, _) => s)
  }

  /** A failure after the directory was made removes it. */
  function GiveUp(s: State, t: Tid, dir: Dir): State {
    Land(s, t, dir, false).(dirs := s.dirs - {dir})
  }

  ghost predicate Legal(s: State, acts: seq<Action>)
    decreases |acts|
  {
    acts == [] || (Enabled(s, acts[0]) && Legal(Apply(s, acts[0]), acts[1..]))
  }

  ghost function Exec(s: State, acts: seq<Action>): State
    requires Legal(s, acts)
    decreases |acts|
  {
    if acts == [] then s else Exec(Apply(s, acts[0]), acts[1..])
  }

  // The invariant -------------------------------------------------------------------------------

  predicate IsComplete(s: State, dir: Dir) {
    dir in s.dirs && s.dirs[dir].extracted && s.dirs[dir].init && s.dirs[dir].resolvConf
  }

  predicate LedTo(s: State, leader: Tid, dir: Dir, ok: bool) {
    && leader in s.calls && s.calls[leader].dir.digest == dir.digest
    && s.calls[leader].Done? && s.calls[leader].how.Led? && s.calls[leader].ok == ok
  }

  predicate Sound(s: State, t: Tid) {
    t in s.calls ==>
      var c := s.calls[t];
      && (c.Flying() <==> c.dir.digest in s.flights && s.flights[c.dir.digest] == t)
      && (c.Filling() ==> c.dir in s.dirs && s.dirs[c.dir] == Content(!c.Extracting?, c.Resolving?, false))
      && (c.Pulling? ==> c.dir !in s.dirs)
      && (c.Waiting? ==>
           && c.leader in s.calls && s.calls[c.leader].dir.digest == c.dir.digest
           && (s.calls[c.leader].Flying() || (s.calls[c.leader].Done? && s.calls[c.leader].how.Led?)))
      && (c.Done? && c.how.Led? && c.ok ==> IsComplete(s, c.dir))
      && (c.Done? && c.how.Joined? ==> LedTo(s, c.how.leader, c.dir, c.ok))
      && (c.Done? && c.how.Hit? ==> c.ok && (c.how.seen == COMPLETE ==> IsComplete(s, c.dir)))
  }

  predicate Fills(s: State, t: Tid, dir: Dir) {
    t in s.calls && s.calls[t].Filling() && s.calls[t].dir == dir
  }

  ghost predicate Attended(s: State, dir: Dir) {
    exists t :: Fills(s, t, dir)
  }

  predicate HasLeader(s: State, d: string)
    requires d in s.flights
  {
    var t := s.flights[d];
    t in s.calls && s.calls[t].Flying() && s.calls[t].dir.digest == d
  }

  ghost predicate Inv(s: State) {
    && (forall t :: t in s.calls ==> Sound(s, t))
    && (forall d :: d in s.flights ==> HasLeader(s, d))
    && (forall dir :: dir in s.dirs && s.dirs[dir] != COMPLETE ==> Attended(s, dir))
  }

  lemma OneFiller(s: State, t: Tid, u: Tid, dir: Dir)
    requires Inv(s) && Fills(s, t, dir) && Fills(s, u, dir)
    ensures t == u
  {
    assert Sound(s, t) && Sound(s, u);
  }

  /** The leader of a flight that finds its directory finds it complete. */
  lemma LeaderFindsComplete(s: State, t: Tid)
    requires Inv(s) && t in s.calls && s.calls[t].Leading? && s.calls[t].dir in s.dirs
    ensures IsComplete(s, s.calls[t].dir)
  {
    assert Sound(s, t);
    assert forall u :: Fills(s, u, s.calls[t].dir) ==> Sound(s, u);
  }

  /** The first half of a call, up to its entering a flight. */
  lemma SeekerSound(s: State, t: Tid, good: bool)
    requires Inv(s) && Enabled(s, Step(t, good)) && (s.calls[t].Looking? || s.calls[t].Missed? || s.calls[t].Waiting?)
    ensures Sound(Apply(s, Step(t, good)), t)
  {
    var c := s.calls[t];
    assert Sound(s, t);
    if c.Waiting? { assert Sound(s, c.leader); }
    if c.Missed? && c.dir.digest in s.flights { assert HasLeader(s, c.dir.digest); }
  }

  lemma LeaderSound(s: State, t: Tid, good: bool)
    requires Inv(s) && Enabled(s, Step(t, good)) && (s.calls[t].Leading? || s.calls[t].Pulling?)
    ensures Sound(Apply(s, Step(t, good)), t)
  {
    assert Sound(s, t);
    if s.calls[t].Leading? && s.calls[t].dir in s.dirs { LeaderFindsComplete(s, t); }
  }

  lemma FillerSound(s: State, t: Tid, good: bool)
    requires Sound(s, t) && Enabled(s, Step(t, good)) && s.calls[t].Filling()
    ensures Sound(Apply(s, Step(t, good)), t)
  {}

  lemma MoverSound(s: State, a: Action)
    requires Inv(s) && Enabled(s, a)
    ensures Sound(Apply(s, a), a.t)
  {
    if a.Step? {
      var c := s.calls[a.t];
      if c.Filling() {
        assert Sound(s, a.t);
        FillerSound(s, a.t, a.good);
      } else if c.Flying() {
        LeaderSound(s, a.t, a.good);
      } else {
        SeekerSound(s, a.t, a.good);
      }
    }
  }

  /** A step touches only its own call and, when it leads a flight, that flight and its directory. */
  lemma CallsFrame(s: State, a: Action, u: Tid)
    requires Enabled(s, a) && u in s.calls && u != a.t
    ensures u in Apply(s, a).calls && Apply(s, a).calls[u] == s.calls[u]
  {}

  lemma DirsFrame(s: State, a: Action, dir: Dir)
    requires Inv(s) && Enabled(s, a)
    ensures var s' := Apply(s, a);
      && (IsComplete(s, dir) ==> IsComplete(s', dir))
      && (!a.Step? || !s.calls[a.t].Flying() || s.calls[a.t].dir != dir ==>
            (dir in s'.dirs <==> dir in s.dirs) && (dir in s.dirs ==> s'.dirs[dir] == s.dirs[dir]))
  {
    if a.Step? { assert Sound(s, a.t); }
  }

  lemma FlightsFrame(s: State, a: Action, d: string)
    requires Enabled(s, a)
    ensures var s' := Apply(s, a);
      !a.Step? || s.calls[a.t].dir.digest != d || (!s.calls[a.t].Flying() && d in s.flights) ==>
        (d in s'.flights <==> d in s.flights) && (d in s.flights ==> s'.flights[d] == s.flights[d])
  {}

  lemma OtherFlyingSound(s: State, a: Action, t: Tid)
    requires Inv(s) && Enabled(s, a) && t in s.calls && t != a.t && !s.calls[t].Done? && !s.calls[t].Waiting?
    ensures Sound(Apply(s, a), t)
  {
    CallsFrame(s, a, t);
    DirsFrame(s, a, s.calls[t].dir);
    FlightsFrame(s, a, s.calls[t].dir.digest);
    assert Sound(s, t);
    if a.Step? { assert Sound(s, a.t); }
  }

  lemma OtherDoneSound(s: State, a: Action, t: Tid)
    requires Inv(s) && Enabled(s, a) && t in s.calls && t != a.t && s.calls[t].Done?
    ensures Sound(Apply(s, a), t)
  {
    CallsFrame(s, a, t);
    DirsFrame(s, a, s.calls[t].dir);
    FlightsFrame(s, a, s.calls[t].dir.digest);
    assert Sound(s, t);
    if a.Step? { assert Sound(s, a.t); }
  }

  lemma OtherWaitingSound(s: State, a: Action, t: Tid)
    requires Inv(s) && Enabled(s, a) && t in s.calls && t != a.t && s.calls[t].Waiting?
    ensures Sound(Apply(s, a), t)
  {
    CallsFrame(s, a, t);
    FlightsFrame(s, a, s.calls[t].dir.digest);
    assert Sound(s, t) && Sound(s, s.calls[t].leader);
    if a.Step? { assert Sound(s, a.t); }
  }

  lemma OtherSound(s: State, a: Action, t: Tid)
    requires Inv(s) && Enabled(s, a) && t in s.calls && t != a.t
    ensures Sound(Apply(s, a), t)
  {
    if s.calls[t].Done? {
      OtherDoneSound(s, a, t);
    } else if s.calls[t].Waiting? {
      OtherWaitingSound(s, a, t);
    } else {
      OtherFlyingSound(s, a, t);
    }
  }

  lemma FlightsStep(s: State, a: Action, d: string)
    requires Inv(s) && Enabled(s, a) && d in Apply(s, a).flights
    ensures HasLeader(Apply(s, a), d)
  {
    FlightsFrame(s, a, d);
    if d in s.flights && s.flights[d] != a.t {
      assert HasLeader(s, d);
      CallsFrame(s, a, s.flights[d]);
      if a.Step? { assert Sound(s, a.t); }
    } else {
      if a.Step? { assert Sound(s, a.t); }
      assert d in s.flights ==> HasLeader(s, d);
      MoverLeads(s, a, d);
    }
  }

  lemma MoverLeads(s: State, a: Action, d: string)
    requires Enabled(s, a) && d in Apply(s, a).flights && (a.t in s.calls ==> Sound(s, a.t))
    requires d in s.flights ==> s.flights[d] == a.t && HasLeader(s, d)
    ensures HasLeader(Apply(s, a), d)
  {}

  lemma AttendedStep(s: State, a: Action, dir: Dir)
    requires Inv(s) && Enabled(s, a) && dir in Apply(s, a).dirs && Apply(s, a).dirs[dir] != COMPLETE
    ensures Attended(Apply(s, a), dir)
  {
    assert a.t in s.calls ==> Sound(s, a.t);
    if dir in s.dirs && s.dirs[dir] != COMPLETE {
      var t :| Fills(s, t, dir);
      StillFills(s, a, t, dir);
    } else {
      assert Fills(Apply(s, a), a.t, dir);
    }
  }

  lemma StillFills(s: State, a: Action, t: Tid, dir: Dir)
    requires Enabled(s, a) && Fills(s, t, dir) && Sound(s, t)
    requires dir in Apply(s, a).dirs && Apply(s, a).dirs[dir] != COMPLETE
    ensures Fills(Apply(s, a), t, dir)
  {}

  lemma InvStep(s: State, a: Action)
    requires Inv(s) && Enabled(s, a)
    ensures Inv(Apply(s, a))
  {
    var s' := Apply(s, a);
    forall t | t in s'.calls
      ensures Sound(s', t)
    {
      if t == a.t { MoverSound(s, a); } else { OtherSound(s, a, t); }
    }
    forall d | d in s'.flights
      ensures HasLeader(s', d)
    {
      FlightsStep(s, a, d);
    }
    forall dir | dir in s'.dirs && s'.dirs[dir] != COMPLETE
      ensures Attended(s', dir)
    {
      AttendedStep(s, a, dir);
    }
  }

  lemma {:induction false} InvAlways(s: State, acts: seq<Action>)
    requires Inv(s) && Legal(s, acts)
    ensures Inv(Exec(s, acts))
    decreases |acts|
  {
    if acts != [] {
      InvStep(s, acts[0]);
      InvAlways(Apply(s, acts[0]), acts[1..]);
    }
  }

  // What follows --------------------------------------------------------------------------------

  lemma {:induction false} CompleteStays(s: State, acts: seq<Action>, dir: Dir)
    requires Inv(s) && Legal(s, acts) && IsComplete(s, dir)
    ensures IsComplete(Exec(s, acts), dir)
    decreases |acts|
  {
    if acts != [] {
      DirsFrame(s, acts[0], dir);
      InvStep(s, acts[0]);
      CompleteStays(Apply(s, acts[0]), acts[1..], dir);
    }
  }

  /** Over every interleaving of calls: two calls never fill one directory at a time, a call that is
      about to fill a directory finds none there, and a directory once filled is never filled again. */
  lemma FilledOnce(acts: seq<Action>, more: seq<Action>, dir: Dir)
    requires Legal(EMPTY, acts) && Legal(Exec(EMPTY, acts), more)
    ensures var s, s' := Exec(EMPTY, acts), Exec(Exec(EMPTY, acts), more);
      && (forall t, u :: Fills(s, t, dir) && Fills(s, u, dir) ==> t == u)
      && (forall t :: t in s.calls && s.calls[t] == Pulling(dir) ==> dir !in s.dirs)
      && (IsComplete(s, dir) ==> IsComplete(s', dir))
      && (IsComplete(s, dir) ==> forall t :: t in s'.calls ==> s'.calls[t] != Pulling(dir) && !Fills(s', t, dir))
  {
    var s := Exec(EMPTY, acts);
    InvAlways(EMPTY, acts);
    InvAlways(s, more);
    forall t, u | Fills(s, t, dir) && Fills(s, u, dir)
      ensures t == u
    {
      OneFiller(s, t, u, dir);
    }
    assert forall t :: t in s.calls ==> Sound(s, t);
    if IsComplete(s, dir) { CompleteStays(s, more, dir); }
    assert forall t :: t in Exec(s, more).calls ==> Sound(Exec(s, more), t);
  }

  /** In every reachable state a directory is complete if and only if it exists and no call is filling it. */
  lemma CompleteExact(acts: seq<Action>, dir: Dir)
    requires Legal(EMPTY, acts)
    ensures var s := Exec(EMPTY, acts);
      IsComplete(s, dir) <==> dir in s.dirs && forall u :: !Fills(s, u, dir)
  {
    InvAlways(EMPTY, acts);
    var s := Exec(EMPTY, acts);
    assert forall u :: u in s.calls ==> Sound(s, u);
  }

  /** A call that finds its directory returns it; it is complete if and only if nobody is filling it. */
  lemma HitExact(s: State, t: Tid, good: bool)
    requires Inv(s) && t in s.calls && s.calls[t].Looking? && s.calls[t].dir in s.dirs
    ensures var s', dir := Apply(s, Step(t, good)), s.calls[t].dir;
      && s'.calls[t].Done? && s'.calls[t].ok
      && (IsComplete(s', dir) <==> forall u :: !Fills(s, u, dir))
  {
    assert forall u :: u in s.calls ==> Sound(s, u);
  }

  predicate Leads(s: State, leader: Tid, dir: Dir) {
    leader in s.calls && s.calls[leader].dir == dir
  }

  /** There are two ways to be returned an incomplete directory: to see it while it is being filled, and
      to join a flight that is for another name of the same image. */
  lemma IncompleteInTwoWays(acts: seq<Action>, t: Tid)
    requires Legal(EMPTY, acts)
    requires var s := Exec(EMPTY, acts); t in s.calls && s.calls[t].Done? && s.calls[t].ok
    ensures var s := Exec(EMPTY, acts);
      var c := s.calls[t];
      || IsComplete(s, c.dir)
      || (c.how.Hit? && c.how.seen != COMPLETE) || (c.how.Joined? && !Leads(s, c.how.leader, c.dir))
  {
    InvAlways(EMPTY, acts);
    var s := Exec(EMPTY, acts);
    assert Sound(s, t);
    if s.calls[t].how.Joined? { assert Sound(s, s.calls[t].how.leader); }
  }

  // With a rule for callers ---------------------------------------------------------------------

  predicate Unfinished(s: State, t: Tid, digest: string) {
    t in s.calls && !s.calls[t].Done? && s.calls[t].dir.digest == digest
  }

  /** A call begins only when no call for the same image is unfinished. */
  ghost predicate Admissible(s: State, a: Action) {
    a.Begin? ==> forall t :: !Unfinished(s, t, a.dir.digest)
  }

  ghost predicate Disciplined(s: State, acts: seq<Action>)
    decreases |acts|
  {
    acts == [] || (Enabled(s, acts[0]) && Admissible(s, acts[0]) && Disciplined(Apply(s, acts[0]), acts[1..]))
  }

  /** One call per image at a time, so nobody joins another's flight; what was returned is complete. */
  predicate Served(s: State, t: Tid) {
    t in s.calls ==>
      var c := s.calls[t];
      && !c.Waiting? && !(c.Done? && c.how.Joined?)
      && (c.Done? && c.ok ==> IsComplete(s, c.dir))
  }

  ghost predicate Orderly(s: State) {
    && Inv(s)
    && (forall t, u, d :: Unfinished(s, t, d) && Unfinished(s, u, d) ==> t == u)
    && (forall t :: Served(s, t))
  }

  lemma UnfinishedStep(s: State, a: Action, t: Tid, d: string)
    requires Enabled(s, a) && Unfinished(Apply(s, a), t, d)
    ensures Unfinished(s, t, d) || (a.Begin? && a.t == t && a.dir.digest == d)
  {}

  lemma LookerServed(s: State, t: Tid, good: bool)
    requires Orderly(s) && Enabled(s, Step(t, good)) && s.calls[t].Looking?
    ensures Served(Apply(s, Step(t, good)), t)
  {
    var dir := s.calls[t].dir;
    if dir in s.dirs {
      HitExact(s, t, good);
      assert Unfinished(s, t, dir.digest);
      assert forall u :: Fills(s, u, dir) ==> Unfinished(s, u, dir.digest);
    }
  }

  lemma MissedServed(s: State, t: Tid, good: bool)
    requires Orderly(s) && Enabled(s, Step(t, good)) && s.calls[t].Missed?
    ensures Served(Apply(s, Step(t, good)), t)
  {
    var d := s.calls[t].dir.digest;
    assert Unfinished(s, t, d);
    if d in s.flights {
      assert HasLeader(s, d);
      assert Unfinished(s, s.flights[d], d);
    }
  }

  lemma MoverServed(s: State, a: Action)
    requires Orderly(s) && Enabled(s, a)
    ensures Served(Apply(s, a), a.t)
  {
    if a.Step? {
      assert Served(s, a.t);
      if s.calls[a.t].Looking? {
        LookerServed(s, a.t, a.good);
      } else if s.calls[a.t].Missed? {
        MissedServed(s, a.t, a.good);
      } else {
        MoverSound(s, a);
      }
    }
  }

  lemma ServedStep(s: State, a: Action, t: Tid)
    requires Orderly(s) && Enabled(s, a)
    ensures Served(Apply(s, a), t)
  {
    if t == a.t {
      MoverServed(s, a);
    } else if t in s.calls {
      assert Served(s, t);
      CallsFrame(s, a, t);
      DirsFrame(s, a, s.calls[t].dir);
    }
  }

  lemma OrderlyStep(s: State, a: Action)
    requires Orderly(s) && Enabled(s, a) && Admissible(s, a)
    ensures Orderly(Apply(s, a))
  {
    var s' := Apply(s, a);
    InvStep(s, a);
    forall t { ServedStep(s, a, t); }
    forall t, u, d | Unfinished(s', t, d) && Unfinished(s', u, d)
      ensures t == u
    {
      UnfinishedStep(s, a, t, d);
      UnfinishedStep(s, a, u, d);
    }
  }

  lemma {:induction false} OrderlyAlways(s: State, acts: seq<Action>)
    requires Orderly(s) && Disciplined(s, acts) && Legal(s, acts)
    ensures Orderly(Exec(s, acts))
    decreases |acts|
  {
    if acts != [] {
      OrderlyStep(s, acts[0]);
      OrderlyAlways(Apply(s, acts[0]), acts[1..]);
    }
  }

  lemma {:induction false} DisciplinedIsLegal(s: State, acts: seq<Action>)
    requires Disciplined(s, acts)
    ensures Legal(s, acts)
    decreases |acts|
  {
    if acts != [] { DisciplinedIsLegal(Apply(s, acts[0]), acts[1..]); }
  }

  /** If calls for one image do not overlap, then over every interleaving with calls for other images,
      with any step failing, every directory returned without an error is complete. */
  lemma ReturnedIsComplete(acts: seq<Action>, t: Tid)
    requires Disciplined(EMPTY, acts)
    ensures Legal(EMPTY, acts)
    ensures var s := Exec(EMPTY, acts);
      t in s.calls && s.calls[t].Done? && s.calls[t].ok ==> IsComplete(s, s.calls[t].dir)
  {
    DisciplinedIsLegal(EMPTY, acts);
    OrderlyAlways(EMPTY, acts);
    assert Served(Exec(EMPTY, acts), t);
  }

  ghost predicate Reached(acts: seq<Action>, s: State) {
    Legal(EMPTY, acts) && Exec(EMPTY, acts) == s
  }

  lemma {:induction false} Concat(s: State, xs: seq<Action>, ys: seq<Action>)
    requires Legal(s, xs) && Legal(Exec(s, xs), ys)
    ensures Legal(s, xs + ys) && Exec(s, xs + ys) == Exec(Exec(s, xs), ys)
    decreases |xs|
  {
    if xs == [] {
      assert xs + ys == ys;
    } else {
      assert (xs + ys)[1..] == xs[1..] + ys;
      Concat(Apply(s, xs[0]), xs[1..], ys);
    }
  }

  lemma Snoc(acts: seq<Action>, s: State, a: Action) returns (acts': seq<Action>, s': State)
    requires Reached(acts, s) && Enabled(s, a)
    ensures Reached(acts', s') && s' == Apply(s, a)
  {
    assert [a][1..] == [];
    Concat(EMPTY, acts, [a]);
    acts', s' := acts + [a], Apply(s, a);
  }

  const A := Dir("a", "1")
  const B := Dir("b", "1")
  const PULLING := State(map[], map["1" := 0], map[0 := Pulling(A)])

  lemma ReachPulling() returns (acts: seq<Action>)
    ensures Reached(acts, PULLING)
  {
    var s;
    acts, s := Snoc([], EMPTY, Begin(0, A));
    acts, s := Snoc(acts, s, Step(0, true));
    acts, s := Snoc(acts, s, Step(0, true));
    acts, s := Snoc(acts, s, Step(0, true));
    assert s == PULLING;
  }

  /** The rule is needed. A second call for the same directory returns it while it is being filled, and
      the filling fails, so that the directory is gone again. */
  lemma HitWhileFilling() returns (acts: seq<Action>, s: State)
    ensures Reached(acts, s)
    ensures 1 in s.calls && s.calls[1] == Done(A, true, Hit(MADE)) && A !in s.dirs
  {
    acts := ReachPulling();
    acts, s := Snoc(acts, PULLING, Step(0, true));
    acts, s := Snoc(acts, s, Begin(1, A));
    acts, s := Snoc(acts, s, Step(1, true));
    acts, s := Snoc(acts, s, Step(0, false));
  }

  const JOINED := State(map[], map["1" := 0], map[0 := Pulling(A), 1 := Waiting(B, 0)])

  lemma ReachJoined() returns (acts: seq<Action>)
    ensures Reached(acts, JOINED)
  {
    acts := ReachPulling();
    var s;
    acts, s := Snoc(acts, PULLING, Begin(1, B));
    acts, s := Snoc(acts, s, Step(1, true));
    acts, s := Snoc(acts, s, Step(1, true));
    assert s == JOINED;
  }

  /** And for the same image under another name: the call joins the flight and returns a directory that
      nobody made. */
  lemma JoinedOtherName() returns (acts: seq<Action>, s: State)
    ensures Reached(acts, s)
    ensures 1 in s.calls && s.calls[1] == Done(B, true, Joined(0)) && B !in s.dirs
  {
    acts := ReachJoined();
    acts, s := Snoc(acts, JOINED, Step(0, true));
    acts, s := Snoc(acts, s, Step(0, true));
    acts, s := Snoc(acts, s, Step(0, true));
    acts, s := Snoc(acts, s, Step(0, true));
    acts, s := Snoc(acts, s, Step(1, true));
  }

  // The calls in the form of the code -----------------------------------------------------------

  /** Where a call fails, if it gets there. */
  datatype Failure = AtDigest | AtPull | AtExtract | AtInject | AtResolve

  /** Waiting: the flight that the call has joined has not landed when the observation ends. */
  datatype Result = Ready(dir: Dir) | Error | StillWaiting

  function All(acts: seq<Action>): seq<Action> {
    acts
  }

  /** The trace is a run of the system and has led to model; put so that it is not unrolled everywhere. */
  ghost predicate History(trace: seq<Action>, model: State) {
    forall run {:trigger All(run)} | run == trace :: Reached(All(run), model) && Inv(model)
  }

  lemma HistoryNow(trace: seq<Action>, model: State)
    requires History(trace, model)
    ensures Reached(trace, model) && Inv(model)
  {
    assert All(trace) == trace;
  }

  lemma HistoryStep(trace: seq<Action>, model: State, a: Action)
    requires History(trace, model) && Enabled(model, a)
    ensures History(trace + [a], Apply(model, a))
  {
    HistoryNow(trace, model);
    InvStep(model, a);
    assert [a][1..] == [];
    Concat(EMPTY, trace, [a]);
  }

  lemma SoundNow(trace: seq<Action>, model: State, t: Tid)
    requires History(trace, model)
    ensures Sound(model, t)
  {
    HistoryNow(trace, model);
  }

  /** After a disciplined run the call is served: not waiting, not a joiner, and complete if ready. */
  lemma ServedNow(trace: seq<Action>, model: State, t: Tid)
    requires History(trace, model) && Disciplined(EMPTY, trace)
    ensures Served(model, t)
  {
    HistoryNow(trace, model);
    OrderlyAlways(EMPTY, trace);
  }

  lemma {:induction false} ForeignKeeps(s: State, acts: seq<Action>, t: Tid)
    requires Legal(s, acts) && t in s.calls && forall i :: 0 <= i < |acts| ==> acts[i].t != t
    ensures t in Exec(s, acts).calls && Exec(s, acts).calls[t] == s.calls[t]
    decreases |acts|
  {
    if acts != [] {
      CallsFrame(s, acts[0], t);
      ForeignKeeps(Apply(s, acts[0]), acts[1..], t);
    }
  }

  lemma {:induction false} DisciplinedSplit(s: State, xs: seq<Action>, ys: seq<Action>)
    requires Disciplined(s, xs + ys)
    ensures Disciplined(s, xs) && Legal(s, xs) && Disciplined(Exec(s, xs), ys) && Legal(Exec(s, xs), ys)
    decreases |xs|
  {
    if xs == [] {
      assert xs + ys == ys;
      DisciplinedIsLegal(s, ys);
    } else {
      assert (xs + ys)[1..] == xs[1..] + ys;
      DisciplinedSplit(Apply(s, xs[0]), xs[1..], ys);
    }
  }

  lemma DisciplinedBefore(trace: seq<Action>, longer: seq<Action>)
    requires trace <= longer && Disciplined(EMPTY, longer)
    ensures Disciplined(EMPTY, trace)
  {
    assert longer == trace + longer[|trace|..];
    DisciplinedSplit(EMPTY, trace, longer[|trace|..]);
  }

  lemma DirKeptStep(s: State, a: Action, t: Tid)
    requires Orderly(s) && Enabled(s, a) && a.t != t && t in s.calls && !s.calls[t].Done?
    ensures s.calls[t].dir in Apply(s, a).dirs <==> s.calls[t].dir in s.dirs
  {
    var dir := s.calls[t].dir;
    DirsFrame(s, a, dir);
    assert Unfinished(s, t, dir.digest);
    if a.Step? && s.calls[a.t].dir == dir { assert Unfinished(s, a.t, dir.digest); }
  }

  /** Where calls for one image do not overlap, nobody else makes or removes an unfinished call's
      directory. */
  lemma {:induction false} DirKept(s: State, acts: seq<Action>, t: Tid)
    requires Orderly(s) && Disciplined(s, acts) && Legal(s, acts)
    requires t in s.calls && !s.calls[t].Done? && forall i :: 0 <= i < |acts| ==> acts[i].t != t
    ensures s.calls[t].dir in Exec(s, acts).dirs <==> s.calls[t].dir in s.dirs
    decreases |acts|
  {
    if acts != [] {
      DirKeptStep(s, acts[0], t);
      CallsFrame(s, acts[0], t);
      OrderlyStep(s, acts[0]);
      DirKept(Apply(s, acts[0]), acts[1..], t);
    }
  }

  lemma DirKeptIn(trace: seq<Action>, model: State, others: seq<Action>, t: Tid)
    requires History(trace, model) && Disciplined(EMPTY, trace + others)
    requires t in model.calls && !model.calls[t].Done? && forall i :: 0 <= i < |others| ==> others[i].t != t
    requires Legal(model, others)
    ensures model.calls[t].dir in Exec(model, others).dirs <==> model.calls[t].dir in model.dirs
  {
    HistoryNow(trace, model);
    DisciplinedSplit(EMPTY, trace, others);
    OrderlyAlways(EMPTY, trace);
    DirKept(model, others, t);
  }

  lemma FailureCases(fails: Option<Failure>)
    ensures || fails == None || fails == Some(AtDigest) || fails == Some(AtPull) || fails == Some(AtExtract)
            || fails == Some(AtInject) || fails == Some(AtResolve)
  {
    if fails.Some? {
      match fails.value
      case AtDigest =>
      case AtPull =>
      case AtExtract =>
      case AtInject =>
      case AtResolve =>
    }
  }

  class Cache {
    var dirs: map<Dir, Content>
    var flights: map<string, Tid>
    var landed: map<Tid, bool>  // the calls that have returned, and whether without an error
    ghost var model: State
    ghost var trace: seq<Action>

    ghost predicate Valid()
      reads this
    {
      && History(trace, model) && dirs == model.dirs && flights == model.flights
      && (forall t :: t in landed <==> t in model.calls && model.calls[t].Done?)
      && (forall t :: t in landed ==> landed[t] == model.calls[t].ok)
    }

    constructor ()
      ensures Valid() && model == EMPTY && trace == []
    {
      dirs, flights, landed := map[], map[], map[];
      model, trace := EMPTY, [];
      new;
      assert Reached(All([]), EMPTY);
    }

    /** Anything other calls may do; callers know no more than the contract. */
    method Interference(ghost t: Tid) returns (ghost others: seq<Action>)
      requires Valid()
      modifies this
      ensures Valid() && trace == old(trace) + others
      ensures forall i :: 0 <= i < |others| ==> others[i].t != t
      ensures Legal(old(model), others) && model == Exec(old(model), others)
    {
      others := [];
      assert trace + [] == trace;
    }

    ghost function At(t: Tid): Option<Call>
      reads this
    {
      if t in model.calls then Some(model.calls[t]) else None
    }

    method Yield(ghost t: Tid)
      requires Valid() && At(t).Some?
      modifies this
      ensures Valid() && old(trace) <= trace && At(t) == old(At(t))
      ensures Disciplined(EMPTY, trace) && !At(t).value.Done? ==>
        (At(t).value.dir in dirs <==> At(t).value.dir in old(dirs))
    {
      ghost var start, before := trace, model;
      ghost var others := Interference(t);
      ForeignKeeps(before, others, t);
      if Disciplined(EMPTY, trace) && !At(t).value.Done? { DirKeptIn(start, before, others, t); }
    }

    ghost method Note(a: Action)
      requires History(trace, model) && Enabled(model, a)
      modifies `model, `trace
      ensures History(trace, model) && model == Apply(old(model), a) && trace == old(trace) + [a]
    {
      HistoryStep(trace, model, a);
      model := Apply(model, a);
      trace := trace + [a];
    }

    method Begin(t: Tid, dir: Dir)
      requires Valid() && At(t) == None
      modifies this
      ensures Valid() && old(trace) <= trace && At(t) == Some(Looking(dir)) && dirs == old(dirs)
    {
      Note(Action.Begin(t, dir));
    }

    /** The look before the flight. */
    method Look(t: Tid, dir: Dir) returns (hit: bool)
      requires Valid() && At(t) == Some(Looking(dir))
      modifies this
      ensures Valid() && old(trace) <= trace && hit == (dir in old(dirs)) && dirs == old(dirs)
      ensures if hit then At(t) == Some(Done(dir, true, Hit(old(dirs)[dir]))) else At(t) == Some(Missed(dir))
    {
      hit := dir in dirs;
      if hit { landed := landed[t := true]; }
      Note(Step(t, true));
    }

    /** One flight per digest: the first call leads it, the others join. */
    method Enter(t: Tid, dir: Dir) returns (leads: bool, leader: Tid)
      requires Valid() && At(t) == Some(Missed(dir))
      modifies this
      ensures Valid() && old(trace) <= trace && leads == (dir.digest !in old(flights)) && dirs == old(dirs)
      ensures At(t) == Some(if leads then Leading(dir) else Waiting(dir, leader))
    {
      leads, leader := dir.digest !in flights, t;
      if leads {
        flights := flights[dir.digest := t];
      } else {
        leader := flights[dir.digest];
      }
      Note(Step(t, true));
    }

    /** What the flight came to is the result of all that joined it. */
    method Join(t: Tid, dir: Dir, leader: Tid) returns (r: Result)
      requires Valid() && At(t) == Some(Waiting(dir, leader))
      modifies this
      ensures Valid() && old(trace) <= trace
      ensures r.StillWaiting? ==> At(t) == Some(Waiting(dir, leader))
      ensures !r.StillWaiting? ==> At(t) == Some(Done(dir, r == Ready(dir), Joined(leader)))
      ensures r == if leader !in old(landed) then StillWaiting else if old(landed)[leader] then Ready(dir) else Error
    {
      if leader !in landed { return StillWaiting; }
      SoundNow(trace, model, t);
      var ok := landed[leader];
      landed := landed[t := ok];
      Note(Step(t, true));
      return if ok then Ready(dir) else Error;
    }

    /** The look inside the flight. */
    method LookAgain(t: Tid, dir: Dir) returns (found: bool)
      requires Valid() && At(t) == Some(Leading(dir))
      modifies this
      ensures Valid() && old(trace) <= trace && found == (dir in old(dirs))
      ensures At(t) == Some(if found then Done(dir, true, Led) else Pulling(dir))
    {
      found := dir in dirs;
      if found {
        flights := flights - {dir.digest};
        landed := landed[t := true];
      }
      Note(Step(t, true));
    }

    /** Pulls the image and makes the directory. */
    method Pull(t: Tid, dir: Dir, good: bool)
      requires Valid() && At(t) == Some(Pulling(dir))
      modifies this
      ensures Valid() && old(trace) <= trace
      ensures At(t) == Some(if good then Extracting(dir) else Done(dir, false, Led))
      ensures !good ==> dir !in dirs
    {
      SoundNow(trace, model, t);
      if good {
        dirs := dirs[dir := MADE];
      } else {
        flights := flights - {dir.digest};
        landed := landed[t := false];
      }
      Note(Step(t, good));
    }

    /** Does one part of the filling; a failure removes the directory and lands the flight. */
    method FillPart(t: Tid, dir: Dir, p: Part, good: bool)
      requires Valid()
      requires At(t) == Some(
        match p case Image => Extracting(dir) case Init => Injecting(dir) case ResolvConf => Resolving(dir))
      modifies this
      ensures Valid() && old(trace) <= trace
      ensures !good ==> At(t) == Some(Done(dir, false, Led)) && dir !in dirs
      ensures good ==> At(t) == Some(
        match p case Image => Injecting(dir) case Init => Resolving(dir) case ResolvConf => Done(dir, true, Led))
    {
      SoundNow(trace, model, t);
      dirs := if good then dirs[dir := With(dirs[dir], p)] else dirs - {dir};
      if p.ResolvConf? || !good {
        flights := flights - {dir.digest};
        landed := landed[t := good];
      }
      Note(Step(t, good));
    }

    /** From a made directory to the end of the flight: extracts, injects init and fixes resolv.conf. */
    method FillUp(t: Tid, dir: Dir, extracts: bool, injects: bool, resolves: bool) returns (ok: bool)
      requires Valid() && At(t) == Some(Extracting(dir))
      modifies this
      ensures Valid() && old(trace) <= trace && At(t) == Some(Done(dir, ok, Led))
      ensures ok == (extracts && injects && resolves) && (!ok ==> dir !in dirs)
    {
      FillPart(t, dir, Image, extracts);
      if !extracts { return false; }
      Yield(t);
      FillPart(t, dir, Init, injects);
      if !injects { return false; }
      Yield(t);
      FillPart(t, dir, ResolvConf, resolves);
      return resolves;
    }

    /** The flight from the pull on. */
    method PullAndFill(t: Tid, dir: Dir, fails: Option<Failure>) returns (ok: bool)
      requires Valid() && At(t) == Some(Pulling(dir)) && fails != Some(AtDigest)
      modifies this
      ensures Valid() && old(trace) <= trace && At(t) == Some(Done(dir, ok, Led))
      ensures ok == (fails == None) && (!ok ==> dir !in dirs)
    {
      FailureCases(fails);
      Pull(t, dir, fails != Some(AtPull));
      if fails == Some(AtPull) { return false; }
      Yield(t);
      ok := FillUp(t, dir, fails != Some(AtExtract), fails != Some(AtInject), fails != Some(AtResolve));
    }

    /** The flight, for its leader: it fails exactly when the directory is not there and a step fails. */
    method Lead(t: Tid, dir: Dir, fails: Option<Failure>) returns (ok: bool)
      requires Valid() && At(t) == Some(Leading(dir)) && fails != Some(AtDigest)
      modifies this
      ensures Valid() && old(trace) <= trace && At(t) == Some(Done(dir, ok, Led))
      ensures ok == (dir in old(dirs) || fails == None)
      ensures !ok ==> dir !in dirs
    {
      var found := LookAgain(t, dir);
      if found { return true; }
      Yield(t);
      ok := PullAndFill(t, dir, fails);
    }

    /** The second half of a call. */
    method Fly(t: Tid, dir: Dir, fails: Option<Failure>) returns (r: Result)
      requires Valid() && At(t) == Some(Missed(dir)) && fails != Some(AtDigest)
      modifies this
      ensures Valid() && old(trace) <= trace && Outcome(t, dir, fails, r)
      ensures Disciplined(EMPTY, trace) && At(t).value.Done? && !At(t).value.how.Joined? && dir !in old(dirs) ==>
        r == if fails == None then Ready(dir) else Error
    {
      var leads, leader := Enter(t, dir);
      Yield(t);
      if !leads {
        r := Join(t, dir, leader);
        return;
      }
      ghost var seen, there := trace, dir in dirs;
      var ok := Lead(t, dir, fails);
      if Disciplined(EMPTY, trace) { DisciplinedBefore(seen, trace); }
      return if ok then Ready(dir) else Error;
    }

    /** How a call can end: it is ready; it failed, having led the flight, and left no directory; it
        joined a flight that failed; or it still waits for one. */
    ghost predicate Outcome(t: Tid, dir: Dir, fails: Option<Failure>, r: Result)
      reads this
    {
      match r
      case Ready(d) => d == dir && At(t).Some? && At(t).value.Done? && At(t).value.dir == dir && At(t).value.ok
      case Error =>
        || (At(t) == Some(Done(dir, false, Led)) && fails.Some? && dir !in dirs)
        || (At(t).Some? && At(t).value.Done? && At(t).value.how.Joined?)
      case StillWaiting => At(t).Some? && At(t).value.Waiting?
    }

    /** One call among any others. In a run where calls for one image do not overlap, it returns its
        directory, complete, if that was there or no step failed; otherwise an error, with no directory. */
    method Ensure(t: Tid, dir: Dir, fails: Option<Failure>) returns (r: Result)
      requires Valid() && At(t) == None
      modifies this
      ensures Valid() && old(trace) <= trace
      ensures fails == Some(AtDigest) ==> r == Error && trace == old(trace) && dirs == old(dirs)
      ensures fails != Some(AtDigest) ==> Outcome(t, dir, fails, r)
      ensures fails != Some(AtDigest) && Disciplined(EMPTY, trace) ==>
        if dir in old(dirs) || fails == None
        then r == Ready(dir) && dir in dirs
             && dirs[dir].extracted && dirs[dir].init && dirs[dir].resolvConf
        else r == Error && dir !in dirs
    {
      if fails == Some(AtDigest) { return Error; }
      r := Seek(t, dir, fails);
      if Disciplined(EMPTY, trace) {
        ServedNow(trace, model, t);
        assert At(t).value.Done? && !At(t).value.how.Joined?;
      }
    }

    /** A call whose digest is known. */
    method Seek(t: Tid, dir: Dir, fails: Option<Failure>) returns (r: Result)
      requires Valid() && At(t) == None && fails != Some(AtDigest)
      modifies this
      ensures Valid() && old(trace) <= trace && Outcome(t, dir, fails, r)
      ensures Disciplined(EMPTY, trace) && At(t).value.Done? && !At(t).value.how.Joined? ==>
        r == if dir in old(dirs) || fails == None then Ready(dir) else Error
    {
      Begin(t, dir);
      Yield(t);
      ghost var looked := trace;
      var hit := Look(t, dir);
      if hit {
        if Disciplined(EMPTY, trace) { DisciplinedBefore(looked, trace); }
        return Ready(dir);
      }
      Yield(t);
      ghost var missed := trace;
      r := Fly(t, dir, fails);
      if Disciplined(EMPTY, trace) {
        DisciplinedBefore(looked, trace);
        DisciplinedBefore(missed, trace);
      }
    }
  }
}

/** Clones of base images: what creating and deleting machines leaves on disk, over all runs. */
module Clones {
  import opened Options

  type Id = nat
  type Tid = nat

  /** The clone directory of a machine, or any other path. */
  datatype Path = CloneOf(id: Id) | Other(name: string)

  datatype Machine = Machine(clone: bool, rootfs: Path)

  /** A call between its two critical steps: a clone not registered yet, or to be removed. */
  datatype Call = Creating(id: Id, m: Machine) | Removing(id: Id, m: Machine)

  datatype State = State(
    disk: set<Path>,
    machines: map<Id, Machine>,
    calls: map<Tid, Call>,
    born: set<Id>,         // identifiers given out
    made: set<Id>,         // of these, the ones cloned for
    kept: set<Id>,         // clone machines deleted without removing their root
    stuck: set<Id>,        // clone machines whose root could not be removed
    removed: seq<Path>)    // in the order of removal

  function Start(disk: set<Path>): State {
    State(disk, map[], map[], {}, {}, {}, {}, [])
  }

  datatype Action =
    | CloneBase(t: Tid, id: Id, base: Path, good: bool)
    | UseRoot(t: Tid, id: Id, rootfs: Path)
    | Register(t: Tid)
    | Delete(t: Tid, id: Id, stopped: bool, removeRoot: bool)
    | Remove(t: Tid, good: bool)

  /** Identifiers are fresh, also with respect to directories left by earlier processes. */
  predicate Fresh(s: State, id: Id) {
    id !in s.born && CloneOf(id) !in s.disk
  }

  predicate Enabled(s: State, a: Action) {
    match a
    case CloneBase(t, id, base, good) => t !in s.calls && Fresh(s, id) && (good ==> base in s.disk)
    case UseRoot(t, id, rootfs) => t !in s.calls && Fresh(s, id)
    case Register(t) => t in s.calls && s.calls[t].Creating?
    case Delete(t, _, _, _) => t !in s.calls
    case Remove(t, _) => t in s.calls && s.calls[t].Removing?
  }

  function Apply(s: State, a: Action): State
    requires Enabled(s, a)
  {
    match a
    case CloneBase(t, id, base, good) =>
      if good then
        s.(disk := s.disk + {CloneOf(id)}, calls := s.calls[t := Creating(id, Machine(true, CloneOf(id)))],
           born := s.born + {id}, made := s.made + {id})
      else s.(born := s.born + {id})
    case UseRoot(t, id, rootfs) =>
      s.(calls := s.calls[t := Creating(id, Machine(false, rootfs))], born := s.born + {id})
    case Register(t) =>
      s.(machines := s.machines[s.calls[t].id := s.calls[t].m], calls := s.calls - {t})
    case Delete(t, id, stopped, removeRoot) =>
      if id !in s.machines || !stopped then s
      else if removeRoot && s.machines[id].clone then
        s.(machines := s.machines - {id}, calls := s.calls[t := Removing(id, s.machines[id])])
      else
        s.(machines := s.machines - {id}, kept := if s.machines[id].clone then s.kept + {id} else s.kept)
    case Remove(t, good) =>
      var root := s.calls[t].m.rootfs;
      if good then s.(disk := s.disk - {root}, calls := s.calls - {t}, removed := s.removed + [root])
      else s.(calls := s.calls - {t}, stuck := s.stuck + {s.calls[t].id})
  }

  ghost predicate Legal(s: State, acts: seq<Action>)
    decreases |acts|
  {
    acts == [] || (Enabled(s, acts[0]) && Legal(Apply(s, acts[0]), acts[1..]))
  }

  function Exec(s: State, acts: seq<Action>): State
    requires Legal(s, acts)
    decreases |acts|
  {
    if acts == [] then s else Exec(Apply(s, acts[0]), acts[1..])
  }

  /** Who answers for the clone of an identifier. */
  datatype Holder = Listed | Held(t: Tid) | Kept | Stuck | Gone

  ghost predicate Holds(s: State, id: Id, h: Holder) {
    match h
    case Listed => id in s.machines && s.machines[id].clone
    case Held(t) => t in s.calls && s.calls[t].id == id && s.calls[t].m.clone
    case Kept => id in s.kept
    case Stuck => id in s.stuck
    case Gone => CloneOf(id) in s.removed
  }

  ghost predicate OneHolder(s: State, id: Id) {
    && (id in s.made <==> exists h :: Holds(s, id, h))
    && (forall h, h' :: Holds(s, id, h) && Holds(s, id, h') ==> h == h')
  }

  /** Exactly one holder for every clone made, and the clone is on disk unless it is gone. */
  ghost predicate Conserved(s: State, initial: set<Path>) {
    && (forall id :: OneHolder(s, id))
    && (forall p :: p in s.disk <==> p in initial || (p.CloneOf? && p.id in s.made && p !in s.removed))
    && (forall i, j :: 0 <= i < j < |s.removed| ==> s.removed[i] != s.removed[j])
  }

  ghost predicate Owned(s: State, id: Id, m: Machine) {
    id in s.born && (m.clone ==> m.rootfs == CloneOf(id))
  }

  ghost predicate Tidy(s: State, initial: set<Path>) {
    && s.made <= s.born
    && (forall id :: id in s.made ==> CloneOf(id) !in initial)
    && (forall p :: p in s.removed ==> p.CloneOf?)
    && (forall id :: id in s.machines ==> Owned(s, id, s.machines[id]))
    && (forall t :: t in s.calls ==> Owned(s, s.calls[t].id, s.calls[t].m))
    && (forall t :: t in s.calls && s.calls[t].Removing? ==> s.calls[t].m.clone)
    && (forall t :: t in s.calls && s.calls[t].Creating? ==> s.calls[t].id !in s.machines)
    && (forall t, u :: t in s.calls && u in s.calls && s.calls[t].Creating? && s.calls[u].Creating? && t != u ==>
          s.calls[t].id != s.calls[u].id)
  }

  lemma TidyStep(s: State, a: Action, initial: set<Path>)
    requires initial <= s.disk && Tidy(s, initial) && Enabled(s, a)
    ensures Tidy(Apply(s, a), initial)
  {}

  /** A clone that changes hands; a new one has no holder before. */
  datatype Transfer = Transfer(id: Id, giver: Option<Holder>, taker: Holder)

  function TransferOf(s: State, a: Action): Option<Transfer>
    requires Enabled(s, a)
  {
    match a
    case CloneBase(t, id, _, good) => if good then Some(Transfer(id, None, Held(t))) else None
    case UseRoot(_, _, _) => None
    case Register(t) =>
      if s.calls[t].m.clone then Some(Transfer(s.calls[t].id, Some(Held(t)), Listed)) else None
    case Delete(t, id, stopped, removeRoot) =>
      if id in s.machines && stopped && s.machines[id].clone then
        Some(Transfer(id, Some(Listed), if removeRoot then Held(t) else Kept))
      else None
    case Remove(t, good) => Some(Transfer(s.calls[t].id, Some(Held(t)), if good then Gone else Stuck))
  }

  /** Every step hands over at most one clone. */
  lemma HandsOver(s: State, a: Action, initial: set<Path>, id: Id, h: Holder)
    requires Tidy(s, initial) && Enabled(s, a)
    ensures Holds(Apply(s, a), id, h) <==>
            match TransferOf(s, a)
            case None => Holds(s, id, h)
            case Some(x) => if id == x.id && h == x.taker then true
                            else Holds(s, id, h) && !(id == x.id && x.giver == Some(h))
  {}

  lemma OneHolderStep(s: State, a: Action, initial: set<Path>, id: Id)
    requires Tidy(s, initial) && OneHolder(s, id) && Enabled(s, a)
    ensures OneHolder(Apply(s, a), id)
  {
    var s' := Apply(s, a);
    var x := TransferOf(s, a);
    assert x.Some? && x.value.id == id ==>
        if x.value.giver.Some? then Holds(s, id, x.value.giver.value) else id !in s.made;
    forall h
      ensures Holds(s', id, h) ==> id in s'.made
      ensures forall h' :: Holds(s', id, h) && Holds(s', id, h') ==> h == h'
    {
      forall h' { HandsOver(s, a, initial, id, h'); }
    }
    if id in s'.made {
      if x.Some? && x.value.id == id {
        HandsOver(s, a, initial, id, x.value.taker);
      } else {
        var h :| Holds(s, id, h);
        HandsOver(s, a, initial, id, h);
      }
    }
  }

  lemma ConservedStep(s: State, a: Action, initial: set<Path>)
    requires Tidy(s, initial) && Conserved(s, initial) && Enabled(s, a)
    ensures Conserved(Apply(s, a), initial)
  {
    forall id { OneHolderStep(s, a, initial, id); }
    if a.Remove? {
      var id := s.calls[a.t].id;
      assert OneHolder(s, id) && Holds(s, id, Held(a.t));
      assert !Holds(s, id, Gone);
    } else if a.CloneBase? {
      assert OneHolder(s, a.id) && !Holds(s, a.id, Gone);
    }
  }

  /** Who is to blame: a clone is kept only by a deletion that does not remove the root, is stuck only when
      removing it fails, and goes only when a deletion has asked for it; a failed Create leaves none. */
  lemma BlameExactly(s: State, a: Action, initial: set<Path>, id: Id)
    requires Tidy(s, initial) && Conserved(s, initial) && Enabled(s, a)
    ensures var s' := Apply(s, a);
      && (id in s'.made && id !in s.made <==> exists t, base :: a == CloneBase(t, id, base, true))
      && (id in s'.kept && id !in s.kept <==>
            id in s.machines && s.machines[id].clone && exists t :: a == Delete(t, id, true, false))
      && (id in s'.stuck && id !in s.stuck <==>
            exists t :: a == Remove(t, false) && s.calls[t].id == id)
      && (CloneOf(id) in s'.removed && CloneOf(id) !in s.removed <==>
            exists t :: a == Remove(t, true) && s.calls[t].id == id)
      && (forall t :: t in s'.calls && s'.calls[t].Removing? && !(t in s.calls && s.calls[t] == s'.calls[t]) ==>
            exists i :: a == Delete(t, i, true, true) && s'.calls[t].id == i)
  {
    assert OneHolder(s, id);
    match a
    case CloneBase(t, i, base, good) => assert a == CloneBase(t, i, base, good);
    case UseRoot(_, _, _) =>
    case Register(_) =>
    case Delete(t, i, stopped, removeRoot) =>
      assert a == Delete(t, i, stopped, removeRoot);
      assert i in s.machines && s.machines[i].clone ==> Holds(s, i, Listed) && OneHolder(s, i);
      assert Holds(s, i, Kept) == (i in s.kept);
    case Remove(t, good) =>
      assert a == Remove(t, good);
      assert Holds(s, s.calls[t].id, Held(t)) && OneHolder(s, s.calls[t].id);
      assert Holds(s, id, Stuck) == (id in s.stuck) && Holds(s, id, Gone) == (CloneOf(id) in s.removed);
  }

  lemma {:induction false} ConservedAlways(s: State, acts: seq<Action>, initial: set<Path>)
    requires Tidy(s, initial) && Conserved(s, initial) && Legal(s, acts)
    ensures Tidy(Exec(s, acts), initial) && Conserved(Exec(s, acts), initial)
    decreases |acts|
  {
    if acts != [] {
      TidyStep(s, acts[0], initial);
      ConservedStep(s, acts[0], initial);
      ConservedAlways(Apply(s, acts[0]), acts[1..], initial);
    }
  }

  /** On disk with no call in progress: what was there, and the clones of the registered machines,
      of those deleted without their root and of those whose root could not be removed. */
  predicate AtRest(s: State, initial: set<Path>, p: Path) {
    || p in initial
    || (p.CloneOf? && p.id in s.machines && s.machines[p.id].clone)
    || (p.CloneOf? && (p.id in s.kept || p.id in s.stuck))
  }

  lemma OnDisk(s: State, initial: set<Path>, p: Path)
    requires Tidy(s, initial) && Conserved(s, initial)
    ensures p in s.disk && s.calls == map[] ==> AtRest(s, initial, p)
    ensures AtRest(s, initial, p) ==> p in s.disk
  {
    if p.CloneOf? && p !in initial {
      assert OneHolder(s, p.id);
      assert p in s.removed <==> Holds(s, p.id, Gone);
      if p in s.disk && s.calls == map[] {
        var h :| Holds(s, p.id, h);
      } else if p.id in s.machines && s.machines[p.id].clone {
        assert Holds(s, p.id, Listed);
      } else if p.id in s.kept {
        assert Holds(s, p.id, Kept);
      } else if p.id in s.stuck {
        assert Holds(s, p.id, Stuck);
      }
    }
  }

  /** Over every run: nothing that was there before is removed, nothing is removed twice, and no
      registered machine loses its clone; between calls the disk holds exactly what it should. */
  lemma ClonesConserved(initial: set<Path>, acts: seq<Action>)
    requires Legal(Start(initial), acts)
    ensures var s := Exec(Start(initial), acts);
            && initial <= s.disk
            && (forall i, j :: 0 <= i < j < |s.removed| ==> s.removed[i] != s.removed[j])
            && (forall p :: AtRest(s, initial, p) ==> p in s.disk)
            && (s.calls == map[] ==> forall p :: p in s.disk <==> AtRest(s, initial, p))
  {
    var s := Exec(Start(initial), acts);
    forall id
      ensures OneHolder(Start(initial), id)
    {}
    ConservedAlways(Start(initial), acts, initial);
    forall p { OnDisk(s, initial, p); }
  }

  /** The manager's machine map with the directories it works on. */
  class Store {
    var disk: set<Path>
    var machines: map<Id, Machine>
    ghost var model: State
    ghost const initial: set<Path>

    ghost predicate Valid()
      reads this
    {
      model.disk == disk && model.machines == machines && Tidy(model, initial) && Conserved(model, initial)
    }

    constructor (disk: set<Path>)
      ensures Valid() && model == Start(disk) && initial == disk
    {
      this.disk, machines, model, initial := disk, map[], Start(disk), disk;
      new;
      forall id
        ensures OneHolder(model, id)
      {}
    }

    ghost method Note(a: Action)
      requires Tidy(model, initial) && Conserved(model, initial) && Enabled(model, a)
      modifies this`model
      ensures Tidy(model, initial) && Conserved(model, initial) && model == Apply(old(model), a)
    {
      TidyStep(model, a, initial);
      ConservedStep(model, a, initial);
      model := Apply(model, a);
    }

    /** A machine is registered unless its base cannot be cloned; works says whether cloning
        a base that is there succeeds. */
    method Create(t: Tid, id: Id, base: Option<Path>, rootfs: Path, works: bool) returns (ok: bool)
      requires Valid() && t !in model.calls && Fresh(model, id)
      modifies this
      ensures Valid() && model.calls == old(model.calls)
      ensures ok == (base.Some? ==> works && base.value in old(disk))
      ensures machines == if !ok then old(machines)
                          else if base.Some? then old(machines)[id := Machine(true, CloneOf(id))]
                          else old(machines)[id := Machine(false, rootfs)]
      ensures disk == if ok && base.Some? then old(disk) + {CloneOf(id)} else old(disk)
    {
      var root, isClone := rootfs, false;
      if base.Some? {
        var good := works && base.value in disk;
        Note(CloneBase(t, id, base.value, good));
        if !good { return false; }
        disk := disk + {CloneOf(id)};
        root, isClone := CloneOf(id), true;
      } else {
        Note(UseRoot(t, id, rootfs));
      }
      machines := machines[id := Machine(isClone, root)];
      Note(Register(t));
      return true;
    }

    /** A stopped or never started machine is forgotten, and its root goes only if it is a clone. */
    method Delete(t: Tid, id: Id, stopped: bool, removeRoot: bool, works: bool) returns (ok: bool)
      requires Valid() && t !in model.calls
      modifies this
      ensures Valid() && model.calls == old(model.calls)
      ensures ok == (id in old(machines) && stopped)
      ensures machines == if ok then old(machines) - {id} else old(machines)
      ensures disk == if ok && removeRoot && old(machines)[id].clone && works then old(disk) - {CloneOf(id)}
                      else old(disk)
    {
      Note(Action.Delete(t, id, stopped, removeRoot));
      if id !in machines || !stopped { return false; }
      var m := machines[id];
      machines := machines - {id};
      if removeRoot && m.clone {
        if works {
          disk := disk - {m.rootfs};
        }
        Note(Remove(t, works));
      }
      return true;
    }
  }
}

/** Where the entries of an image's tar stream are put: lexical path cleaning as a stack of
    components, on slash-separated paths. */
module TarPath {
  import opened Sequences

  /** The parts between slashes, empty ones included. */
  function Split(s: string): (parts: seq<string>)
    ensures parts != []
  {
    if s == "" then [""]
    else
      var rest := Split(s[1..]);
      if s[0] == '/' then [""] + rest else [[s[0]] + rest[0]] + rest[1..]
  }

  function Join(parts: seq<string>): string {
    if parts == [] then ""
    else if |parts| == 1 then parts[0]
    else parts[0] + ("/" + Join(parts[1..]))
  }

  /** The components that remain: "" and "." go, ".." takes back the component before it; at the
      root there is nothing to take back, in a relative path it stays. */
  function Process(rooted: bool, stack: seq<string>, parts: seq<string>): seq<string>
    decreases |parts|
  {
    if parts == [] then stack else Process(rooted, Push(rooted, stack, parts[0]), parts[1..])
  }

  function Push(rooted: bool, stack: seq<string>, part: string): seq<string> {
    if part == "" || part == "." then stack
    else if part == ".." then
      if stack != [] && stack[|stack| - 1] != ".." then stack[..|stack| - 1]
      else if rooted then stack
      else stack + [part]
    else stack + [part]
  }

  predicate Rooted(s: string) {
    s != "" && s[0] == '/'
  }

  function Render(rooted: bool, stack: seq<string>): string {
    if rooted then "/" + Join(stack) else if stack == [] then "." else Join(stack)
  }

  function Stack(s: string): seq<string> {
    Process(Rooted(s), [], Split(s))
  }

  /** Cleaning a path; the empty path becomes ".". */
  function Clean(s: string): string {
    Render(Rooted(s), Stack(s))
  }

  /** Where an entry, or what a hard link in the archive names, is put under dir. */
  function Target(dir: string, name: string): string {
    Clean(dir + ("/" + Clean("/" + name)))
  }

  predicate HasPrefix(s: string, p: string) {
    |p| <= |s| && s[..|p|] == p
  }

  /** The guard that entries must pass. */
  predicate Guard(dir: string, target: string) {
    HasPrefix(target + "/", dir + "/")
  }

  /** A component that cleaning keeps. */
  predicate Plain(part: string) {
    part != "" && part != "." && part != ".." && '/' !in part
  }

  predicate AllPlain(parts: seq<string>) {
    forall i :: 0 <= i < |parts| ==> Plain(parts[i])
  }

  // Splitting and joining -----------------------------------------------------------------------

  lemma {:induction false} SplitAt(a: string, b: string)
    ensures Split(a + ("/" + b)) == Split(a) + Split(b)
  {
    var s := a + ("/" + b);
    if a == "" {
      assert s[1..] == b;
    } else {
      assert s[1..] == a[1..] + ("/" + b);
      SplitAt(a[1..], b);
    }
  }

  lemma {:induction false} SplitPlain(p: string)
    requires '/' !in p
    ensures Split(p) == [p]
  {
    if p != "" {
      assert p == [p[0]] + p[1..];
      SplitPlain(p[1..]);
    }
  }

  lemma {:induction false} SplitJoin(parts: seq<string>)
    requires parts != [] && AllPlain(parts)
    ensures Split(Join(parts)) == parts
  {
    SplitPlain(parts[0]);
    if |parts| > 1 {
      SplitJoin(parts[1..]);
      SplitAt(parts[0], Join(parts[1..]));
    }
  }

  lemma {:induction false} JoinConcat(xs: seq<string>, ys: seq<string>)
    requires xs != [] && ys != []
    ensures Join(xs + ys) == Join(xs) + ("/" + Join(ys))
  {
    if |xs| == 1 {
      assert (xs + ys)[1..] == ys;
    } else {
      assert (xs + ys)[1..] == xs[1..] + ys;
      JoinConcat(xs[1..], ys);
    }
  }

  lemma {:induction false} SplitHasNoSlash(s: string)
    ensures forall i :: 0 <= i < |Split(s)| ==> '/' !in Split(s)[i]
  {
    if s != "" { SplitHasNoSlash(s[1..]); }
  }

  // Cleaning ------------------------------------------------------------------------------------

  lemma {:induction false} ProcessConcat(rooted: bool, stack: seq<string>, xs: seq<string>, ys: seq<string>)
    ensures Process(rooted, stack, xs + ys) == Process(rooted, Process(rooted, stack, xs), ys)
    decreases |xs|
  {
    if xs == [] {
      assert xs + ys == ys;
    } else {
      assert (xs + ys)[1..] == xs[1..] + ys;
      ProcessConcat(rooted, Push(rooted, stack, xs[0]), xs[1..], ys);
    }
  }

  lemma {:induction false} ProcessPlain(rooted: bool, stack: seq<string>, parts: seq<string>)
    requires AllPlain(parts)
    ensures Process(rooted, stack, parts) == stack + parts
    decreases |parts|
  {
    if parts != [] {
      ProcessPlain(rooted, stack + [parts[0]], parts[1..]);
    }
  }

  /** Below the root, cleaning leaves plain components only: no ".." survives. */
  lemma {:induction false} RootedIsPlain(stack: seq<string>, parts: seq<string>)
    requires AllPlain(stack) && forall i :: 0 <= i < |parts| ==> '/' !in parts[i]
    ensures AllPlain(Process(true, stack, parts))
    decreases |parts|
  {
    if parts != [] { RootedIsPlain(Push(true, stack, parts[0]), parts[1..]); }
  }

  /** The components of an entry's name, cleaned below the root. */
  function Inside(name: string): seq<string> {
    Stack("/" + name)
  }

  lemma InsideIsPlain(name: string)
    ensures AllPlain(Inside(name)) && Clean("/" + name) == "/" + Join(Inside(name))
  {
    SplitHasNoSlash("/" + name);
    RootedIsPlain([], Split("/" + name));
  }

  lemma SkipEmpty(rooted: bool, stack: seq<string>)
    ensures Process(rooted, stack, [""]) == stack
  {
    assert [""][1..] == [];
  }

  /** The target's components are the directory's and then the name's. */
  lemma TargetStack(dir: string, name: string)
    requires dir != ""
    ensures Target(dir, name) == Render(Rooted(dir), Stack(dir) + Inside(name))
  {
    InsideIsPlain(name);
    var r, d, ys := Rooted(dir), Stack(dir), Inside(name);
    SplitAt(dir, "/" + Join(ys));
    ProcessConcat(r, [], Split(dir), Split("/" + Join(ys)));
    ProcessInside(r, d, ys);
  }

  lemma ProcessInside(rooted: bool, stack: seq<string>, ys: seq<string>)
    requires AllPlain(ys)
    ensures Process(rooted, stack, Split("/" + Join(ys))) == stack + ys
  {
    assert "" + ("/" + Join(ys)) == "/" + Join(ys);
    SplitAt("", Join(ys));
    ProcessConcat(rooted, stack, [""], Split(Join(ys)));
    SkipEmpty(rooted, stack);
    if ys != [] {
      SplitJoin(ys);
      ProcessPlain(rooted, stack, ys);
    } else {
      assert stack + ys == stack;
    }
  }

  predicate IsClean(dir: string) {
    dir != "" && Clean(dir) == dir
  }

  lemma RenderConcat(rooted: bool, d: seq<string>, ys: seq<string>)
    requires d != []
    ensures Render(rooted, d + ys) == Render(rooted, d) + Below(ys)
  {
    if ys != [] {
      JoinConcat(d, ys);
      assert "/" + (Join(d) + ("/" + Join(ys))) == "/" + Join(d) + ("/" + Join(ys));
    } else {
      assert d + ys == d && Render(rooted, d) + "" == Render(rooted, d);
    }
  }

  function Below(ys: seq<string>): string {
    if ys == [] then "" else "/" + Join(ys)
  }

  /** What lies below a clean directory other than the root and the current one. */
  lemma TargetBelow(dir: string, name: string)
    requires IsClean(dir) && dir != "/" && dir != "."
    ensures Target(dir, name) == dir + Below(Inside(name)) && AllPlain(Inside(name))
  {
    TargetStack(dir, name);
    InsideIsPlain(name);
    assert Stack(dir) != [];
    RenderConcat(Rooted(dir), Stack(dir), Inside(name));
  }

  lemma Passes(dir: string, name: string)
    requires IsClean(dir) && dir != "/" && dir != "."
    ensures Guard(dir, Target(dir, name))
    ensures Placed(dir, name, Target(dir, name))
  {
    TargetBelow(dir, name);
    var below := Below(Inside(name));
    assert (dir + below + "/")[..|dir| + 1] == dir + "/";
    assert below != "" ==> (dir + below)[..|dir| + 1] == dir + "/";
    assert below == "" ==> dir + below == dir;
  }

  lemma SkippedAtTop(dir: string)
    requires dir == "/" || dir == "."
    ensures !Guard(dir, Target(dir, "a"))
  {
    var name := ["a"];
    assert Join(name) == "a";
    ProcessInside(true, [], name);
    assert Inside("a") == name;
    SkipEmpty(true, []);
    SplitPlain(".");
    assert ["."][1..] == [] && Split("") == [""];
    assert Split("/")[1..] == [""] && Stack("/") == [];
    assert Stack(".") == [];
    assert Stack(dir) + name == name;
    TargetStack(dir, "a");
    var g, p := Target(dir, "a") + "/", dir + "/";
    assert g[..2][0] == g[0] && g[..2][1] == g[1];
    assert p[0] == dir[0] && p[1] == '/';
    assert if dir == "/" then g[1] == 'a' else g[0] == 'a';
  }

  /** The guard lets every entry of every archive pass exactly when the (clean) directory is neither
      the root nor the current directory; what passes is the directory or below it. */
  lemma GuardNeverSkips(dir: string)
    requires IsClean(dir)
    ensures (forall name :: Guard(dir, Target(dir, name))) <==> dir != "/" && dir != "."
  {
    if dir != "/" && dir != "." {
      forall name
        ensures Guard(dir, Target(dir, name))
      {
        Passes(dir, name);
      }
    } else {
      SkippedAtTop(dir);
    }
  }

  predicate IsBelow(dir: string, path: string) {
    path == dir || HasPrefix(path, dir + "/")
  }

  predicate Placed(dir: string, name: string, target: string) {
    && target == Target(dir, name)
    && IsBelow(dir, target)
  }

  // The rules of cleaning -----------------------------------------------------------------------

  lemma SameRoot(a: string, m: string, b: string)
    ensures Rooted(a + ("/" + (m + ("/" + b)))) == Rooted(a + ("/" + b))
  {
    if a != "" {
      assert (a + ("/" + b))[0] == a[0] == (a + ("/" + (m + ("/" + b))))[0];
    }
  }

  /** A part that leaves the components before it alone can be left out. */
  lemma CleanWithout(a: string, m: string, b: string)
    requires var r := Rooted(a + ("/" + b));
      Process(r, Process(r, [], Split(a)), Split(m)) == Process(r, [], Split(a))
    ensures Clean(a + ("/" + (m + ("/" + b)))) == Clean(a + ("/" + b))
  {
    var r := Rooted(a + ("/" + b));
    SameRoot(a, m, b);
    SplitAt(a, m + ("/" + b));
    SplitAt(m, b);
    SplitAt(a, b);
    ProcessConcat(r, [], Split(a), Split(m) + Split(b));
    ProcessConcat(r, Process(r, [], Split(a)), Split(m), Split(b));
    ProcessConcat(r, [], Split(a), Split(b));
  }

  /** Several slashes are one, and "." goes. */
  lemma CleanSkips(a: string, b: string)
    ensures Clean(a + ("/" + ("/" + b))) == Clean(a + ("/" + b))
    ensures Clean(a + ("/" + ("." + ("/" + b)))) == Clean(a + ("/" + b))
  {
    SplitPlain(".");
    assert [""][1..] == [] && ["."][1..] == [];
    assert "" + ("/" + b) == "/" + b;
    CleanWithout(a, "", b);
    CleanWithout(a, ".", b);
  }

  /** ".." goes together with the component before it. */
  lemma CleanCancels(a: string, p: string, b: string)
    requires p != "" && p != "." && p != ".." && '/' !in p
    ensures Clean(a + ("/" + ((p + ("/" + "..")) + ("/" + b)))) == Clean(a + ("/" + b))
  {
    var r := Rooted(a + ("/" + b));
    var st := Process(r, [], Split(a));
    SplitAt(p, "..");
    SplitPlain(p);
    SplitPlain("..");
    assert [p, ".."][1..] == [".."] && [".."][1..] == [] && [p] + [".."] == [p, ".."];
    assert Push(r, Push(r, st, p), "..") == st;
    CleanWithout(a, p + ("/" + ".."), b);
  }

  /** At the root ".." goes alone. */
  lemma CleanStops(b: string)
    ensures Clean("/" + (".." + ("/" + b))) == Clean("/" + b)
  {
    SplitPlain("..");
    assert [".."][1..] == [];
    assert [""][1..] == [] && Split("") == [""];
    assert "" + ("/" + b) == "/" + b && "" + ("/" + (".." + ("/" + b))) == "/" + (".." + ("/" + b));
    CleanWithout("", "..", b);
  }

  /** A slash at the end goes. */
  lemma CleanEnd(a: string)
    requires a != ""
    ensures Clean(a + "/") == Clean(a)
  {
    SplitAt(a, "");
    assert a + ("/" + "") == a + "/" && (a + "/")[0] == a[0];
    ProcessConcat(Rooted(a), [], Split(a), [""]);
    SkipEmpty(Rooted(a), Process(Rooted(a), [], Split(a)));
  }

  /** What none of this applies to stays as it is. */
  lemma CleanKeeps(ys: seq<string>)
    requires forall i :: 0 <= i < |ys| ==> ys[i] != "" && ys[i] != "." && ys[i] != ".." && '/' !in ys[i]
    ensures Clean("/" + Join(ys)) == "/" + Join(ys)
  {
    ProcessInside(true, [], ys);
    assert [] + ys == ys;
  }

  /** An entry's place: the directory, or its cleaned name appended to the directory. */
  lemma TargetIs(dir: string, name: string)
    requires IsClean(dir) && dir != "/" && dir != "."
    ensures Target(dir, name) == if Clean("/" + name) == "/" then dir else dir + Clean("/" + name)
  {
    TargetBelow(dir, name);
    InsideIsPlain(name);
    if Inside(name) != [] {
      assert Inside(name)[0] != "";
      JoinNonEmpty(Inside(name));
    } else {
      assert Join([]) == "" && "/" + "" == "/" && dir + "" == dir;
    }
  }

  lemma JoinNonEmpty(ys: seq<string>)
    requires ys != [] && ys[0] != ""
    ensures Join(ys) != "" && "/" + Join(ys) != "/"
  {
    assert |"/" + Join(ys)| > 1;
  }

  // The loop over an archive --------------------------------------------------------------------

  /** Why a file cannot be written, if so. */
  datatype Fault = NoFault | AtOpen | AtCopy

  datatype Kind = Directory | File(fault: Fault) | Symlink | HardLink(linkname: string) | OtherKind

  datatype Entry = Entry(name: string, kind: Kind)

  /** What is done to the file system, parents of targets aside. */
  datatype Act = MakeDir(target: string) | Write(target: string) | MakeSymlink(target: string)
               | MakeLink(from: string, target: string)

  function ActsFor(dir: string, e: Entry): seq<Act> {
    var target := Target(dir, e.name);
    match e.kind
    case Directory => [MakeDir(target)]
    case File(fault) => if fault == AtOpen then [] else [Write(target)]
    case Symlink => [MakeSymlink(target)]
    case HardLink(linkname) => [MakeLink(Target(dir, linkname), target)]
    case OtherKind => []
  }

  predicate Faulty(e: Entry) {
    e.kind.File? && e.kind.fault != NoFault
  }

  /** What extracting does: entries that the guard stops are skipped, a fault ends it. */
  function Extracted(dir: string, es: seq<Entry>): seq<Act> {
    if es == [] then []
    else if !Guard(dir, Target(dir, es[0].name)) then Extracted(dir, es[1..])
    else if Faulty(es[0]) then ActsFor(dir, es[0])
    else ActsFor(dir, es[0]) + Extracted(dir, es[1..])
  }

  predicate Fails(dir: string, es: seq<Entry>) {
    es != [] && ((Guard(dir, Target(dir, es[0].name)) && Faulty(es[0])) || Fails(dir, es[1..]))
  }

  lemma ExtractedNext(dir: string, es: seq<Entry>, i: nat, acts: seq<Act>)
    requires i < |es|
    ensures var e := es[i];
      var guarded := Guard(dir, Target(dir, e.name));
      && (!guarded ==> Extracted(dir, es[i..]) == Extracted(dir, es[i + 1..]))
      && (guarded && Faulty(e) ==> Extracted(dir, es[i..]) == ActsFor(dir, e))
      && (guarded && !Faulty(e) ==>
            acts + Extracted(dir, es[i..]) == acts + ActsFor(dir, e) + Extracted(dir, es[i + 1..]))
      && (Fails(dir, es[i..]) <==> (guarded && Faulty(e)) || Fails(dir, es[i + 1..]))
  {
    assert es[i..][1..] == es[i + 1..];
    Assoc(acts, ActsFor(dir, es[i]), Extracted(dir, es[i + 1..]));
  }

  /** The loop over the entries that the stream yields before it ends or, broken, fails. */
  method Extract(dir: string, es: seq<Entry>, broken: bool) returns (acts: seq<Act>, failed: bool)
    ensures acts == Extracted(dir, es)
    ensures failed == (Fails(dir, es) || broken)
  {
    acts := [];
    var i := 0;
    while i < |es|
      invariant i <= |es| && Extracted(dir, es) == acts + Extracted(dir, es[i..])
      invariant Fails(dir, es) == Fails(dir, es[i..])
    {
      var e, target := es[i], Target(dir, es[i].name);
      ExtractedNext(dir, es, i, acts);
      i := i + 1;
      if !Guard(dir, target) { continue; }
      acts := acts + ActsFor(dir, e);
      if Faulty(e) { return acts, true; }
    }
    return acts, broken;
  }

  /** All that the archive asks for, were there no guard and no fault. */
  function Plan(dir: string, es: seq<Entry>): seq<Act> {
    if es == [] then [] else ActsFor(dir, es[0]) + Plan(dir, es[1..])
  }

  predicate Contained(dir: string, a: Act) {
    IsBelow(dir, a.target) && (a.MakeLink? ==> IsBelow(dir, a.from))
  }

  lemma ActsContained(dir: string, e: Entry)
    requires IsClean(dir) && dir != "/" && dir != "."
    ensures forall a :: a in ActsFor(dir, e) ==> Contained(dir, a)
  {
    Passes(dir, e.name);
    if e.kind.HardLink? { Passes(dir, e.kind.linkname); }
  }

  function Shifted(at: seq<nat>): (r: seq<nat>)
    ensures |r| == |at| && forall j :: 0 <= j < |at| ==> r[j] == at[j] + 1
  {
    seq(|at|, j requires 0 <= j < |at| => at[j] + 1)
  }

  /** Parts put together up to the first that stops, and where the elements come from. */
  function Flat(parts: seq<seq<Act>>, stops: seq<bool>): seq<Act>
    requires |parts| == |stops|
  {
    if parts == [] then [] else parts[0] + (if stops[0] then [] else Flat(parts[1..], stops[1..]))
  }

  function From(parts: seq<seq<Act>>, stops: seq<bool>): seq<nat>
    requires |parts| == |stops|
  {
    if parts == [] then []
    else (if parts[0] == [] then [] else [0]) + (if stops[0] then [] else Shifted(From(parts[1..], stops[1..])))
  }

  lemma AtIndices(head: seq<nat>, rest: seq<nat>)
    requires head == [] || head == [0]
    ensures var at := head + Shifted(rest);
      && (0 in at <==> head != [])
      && forall i: nat :: i + 1 in at <==> i in rest
  {
    var at := head + Shifted(rest);
    forall i: nat
      ensures i + 1 in at <==> i in rest
    {
      if i in rest {
        var j :| 0 <= j < |rest| && rest[j] == i;
        assert at[|head| + j] == i + 1;
      }
      if i + 1 in at {
        var j :| 0 <= j < |at| && at[j] == i + 1;
        assert at[j] == Shifted(rest)[j - |head|];
      }
    }
  }

  ghost predicate InOrder(at: seq<nat>, n: nat) {
    && (forall j :: 0 <= j < |at| ==> at[j] < n)
    && (forall j, k :: 0 <= j < k < |at| ==> at[j] < at[k])
  }

  lemma ShiftedInOrder(head: seq<nat>, rest: seq<nat>, n: nat)
    requires (head == [] || head == [0]) && InOrder(rest, n)
    ensures InOrder(head + Shifted(rest), n + 1)
  {}

  lemma FromFirst(parts: seq<seq<Act>>, stops: seq<bool>) returns (head: seq<nat>, rest: seq<nat>)
    requires |parts| == |stops| && parts != []
    ensures head == (if parts[0] == [] then [] else [0])
    ensures rest == if stops[0] then [] else From(parts[1..], stops[1..])
    ensures From(parts, stops) == head + Shifted(rest)
  {
    head := if parts[0] == [] then [] else [0];
    rest := if stops[0] then [] else From(parts[1..], stops[1..]);
    assert stops[0] ==> Shifted(rest) == [];
  }

  lemma {:induction false} FromInOrder(parts: seq<seq<Act>>, stops: seq<bool>)
    requires |parts| == |stops|
    ensures InOrder(From(parts, stops), |parts|)
    decreases |parts|
  {
    if parts != [] {
      var head, rest := FromFirst(parts, stops);
      if !stops[0] { FromInOrder(parts[1..], stops[1..]); }
      ShiftedInOrder(head, rest, |parts| - 1);
    }
  }

  predicate Clear(stops: seq<bool>, i: nat)
    requires i <= |stops|
  {
    forall h :: 0 <= h < i ==> !stops[h]
  }

  lemma ClearNext(stops: seq<bool>, i: nat)
    requires 0 < i <= |stops|
    ensures Clear(stops, i) <==> !stops[0] && Clear(stops[1..], i - 1)
  {
    assert forall h :: 0 < h < i ==> stops[h] == stops[1..][h - 1];
  }

  lemma {:induction false} FromExactly(parts: seq<seq<Act>>, stops: seq<bool>, i: nat)
    requires |parts| == |stops| && i < |parts|
    ensures i in From(parts, stops) <==> Clear(stops, i) && parts[i] != []
    decreases |parts|
  {
    var head, rest := FromFirst(parts, stops);
    AtIndices(head, rest);
    if i > 0 {
      assert (i - 1) + 1 in head + Shifted(rest) <==> i - 1 in rest;
      ClearNext(stops, i);
      if !stops[0] { FromExactly(parts[1..], stops[1..], i - 1); }
    }
  }

  /** The acts are the parts at these places. */
  ghost predicate Picks(parts: seq<seq<Act>>, at: seq<nat>, acts: seq<Act>) {
    |at| == |acts| && forall j :: 0 <= j < |at| ==> at[j] < |parts| && parts[at[j]] == [acts[j]]
  }

  lemma PicksNext(parts: seq<seq<Act>>, head: seq<nat>, rest: seq<nat>, later: seq<Act>)
    requires parts != [] && |parts[0]| <= 1 && head == (if parts[0] == [] then [] else [0])
    requires Picks(parts[1..], rest, later)
    ensures Picks(parts, head + Shifted(rest), parts[0] + later)
  {
    var at, acts := head + Shifted(rest), parts[0] + later;
    forall j | 0 <= j < |at|
      ensures at[j] < |parts| && parts[at[j]] == [acts[j]]
    {
      if j >= |head| {
        assert at[j] == rest[j - |head|] + 1 && acts[j] == later[j - |head|];
        assert parts[at[j]] == parts[1..][rest[j - |head|]];
      }
    }
  }

  lemma {:induction false} FlatFrom(parts: seq<seq<Act>>, stops: seq<bool>)
    requires |parts| == |stops| && forall i :: 0 <= i < |parts| ==> |parts[i]| <= 1
    ensures Picks(parts, From(parts, stops), Flat(parts, stops))
    decreases |parts|
  {
    if parts != [] {
      var head, rest := FromFirst(parts, stops);
      var later := if stops[0] then [] else Flat(parts[1..], stops[1..]);
      assert Flat(parts, stops) == parts[0] + later;
      if !stops[0] { FlatFrom(parts[1..], stops[1..]); }
      PicksNext(parts, head, rest, later);
    }
  }

  function Parts(dir: string, es: seq<Entry>): seq<seq<Act>> {
    seq(|es|, i requires 0 <= i < |es| => ActsFor(dir, es[i]))
  }

  function Stops(es: seq<Entry>): seq<bool> {
    seq(|es|, i requires 0 <= i < |es| => Faulty(es[i]))
  }

  lemma {:induction false} ExtractedFlat(dir: string, es: seq<Entry>)
    requires IsClean(dir) && dir != "/" && dir != "."
    ensures Extracted(dir, es) == Flat(Parts(dir, es), Stops(es))
  {
    if es != [] {
      Passes(dir, es[0].name);
      ExtractedFlat(dir, es[1..]);
      assert Parts(dir, es)[1..] == Parts(dir, es[1..]) && Stops(es)[1..] == Stops(es[1..]);
      assert ActsFor(dir, es[0]) + [] == ActsFor(dir, es[0]);
    }
  }

  /** The act for an entry. */
  predicate ActIs(dir: string, e: Entry, a: Act) {
    match e.kind
    case Directory => a == MakeDir(Target(dir, e.name))
    case File(_) => a == Write(Target(dir, e.name))
    case Symlink => a == MakeSymlink(Target(dir, e.name))
    case HardLink(linkname) => a == MakeLink(Target(dir, linkname), Target(dir, e.name))
    case OtherKind => false
  }

  lemma FirstActs(dir: string, e: Entry)
    ensures |ActsFor(dir, e)| == if e.kind.OtherKind? || e.kind == File(AtOpen) then 0 else 1
    ensures ActsFor(dir, e) != [] ==> ActIs(dir, e, ActsFor(dir, e)[0])
  {}

  lemma PartsExactly(dir: string, es: seq<Entry>)
    ensures forall i :: 0 <= i < |es| ==>
      |Parts(dir, es)[i]| == if es[i].kind.OtherKind? || es[i].kind == File(AtOpen) then 0 else 1
    ensures forall i :: 0 <= i < |es| && Parts(dir, es)[i] != [] ==> ActIs(dir, es[i], Parts(dir, es)[i][0])
  {
    forall i | 0 <= i < |es|
      ensures |Parts(dir, es)[i]| == if es[i].kind.OtherKind? || es[i].kind == File(AtOpen) then 0 else 1
      ensures Parts(dir, es)[i] != [] ==> ActIs(dir, es[i], Parts(dir, es)[i][0])
    {
      FirstActs(dir, es[i]);
    }
  }

  lemma StopsExactly(es: seq<Entry>, i: nat)
    requires i <= |es|
    ensures Clear(Stops(es), i)
       <==> forall h :: 0 <= h < i ==> es[h].kind.File? ==> es[h].kind.fault == NoFault
  {
    assert forall h :: 0 <= h < i ==> Stops(es)[h] == Faulty(es[h]);
  }

  /** Below a proper directory, entry by entry: the acts are those of some entries, in their order.
      They are the entries of a known kind up to the first file that cannot be written, and that file
      too if it could be opened. A directory is made, a file written and a symbolic link made at the
      entry's place; a hard link leads from the place of what it names to the entry's place. */
  lemma ExtractExact(dir: string, es: seq<Entry>) returns (at: seq<nat>)
    requires IsClean(dir) && dir != "/" && dir != "."
    ensures |at| == |Extracted(dir, es)|
    ensures forall j, k :: 0 <= j < k < |at| ==> at[j] < at[k]
    ensures forall j :: 0 <= j < |at| ==> at[j] < |es|
    ensures forall i: nat :: i < |es| ==> (i in at <==>
              && (forall h :: 0 <= h < i ==> es[h].kind.File? ==> es[h].kind.fault == NoFault)
              && !es[i].kind.OtherKind? && es[i].kind != File(AtOpen))
    ensures forall j :: 0 <= j < |at| ==>
              var e, a := es[at[j]], Extracted(dir, es)[j];
              match e.kind
              case Directory => a == MakeDir(Target(dir, e.name))
              case File(_) => a == Write(Target(dir, e.name))
              case Symlink => a == MakeSymlink(Target(dir, e.name))
              case HardLink(linkname) => a == MakeLink(Target(dir, linkname), Target(dir, e.name))
              case OtherKind => false
  {
    var parts, stops := Parts(dir, es), Stops(es);
    ExtractedFlat(dir, es);
    PartsExactly(dir, es);
    at := From(parts, stops);
    FromInOrder(parts, stops);
    FlatFrom(parts, stops);
    forall i: nat | i < |es|
      ensures i in at <==>
        && (forall h :: 0 <= h < i ==> es[h].kind.File? ==> es[h].kind.fault == NoFault)
        && !es[i].kind.OtherKind? && es[i].kind != File(AtOpen)
    {
      FromExactly(parts, stops, i);
      StopsExactly(es, i);
    }
    forall j | 0 <= j < |at|
      ensures ActIs(dir, es[at[j]], Extracted(dir, es)[j])
    {
      assert parts[at[j]] == [Extracted(dir, es)[j]];
    }
  }

  /** Extraction below a proper directory: everything done, hard links included, is done below it,
      whether or not it fails; and when no file is faulty, all that the archive asks for is done. */
  lemma {:induction false} ExtractKeepsAll(dir: string, es: seq<Entry>)
    requires IsClean(dir) && dir != "/" && dir != "."
    ensures forall a :: a in Extracted(dir, es) ==> Contained(dir, a)
    ensures Fails(dir, es) <==> exists i :: 0 <= i < |es| && Faulty(es[i])
    ensures !Fails(dir, es) ==> Extracted(dir, es) == Plan(dir, es)
  {
    if es != [] {
      Passes(dir, es[0].name);
      ActsContained(dir, es[0]);
      ExtractKeepsAll(dir, es[1..]);
      assert forall i :: 0 <= i < |es| - 1 ==> es[1..][i] == es[i + 1];
    }
  }
}

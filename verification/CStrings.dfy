/** Handing Go strings to C: buffers that the library keeps alive, and NULL-terminated arrays of
    pointers to them. */
module CStrings {
  import opened Stream

  const NUL: Byte := 0

  /** A C pointer to a string: NULL, or the k-th buffer handed out so far. */
  datatype Pointer = Null | To(k: nat)

  /** What C reads at the start of a buffer: everything before the first NUL. */
  function CRead(b: seq<Byte>): (s: seq<Byte>)
    ensures |s| <= |b| && s == b[..|s|] && NUL !in s
    ensures |s| < |b| ==> b[|s|] == NUL
  {
    if b == [] || b[0] == NUL then [] else [b[0]] + CRead(b[1..])
  }

  predicate Points(mem: seq<seq<Byte>>, p: Pointer) {
    p.To? ==> p.k < |mem|
  }

  predicate AllPoint(mem: seq<seq<Byte>>, ps: seq<Pointer>) {
    forall i :: 0 <= i < |ps| ==> Points(mem, ps[i])
  }

  /** What C reads from an array of strings: up to the first NULL. */
  function CReadArray(mem: seq<seq<Byte>>, ps: seq<Pointer>): seq<seq<Byte>>
    requires AllPoint(mem, ps)
  {
    if ps == [] || ps[0].Null? then [] else [CRead(mem[ps[0].k])] + CReadArray(mem, ps[1..])
  }

  /** A string that C sees as it is. */
  predicate Faithful(s: seq<Byte>) {
    s != [] && NUL !in s
  }

  function Terminated(s: seq<Byte>): (t: seq<Byte>)
    ensures t != [] && t[|t| - 1] == 0 && (t == s || t == s + [0])
  {
    if s != [] && s[|s| - 1] == NUL then s else s + [NUL]
  }

  /** The pointer stands for the string in memory. */
  predicate Stands(mem: seq<seq<Byte>>, p: Pointer, s: seq<Byte>) {
    if s == [] then p.Null? else p.To? && p.k < |mem| && mem[p.k] == Terminated(s)
  }

  predicate AllStand(mem: seq<seq<Byte>>, ps: seq<Pointer>, ss: seq<seq<Byte>>) {
    |ps| == |ss| && forall i :: 0 <= i < |ss| ==> Stands(mem, ps[i], ss[i])
  }

  class Lib {
    var passedDown: seq<seq<Byte>>

    constructor ()
      ensures passedDown == []
    {
      passedDown := [];
    }

    /** Buffers handed out earlier stay as they are. */
    method CString(s: seq<Byte>) returns (p: Pointer)
      modifies this
      ensures old(passedDown) <= passedDown
      ensures Stands(passedDown, p, s)
      ensures p == if s == [] then Null else To(|old(passedDown)|)
      ensures passedDown == old(passedDown)
           || (s != [] && passedDown == old(passedDown) + [if s[|s| - 1] == 0 then s else s + [0]])
    {
      if s == [] { return Null; }
      var b := s;
      if s[|s| - 1] != NUL { b := b + [NUL]; }
      passedDown := passedDown + [b];
      return To(|passedDown| - 1);
    }

    /** NULL for no strings at all; otherwise the pointers and a NULL after them. */
    method CStringArray(ss: seq<seq<Byte>>) returns (o: array?<Pointer>)
      modifies this
      ensures old(passedDown) <= passedDown
      ensures o == null <==> ss == []
      ensures o != null ==> fresh(o) && o.Length == |ss| + 1 && o[|ss|] == Null
      ensures o != null ==> AllStand(passedDown, o[..|ss|], ss)
    {
      if |ss| == 0 { return null; }
      var a := new Pointer[|ss| + 1];
      a[|ss|] := Null;
      var i := 0;
      while i < |ss|
        invariant i <= |ss| && a[|ss|] == Null
        invariant old(passedDown) <= passedDown
        invariant AllStand(passedDown, a[..i], ss[..i])
      {
        ghost var done, mem := a[..i], passedDown;
        var p := CString(ss[i]);
        a[i] := p;
        StandLonger(mem, passedDown, done, ss[..i]);
        assert a[..i + 1] == done + [p] && ss[..i + 1] == ss[..i] + [ss[i]];
        i := i + 1;
      }
      assert ss[..|ss|] == ss;
      return a;
    }
  }

  lemma StandLonger(mem: seq<seq<Byte>>, longer: seq<seq<Byte>>, ps: seq<Pointer>, ss: seq<seq<Byte>>)
    requires mem <= longer && AllStand(mem, ps, ss)
    ensures AllStand(longer, ps, ss)
  {
    forall i | 0 <= i < |ss|
      ensures Stands(longer, ps[i], ss[i])
    {
      assert Stands(mem, ps[i], ss[i]);
    }
  }

  lemma CReadOf(s: seq<Byte>, b: seq<Byte>, n: nat)
    requires n <= |b| && NUL !in b[..n] && (n < |b| ==> b[n] == NUL) && s == b[..n]
    ensures CRead(b) == s
  {
    var r := CRead(b);
    assert forall i :: 0 <= i < n ==> b[i] == b[..n][i] && b[i] != NUL;
    assert forall i :: 0 <= i < |r| ==> b[i] == r[i] && b[i] != NUL;
  }

  lemma TerminatedReads(s: seq<Byte>)
    requires s != []
    ensures CRead(Terminated(s)) == s <==> NUL !in s
  {
    if NUL !in s {
      assert s[|s| - 1] in s;
      assert (s + [NUL])[..|s|] == s;
      CReadOf(s, Terminated(s), |s|);
    }
  }

  /** Reading the array back gives the strings exactly when C can see each of them: an empty string
      ends the array early, a NUL ends its string early. */
  lemma {:induction false} ArrayExact(mem: seq<seq<Byte>>, ps: seq<Pointer>, ss: seq<seq<Byte>>)
    requires AllStand(mem, ps, ss) && AllPoint(mem, ps + [Null])
    ensures CReadArray(mem, ps + [Null]) == ss <==> forall i :: 0 <= i < |ss| ==> Faithful(ss[i])
  {
    var all := ps + [Null];
    if ss == [] {
      assert all[0].Null?;
    } else {
      assert Stands(mem, ps[0], ss[0]);
      assert all[1..] == ps[1..] + [Null] && ss == [ss[0]] + ss[1..];
      ArrayExact(mem, ps[1..], ss[1..]);
      if ss[0] != [] {
        TerminatedReads(ss[0]);
        var read := CReadArray(mem, all);
        assert read[1..] == CReadArray(mem, all[1..]);
      }
      assert (forall i :: 0 <= i < |ss| ==> Faithful(ss[i]))
        <==> Faithful(ss[0]) && forall i :: 0 <= i < |ss| - 1 ==> Faithful(ss[1..][i]);
    }
  }

  lemma StandPoints(mem: seq<seq<Byte>>, ps: seq<Pointer>, ss: seq<seq<Byte>>)
    requires AllStand(mem, ps, ss)
    ensures AllPoint(mem, ps + [Null])
  {
    forall i | 0 <= i < |ps| + 1
      ensures Points(mem, (ps + [Null])[i])
    {
      if i < |ps| { assert Stands(mem, ps[i], ss[i]); }
    }
  }

  /** However many strings are handed out later, an array reads the same. */
  lemma LaterReads(mem: seq<seq<Byte>>, longer: seq<seq<Byte>>, ps: seq<Pointer>, ss: seq<seq<Byte>>)
    requires AllStand(mem, ps, ss) && mem <= longer
    ensures AllPoint(mem, ps + [Null]) && AllPoint(longer, ps + [Null])
    ensures CReadArray(longer, ps + [Null]) == CReadArray(mem, ps + [Null])
  {
    StandLonger(mem, longer, ps, ss);
    StandPoints(mem, ps, ss);
    StandPoints(longer, ps, ss);
    SameReads(mem, longer, ps + [Null]);
  }

  lemma {:induction false} SameReads(mem: seq<seq<Byte>>, longer: seq<seq<Byte>>, ps: seq<Pointer>)
    requires mem <= longer && AllPoint(mem, ps) && AllPoint(longer, ps)
    ensures CReadArray(longer, ps) == CReadArray(mem, ps)
  {
    if ps != [] && ps[0].To? {
      assert Points(mem, ps[0]);
      SameReads(mem, longer, ps[1..]);
    }
  }
}

/** The guest side of an exec session: a byte source that chooses its own read boundaries, the
    terminal, and the streaming loop that separates resizes from data. */
module Demultiplexer {
  import opened Pattern
  import opened Sequences
  import opened Stream

  /** A connection as its reader sees it. It may split the stream anywhere, return nothing for
      a while, and report its error together with the last bytes or after them. */
  class Source {
    var remaining: seq<Byte>  // bytes still to be delivered before the error
    var idle: nat             // how many more reads may return nothing
    ghost var late: nat       // how many bytes the error arrived with

    constructor (s: seq<Byte>, idle: nat)
      ensures remaining == s && this.idle == idle
    {
      remaining, this.idle, late := s, idle, 0;
    }

    /** Fills a part of p[lo..hi]; anything may be left behind in the rest of p[lo..hi]. */
    method Read(p: array<Byte>, lo: nat, hi: nat) returns (n: nat, err: bool)
      requires lo < hi <= p.Length
      modifies this, p
      ensures n <= hi - lo && n <= |old(remaining)|
      ensures p[..lo] == old(p[..lo]) && p[hi..] == old(p[hi..])
      ensures p[lo..lo + n] == old(remaining)[..n]
      ensures remaining == old(remaining)[n..]
      ensures err ==> remaining == [] && late == n
      ensures !err ==> |remaining| + idle < |old(remaining)| + old(idle) && late == old(late)
      ensures idle <= old(idle)
    {
      var most := if hi - lo < |remaining| then hi - lo else |remaining|;
      n :| 0 <= n <= most;
      var stalled := n == 0 && idle > 0;
      if stalled {
        idle := idle - 1;
      } else if n == 0 && most > 0 {
        n := 1;
      }
      err := *;
      err := n == |remaining| && (err || (n == 0 && !stalled));
      for i := 0 to n
        modifies p
        invariant p[..lo] == old(p[..lo]) && p[hi..] == old(p[hi..])
        invariant p[lo..lo + i] == remaining[..i]
      {
        p[lo + i] := remaining[i];
      }
      remaining := remaining[n..];
      if err { late := n; }
    }
  }

  /** The pseudo-terminal, as the sequence of things done to it. */
  class Pty {
    var log: seq<Event>

    constructor ()
      ensures log == []
    {
      log := [];
    }

    method Write(data: seq<Byte>)
      modifies this
      ensures log == old(log) + Bytes(data)
    {
      log := log + Bytes(data);
    }

    method SetSize(cols: U16, rows: U16)
      modifies this
      ensures log == old(log) + [Resize(cols, rows)]
    {
      log := log + [Resize(cols, rows)];
    }
  }

  /** How a stream may go on; a name for + that quantifiers below are instantiated by. */
  function Then(s: seq<Byte>, x: seq<Byte>): seq<Byte> {
    s + x
  }

  /** From a terminal at `start`, after reading `seen` and bringing the terminal to `log`, `pend`
      is all that is undecided: however the stream goes on, its meaning is accounted for. */
  ghost predicate Settled(start: seq<Event>, seen: seq<Byte>, log: seq<Event>, pend: seq<Byte>) {
    forall x: seq<Byte> {:trigger Then(seen, x)} ::
      && start + Demux(Then(seen, x)) == log + Demux(pend + x)
      && Dropped(Then(seen, x)) == Dropped(pend + x)
  }

  lemma SettledAt(start: seq<Event>, seen: seq<Byte>, log: seq<Event>, pend: seq<Byte>, x: seq<Byte>)
    requires Settled(start, seen, log, pend)
    ensures start + Demux(seen + x) == log + Demux(pend + x)
    ensures Dropped(seen + x) == Dropped(pend + x)
  {
    var _ := Then(seen, x);
  }

  lemma SettledNow(start: seq<Event>, seen: seq<Byte>, log: seq<Event>, pend: seq<Byte>)
    requires Settled(start, seen, log, pend)
    ensures start + Demux(seen) == log + Demux(pend) && Dropped(seen) == Dropped(pend)
  {
    SettledAt(start, seen, log, pend, []);
    assert seen + [] == seen && pend + [] == pend;
  }

  lemma SettledRead(start: seq<Event>, seen: seq<Byte>, log: seq<Event>, pend: seq<Byte>, chunk: seq<Byte>)
    requires Settled(start, seen, log, pend)
    ensures Settled(start, seen + chunk, log, pend + chunk)
  {
    forall x: seq<Byte>
      ensures start + Demux(Then(seen + chunk, x)) == log + Demux(pend + chunk + x)
      ensures Dropped(Then(seen + chunk, x)) == Dropped(pend + chunk + x)
    {
      Assoc(seen, chunk, x);
      Assoc(pend, chunk, x);
      SettledAt(start, seen, log, pend, chunk + x);
    }
  }

  lemma SettledWrite(start: seq<Event>, seen: seq<Byte>, log: seq<Event>, d: seq<Byte>, t: seq<Byte>)
    requires Settled(start, seen, log, d + t)
    requires forall x: seq<Byte> :: StartsNoMagic(d, t + x)
    ensures Settled(start, seen, log + Bytes(d), t)
  {
    forall x: seq<Byte>
      ensures start + Demux(Then(seen, x)) == log + Bytes(d) + Demux(t + x)
      ensures Dropped(Then(seen, x)) == Dropped(t + x)
    {
      Assoc(d, t, x);
      DemuxSkip(d, t + x);
      Assoc(log, Bytes(d), Demux(t + x));
    }
  }

  lemma SettledResize(start: seq<Event>, seen: seq<Byte>, log: seq<Event>, dims: seq<Byte>, t: seq<Byte>)
    requires |dims| == 4 && Settled(start, seen, log, MAGIC + dims + t)
    ensures Settled(start, seen, log + [ResizeFrom(dims)], t)
  {
    forall x: seq<Byte>
      ensures start + Demux(Then(seen, x)) == log + [ResizeFrom(dims)] + Demux(t + x)
      ensures Dropped(Then(seen, x)) == Dropped(t + x)
    {
      Assoc(MAGIC + dims, t, x);
      DemuxMessage(dims, t + x);
      Assoc(log, [ResizeFrom(dims)], Demux(t + x));
    }
  }

  lemma PlainStartsNoMagic(d: seq<Byte>)
    requires MAGIC[0] !in d
    ensures forall t: seq<Byte> :: StartsNoMagic(d, t)
  {
    forall t: seq<Byte>, k: nat | k < |d|
      ensures !OccursAt(MAGIC, d + t, k)
    {
      assert (d + t)[k] == d[k];
      assert k + 4 <= |d + t| ==> (d + t)[k..k + 4][0] == d[k];
    }
  }

  lemma FailedMatchStartsNoMagic(m: nat, t: seq<Byte>)
    requires m < 4 && t != [] && t[0] != MAGIC[m]
    ensures forall x: seq<Byte> :: StartsNoMagic(MAGIC[..m], t + x)
  {
    MagicIsBorderSafe();
    forall x: seq<Byte>
      ensures StartsNoMagic(MAGIC[..m], t + x)
    {
      FlushIsSafe(MAGIC, m, t + x);
    }
  }

  /** What the terminal sees of a stream whose last `late` bytes came with the error. */
  ghost function Delivered(s: seq<Byte>, late: nat): seq<Event>
    requires late <= |s|
  {
    var early := s[..|s| - late];
    if Dropped(early) > 0 then Demux(early) else Demux(s)
  }

  /** Inside a message the loop asks for no more than the dimension bytes still missing. */
  ghost predicate LateFits(s: seq<Byte>, late: nat)
    requires late <= |s|
  {
    var d := Dropped(s[..|s| - late]);
    d > 0 ==> d + late <= 8
  }

  lemma LoneErrorLosesNothing(s: seq<Byte>)
    ensures Delivered(s, 0) == Demux(s)
  {
    assert s[..|s| - 0] == s;
  }

  /** The stream's meaning is delivered unless the error came with exactly the bytes that
      complete a resize message; then that resize is lost. */
  lemma DeliveredExactly(early: seq<Byte>, tail: seq<Byte>)
    requires LateFits(early + tail, |tail|)
    ensures Delivered(early + tail, |tail|) == Demux(early + tail)
       <==> !(Dropped(early) > 0 && Dropped(early) + |tail| == 8)
  {
    assert (early + tail)[..|early|] == early;
    if Dropped(early) > 0 { CutMessageGoesOn(early, tail); }
  }

  /** How many bytes of the stream are neither shown nor part of an applied resize. */
  ghost function Lost(s: seq<Byte>, late: nat): nat
    requires late <= |s|
  {
    var d := Dropped(s[..|s| - late]);
    if d > 0 then d + late else Dropped(s)
  }

  /** No byte is lost but those of one message that the end of the stream cut off or, when its last
      bytes came with the error, took away. */
  lemma DeliveredConserves(s: seq<Byte>, late: nat)
    requires late <= |s| && LateFits(s, late)
    ensures |s| == DataCount(Delivered(s, late)) + 8 * ResizeCount(Delivered(s, late)) + Lost(s, late)
    ensures Lost(s, late) == 0 || 4 <= Lost(s, late) <= 8
    ensures late == 0 ==> Lost(s, late) <= 7
  {
    ByteConservation(s);
    ByteConservation(s[..|s| - late]);
    DroppedTail(s);
    DroppedTail(s[..|s| - late]);
  }

  /** Reads the dimension bytes still missing in dimBuf; false when the source failed first,
      even if the failing read brought the last of them. */
  method FillDims(src: Source, dimBuf: array<Byte>, have: nat, ghost dims: seq<Byte>) returns (ok: bool)
    requires have <= dimBuf.Length == 4 && dimBuf[..have] == dims
    modifies src, dimBuf
    ensures |src.remaining| <= |old(src.remaining)|
    ensures ok ==> dims + old(src.remaining) == dimBuf[..] + src.remaining
    ensures ok ==> |src.remaining| + src.idle <= |old(src.remaining)| + old(src.idle)
    ensures ok ==> src.late == old(src.late)
    ensures !ok ==> src.remaining == [] && src.late <= |old(src.remaining)|
    ensures !ok ==> |dims| + |old(src.remaining)| - src.late < 4
    ensures !ok ==> |dims| + |old(src.remaining)| <= 4
  {
    var filled := have;
    while filled < 4
      invariant |dims| <= filled <= 4
      invariant dims + old(src.remaining) == dimBuf[..filled] + src.remaining
      invariant |src.remaining| + src.idle <= |old(src.remaining)| + old(src.idle)
      invariant src.late == old(src.late)
      decreases |src.remaining| + src.idle
    {
      ghost var got, rest := dimBuf[..filled], src.remaining;
      var n, err := src.Read(dimBuf, filled, 4);
      assert dimBuf[..filled + n] == got + rest[..n];
      assert rest == rest[..n] + rest[n..];
      filled := filled + n;
      if err { return false; }
    }
    assert dimBuf[..4] == dimBuf[..];
    return true;
  }

  /** Collects the four dimension bytes after a magic that ended at buf[i], from the bytes
      at hand and then from the source; `got` is what was read in addition. */
  method ReadDims(src: Source, buf: array<Byte>, i: nat, n: nat, dimBuf: array<Byte>)
    returns (next: nat, ok: bool, ghost got: seq<Byte>)
    requires i <= n <= buf.Length && dimBuf.Length == 4 && buf != dimBuf
    modifies src, dimBuf
    ensures i <= next <= n && |src.remaining| <= |old(src.remaining)|
    ensures ok ==> old(src.remaining) == got + src.remaining
    ensures ok ==> buf[i..n] + got == dimBuf[..] + buf[next..n]
    ensures ok ==> |src.remaining| + src.idle <= |old(src.remaining)| + old(src.idle)
    ensures ok ==> src.late == old(src.late)
    ensures !ok ==> src.remaining == [] && src.late <= |old(src.remaining)|
    ensures !ok ==> n - i + |old(src.remaining)| - src.late < 4
    ensures !ok ==> n - i + |old(src.remaining)| <= 4
  {
    got := [];
    if n - i >= 4 {
      Copy(dimBuf, buf, i, 4);
      return i + 4, true, [];
    }
    Copy(dimBuf, buf, i, n - i);
    ok := FillDims(src, dimBuf, n - i, buf[i..n]);
    next := n;
    if ok {
      SplitOff(buf[i..n], old(src.remaining), dimBuf[..], src.remaining);
      got := old(src.remaining)[..|old(src.remaining)| - |src.remaining|];
    }
  }

  lemma SplitOff(a: seq<Byte>, b: seq<Byte>, c: seq<Byte>, d: seq<Byte>)
    requires a + b == c + d && |a| <= |c|
    ensures b == b[..|b| - |d|] + d && a + b[..|b| - |d|] == c
  {
    var i := |b| - |d|;
    assert c == (c + d)[..|c|] == (a + b)[..|c|] == a + b[..i];
    assert d == (c + d)[|c|..] == (a + b)[|c|..] == b[i..];
  }

  /** The end of the longest run of bytes from buf[i] on, none of which but the first can be a
      magic's first byte. */
  method PlainRun(buf: array<Byte>, i: nat, n: nat) returns (end: nat)
    requires i < n <= buf.Length
    ensures i < end <= n && MAGIC[0] !in buf[i + 1..end]
    ensures end < n ==> buf[end] == MAGIC[0]
  {
    end := i + 1;
    while end < n && buf[end] != MAGIC[0]
      invariant i < end <= n && MAGIC[0] !in buf[i + 1..end]
    {
      end := end + 1;
    }
  }

  lemma MatchOne(m: nat, t: seq<Byte>)
    requires m < 4 && t != [] && t[0] == MAGIC[m]
    ensures MAGIC[..m] + t == MAGIC[..m + 1] + t[1..]
    ensures MAGIC[..4] == MAGIC
  {}

  lemma FlushSettled(start: seq<Event>, seen: seq<Byte>, log: seq<Event>, pend: seq<Byte>, m: nat, t: seq<Byte>)
    requires m < 4 && t != [] && t[0] != MAGIC[m]
    requires pend == MAGIC[..m] + t && Settled(start, seen, log, pend)
    ensures Settled(start, seen, log + Bytes(MAGIC[..m]), t)
  {
    FailedMatchStartsNoMagic(m, t);
    SettledWrite(start, seen, log, MAGIC[..m], t);
  }

  lemma PlainSettled(start: seq<Event>, seen: seq<Byte>, log: seq<Event>, pend: seq<Byte>, d: seq<Byte>, t: seq<Byte>)
    requires MAGIC[0] !in d && pend == d + t && Settled(start, seen, log, pend)
    ensures Settled(start, seen, log + Bytes(d), t)
  {
    PlainStartsNoMagic(d);
    SettledWrite(start, seen, log, d, t);
  }

  lemma DimsSettled(start: seq<Event>, seen: seq<Byte>, log: seq<Event>, pend: seq<Byte>,
                    tail: seq<Byte>, got: seq<Byte>, dims: seq<Byte>, rest: seq<Byte>)
    requires pend == MAGIC + tail && Settled(start, seen, log, pend)
    requires |dims| == 4 && tail + got == dims + rest
    ensures Settled(start, seen + got, log + [ResizeFrom(dims)], rest)
  {
    SettledRead(start, seen, log, pend, got);
    Assoc(MAGIC, tail, got);
    Assoc(MAGIC, dims, rest);
    SettledResize(start, seen + got, log, dims, rest);
  }

  /** The source failed inside the dimensions of a message: what is out already is all there is. */
  lemma CutInDims(start: seq<Event>, seen: seq<Byte>, log: seq<Event>, pend: seq<Byte>,
                  dims: seq<Byte>, rest: seq<Byte>, late: nat)
    requires pend == MAGIC + dims && Settled(start, seen, log, pend)
    requires late <= |rest| && |dims| + |rest| - late < 4 && |dims| + |rest| <= 4
    ensures log == start + Delivered(seen + rest, late) && LateFits(seen + rest, late)
  {
    var early := rest[..|rest| - late];
    assert (seen + rest)[..|seen + rest| - late] == seen + early;
    SettledAt(start, seen, log, pend, early);
    Assoc(MAGIC, dims, early);
    DemuxCutMessage(dims + early);
  }

  /** The source failed between messages: a partial match is data after all. */
  lemma EndOfStream(start: seq<Event>, early: seq<Byte>, log0: seq<Event>, held: seq<Byte>,
                    all: seq<Byte>, late: nat, log: seq<Event>, m: nat)
    requires held < MAGIC && Settled(start, early, log0, held)
    requires m < 4 && Settled(start, all, log, MAGIC[..m])
    requires late <= |all| && early == all[..|all| - late]
    ensures log + Bytes(MAGIC[..m]) == start + Delivered(all, late) && LateFits(all, late)
    ensures m == 0 ==> log == start + Delivered(all, late)
  {
    SettledNow(start, early, log0, held);
    DemuxPartialMagic(|held|);
    SettledNow(start, all, log, MAGIC[..m]);
    DemuxPartialMagic(m);
  }

  /** One read's worth of bytes, buf[..n], with m bytes of a magic matched before it. Returns the
      new match counter, or ok == false when the source failed inside a message. */
  method CopyChunk(ptmx: Pty, src: Source, buf: array<Byte>, n: nat, m: nat,
                   ghost start: seq<Event>, ghost all: seq<Byte>, ghost seen0: seq<Byte>)
    returns (matchLen: nat, ok: bool, ghost seen: seq<Byte>)
    requires n <= buf.Length && m < 4 && all == seen0 + src.remaining
    requires Settled(start, seen0, ptmx.log, MAGIC[..m] + buf[..n])
    modifies ptmx, src
    ensures matchLen < 4 && |src.remaining| <= |old(src.remaining)|
    ensures ok ==> all == seen + src.remaining && Settled(start, seen, ptmx.log, MAGIC[..matchLen])
    ensures ok ==> |src.remaining| + src.idle <= |old(src.remaining)| + old(src.idle)
    ensures ok ==> src.late == old(src.late)
    ensures !ok ==> src.remaining == [] && src.late <= |old(src.remaining)|
    ensures !ok ==> ptmx.log == start + Delivered(all, src.late) && LateFits(all, src.late)
  {
    seen := seen0;
    ghost var pend := MAGIC[..m] + buf[..n];
    matchLen, ok := m, true;
    var i := 0;
    while i < n
      invariant i <= n && matchLen < 4
      invariant seen + src.remaining == all
      invariant Settled(start, seen, ptmx.log, pend) && pend == MAGIC[..matchLen] + buf[i..n]
      invariant |src.remaining| + src.idle <= |old(src.remaining)| + old(src.idle)
      invariant |src.remaining| <= |old(src.remaining)| && src.late == old(src.late)
      decreases n - i, matchLen
    {
      if buf[i] == MAGIC[matchLen] {
        MatchOne(matchLen, buf[i..n]);
        matchLen := matchLen + 1;
        i := i + 1;
        if matchLen == |MAGIC| {
          matchLen := 0;
          var dimBuf := new Byte[4];
          ghost var tail, rest := buf[i..n], src.remaining;
          var next, filled, got := ReadDims(src, buf, i, n, dimBuf);
          if !filled {
            CutInDims(start, seen, ptmx.log, pend, tail, rest, src.late);
            ok := false;
            return;
          }
          i := next;
          DimsSettled(start, seen, ptmx.log, pend, tail, got, dimBuf[..], buf[i..n]);
          seen, pend := seen + got, buf[i..n];
          ptmx.SetSize(Word(dimBuf[0], dimBuf[1]), Word(dimBuf[2], dimBuf[3]));
        }
      } else if matchLen > 0 {
        FlushSettled(start, seen, ptmx.log, pend, matchLen, buf[i..n]);
        ptmx.Write(MAGIC[..matchLen]);
        pend := buf[i..n];
        matchLen := 0;
      } else {
        var from := i;
        i := PlainRun(buf, from, n);
        PlainSettled(start, seen, ptmx.log, pend, buf[from..i], buf[i..n]);
        ptmx.Write(buf[from..i]);
        pend := buf[i..n];
      }
    }
    assert pend == MAGIC[..matchLen];
  }

  /** Copies from src to the terminal, applying the resize messages found in the stream. */
  method CopyWithResize(ptmx: Pty, src: Source)
    modifies ptmx, src
    ensures src.remaining == [] && src.late <= |old(src.remaining)|
    ensures ptmx.log == old(ptmx.log) + Delivered(old(src.remaining), src.late)
    ensures LateFits(old(src.remaining), src.late)
  {
    ghost var start, all, seen := ptmx.log, src.remaining, [];
    var buf := new Byte[32 * 1024];
    var matchLen := 0;
    while true
      invariant 0 <= matchLen < 4
      invariant all == seen + src.remaining
      invariant Settled(start, seen, ptmx.log, MAGIC[..matchLen])
      decreases |src.remaining| + src.idle
    {
      ghost var early, log, held := seen, ptmx.log, MAGIC[..matchLen];
      var n, err := src.Read(buf, 0, buf.Length);
      assert err ==> early == all[..|all| - n];
      SettledRead(start, seen, log, held, buf[..n]);
      var ok;
      matchLen, ok, seen := CopyChunk(ptmx, src, buf, n, matchLen, start, all, seen + buf[..n]);
      if !ok { return; }
      if err {
        assert seen == all;
        EndOfStream(start, early, log, held, all, n, ptmx.log, matchLen);
        if matchLen > 0 { ptmx.Write(MAGIC[..matchLen]); }
        return;
      }
    }
  }

  method Copy(dst: array<Byte>, src: array<Byte>, from: nat, count: nat)
    requires dst != src && count <= dst.Length && from + count <= src.Length
    modifies dst
    ensures dst[..count] == src[from..from + count]
  {
    for k := 0 to count
      invariant dst[..k] == src[from..from + k]
    {
      dst[k] := src[from + k];
    }
  }
}

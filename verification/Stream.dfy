/** The exec stream: terminal input interleaved with in-band resize messages. Demux says what
    a byte stream means, by leftmost occurrence of the magic; nothing here follows the code. */
module Stream {
  import opened Pattern
  import opened Sequences

  type Byte = b: int | 0 <= b < 256
  type U16 = w: int | 0 <= w < 65536

  const MAGIC: seq<Byte> := [0x01, 0x80, 0x01, 0x80]

  /** One thing that reaches the guest's terminal. */
  datatype Event = Data(b: Byte) | Resize(cols: U16, rows: U16)

  function Bytes(s: seq<Byte>): (es: seq<Event>)
    ensures |es| == |s| && forall i :: 0 <= i < |s| ==> es[i] == Data(s[i])
  {
    seq(|s|, i requires 0 <= i < |s| => Data(s[i]))
  }

  lemma BytesConcat(d: seq<Byte>, t: seq<Byte>)
    ensures Bytes(d + t) == Bytes(d) + Bytes(t)
  {}

  /** A big-endian 16-bit number. */
  function Word(hi: Byte, lo: Byte): U16 {
    hi * 256 + lo
  }

  function ResizeFrom(dims: seq<Byte>): Event
    requires |dims| == 4
  {
    Resize(Word(dims[0], dims[1]), Word(dims[2], dims[3]))
  }

  /** What a whole stream means: data up to the first magic, then the resize in the four bytes
      after it, then the rest. A message cut short by the end of the stream means nothing. */
  ghost function Demux(s: seq<Byte>): seq<Event> {
    var k := Leftmost(MAGIC, s);
    if |s| < k + 8 then Bytes(s[..k])
    else Bytes(s[..k]) + [ResizeFrom(s[k + 4..k + 8])] + Demux(s[k + 8..])
  }

  /** How many bytes of a cut-short message end the stream; 0 when it ends between messages. */
  ghost function Dropped(s: seq<Byte>): nat {
    var k := Leftmost(MAGIC, s);
    if |s| < k + 8 then |s| - k else Dropped(s[k + 8..])
  }

  /** Number of events of each kind. */
  function DataCount(es: seq<Event>): nat {
    if es == [] then 0 else (if es[0].Data? then 1 else 0) + DataCount(es[1..])
  }

  function ResizeCount(es: seq<Event>): nat {
    if es == [] then 0 else (if es[0].Resize? then 1 else 0) + ResizeCount(es[1..])
  }

  lemma {:induction false} CountsConcat(xs: seq<Event>, ys: seq<Event>)
    ensures DataCount(xs + ys) == DataCount(xs) + DataCount(ys)
    ensures ResizeCount(xs + ys) == ResizeCount(xs) + ResizeCount(ys)
  {
    if xs == [] {
      assert xs + ys == ys;
    } else {
      CountsConcat(xs[1..], ys);
      assert (xs + ys)[1..] == xs[1..] + ys;
    }
  }

  lemma {:induction false} CountsOfBytes(s: seq<Byte>)
    ensures DataCount(Bytes(s)) == |s| && ResizeCount(Bytes(s)) == 0
  {
    if s != [] {
      CountsOfBytes(s[1..]);
      assert Bytes(s)[1..] == Bytes(s[1..]);
    }
  }

  /** No byte is invented or lost: input bytes are data, eight per resize, or a dropped tail. */
  lemma {:induction false} ByteConservation(s: seq<Byte>)
    ensures |s| == DataCount(Demux(s)) + 8 * ResizeCount(Demux(s)) + Dropped(s)
  {
    var k := Leftmost(MAGIC, s);
    CountsOfBytes(s[..k]);
    if |s| >= k + 8 {
      var r, rest := [ResizeFrom(s[k + 4..k + 8])], s[k + 8..];
      ByteConservation(rest);
      CountsConcat(Bytes(s[..k]) + r, Demux(rest));
      CountsConcat(Bytes(s[..k]), r);
    }
  }

  /** A dropped tail is the magic with at most three of the four dimension bytes. */
  lemma {:induction false} DroppedTail(s: seq<Byte>)
    ensures Dropped(s) == 0 || 4 <= Dropped(s) <= 7
    ensures Dropped(s) > 0 ==> s[|s| - Dropped(s)..][..4] == MAGIC
  {
    var k := Leftmost(MAGIC, s);
    if |s| >= k + 8 {
      var rest := s[k + 8..];
      DroppedTail(rest);
      assert s[|s| - Dropped(s)..] == rest[|rest| - Dropped(s)..];
    } else if k < |s| {
      assert s[k..][..4] == s[k..k + 4];
    }
  }

  lemma MagicIsBorderSafe()
    ensures BorderSafe(MAGIC)
  {}

  /** Nothing of d can be the beginning of a magic, whatever follows d + t. */
  ghost predicate StartsNoMagic(d: seq<Byte>, t: seq<Byte>) {
    forall k: nat :: k < |d| ==> !OccursAt(MAGIC, d + t, k)
  }

  /** What Demux makes of everything from the first magic on. */
  ghost function FromMagic(s: seq<Byte>, k: nat): seq<Event>
    requires k <= |s|
  {
    if |s| < k + 8 then [] else [ResizeFrom(s[k + 4..k + 8])] + Demux(s[k + 8..])
  }

  lemma DemuxSplit(s: seq<Byte>)
    ensures var k := Leftmost(MAGIC, s); Demux(s) == Bytes(s[..k]) + FromMagic(s, k)
  {}

  lemma TailsAgree(d: seq<Byte>, t: seq<Byte>, l: nat)
    requires l <= |t|
    ensures Bytes((d + t)[..|d| + l]) == Bytes(d) + Bytes(t[..l])
    ensures (d + t)[|d| + l..] == t[l..]
  {
    assert (d + t)[..|d| + l] == d + t[..l];
    BytesConcat(d, t[..l]);
  }

  /** FromMagic and the dropped tail depend only on what follows the magic's position. */
  lemma FromMagicOfTail(s: seq<Byte>, k: nat, t: seq<Byte>, l: nat)
    requires k <= |s| && l <= |t| && s[k..] == t[l..]
    ensures FromMagic(s, k) == FromMagic(t, l)
    ensures k == Leftmost(MAGIC, s) && l == Leftmost(MAGIC, t) ==> Dropped(s) == Dropped(t)
  {
    if l + 8 <= |t| {
      assert s[k + 4..k + 8] == s[k..][4..8] && s[k + 8..] == s[k..][8..];
      assert t[l + 4..l + 8] == t[l..][4..8] && t[l + 8..] == t[l..][8..];
    }
  }

  lemma DemuxSkip(d: seq<Byte>, t: seq<Byte>)
    requires StartsNoMagic(d, t)
    ensures Demux(d + t) == Bytes(d) + Demux(t)
    ensures Dropped(d + t) == Dropped(t)
  {
    var l := Leftmost(MAGIC, t);
    LeftmostAfterSkip(MAGIC, d, t);
    TailsAgree(d, t, l);
    FromMagicOfTail(d + t, |d| + l, t, l);
    calc {
      Demux(d + t);
    == { DemuxSplit(d + t); }
      Bytes(d) + Bytes(t[..l]) + FromMagic(t, l);
    == { Assoc(Bytes(d), Bytes(t[..l]), FromMagic(t, l)); }
      Bytes(d) + (Bytes(t[..l]) + FromMagic(t, l));
    == { DemuxSplit(t); }
      Bytes(d) + Demux(t);
    }
  }

  /** Passing a prefix through unexamined is harmless exactly when no magic starts in it. */
  lemma DemuxAfterRaw(d: seq<Byte>, t: seq<Byte>)
    ensures Demux(d + t) == Bytes(d) + Demux(t) <==> StartsNoMagic(d, t)
  {
    if StartsNoMagic(d, t) {
      DemuxSkip(d, t);
    } else {
      var s, k := d + t, Leftmost(MAGIC, d + t);
      assert k < |d|;
      assert (Bytes(d) + Demux(t))[k] == Data(d[k]);
      assert |Demux(s)| > k ==> Demux(s)[k].Resize?;
    }
  }

  lemma DemuxMessage(dims: seq<Byte>, t: seq<Byte>)
    requires |dims| == 4
    ensures Demux(MAGIC + dims + t) == [ResizeFrom(dims)] + Demux(t)
    ensures Dropped(MAGIC + dims + t) == Dropped(t)
  {
    var s := MAGIC + dims + t;
    assert s[..4] == MAGIC;
    LeftmostIs(MAGIC, s, 0);
    assert s[4..8] == dims && s[8..] == t;
  }

  /** The message on the wire: four bytes that announce it, columns and rows with the high byte first. */
  lemma WireFormat(cols: U16, rows: U16, t: seq<Byte>)
    ensures Demux([0x01, 0x80, 0x01, 0x80, cols / 256, cols % 256, rows / 256, rows % 256] + t)
         == [Resize(cols, rows)] + Demux(t)
  {
    var dims: seq<Byte> := [cols / 256, cols % 256, rows / 256, rows % 256];
    DemuxMessage(dims, t);
    assert [0x01, 0x80, 0x01, 0x80, cols / 256, cols % 256, rows / 256, rows % 256] + t == MAGIC + dims + t;
  }

  lemma DemuxCutMessage(dims: seq<Byte>)
    requires |dims| < 4
    ensures Demux(MAGIC + dims) == [] && Dropped(MAGIC + dims) == 4 + |dims|
  {
    var s := MAGIC + dims;
    assert s[..4] == MAGIC;
    LeftmostIs(MAGIC, s, 0);
  }

  lemma DemuxPartialMagic(m: nat)
    requires m < 4
    ensures Demux(MAGIC[..m]) == Bytes(MAGIC[..m]) && Dropped(MAGIC[..m]) == 0
  {
    LeftmostIs(MAGIC, MAGIC[..m], m);
    assert MAGIC[..m][..m] == MAGIC[..m];
  }

  lemma LeftmostExtends(s: seq<Byte>, t: seq<Byte>)
    requires Leftmost(MAGIC, s) < |s|
    ensures Leftmost(MAGIC, s + t) == Leftmost(MAGIC, s)
  {
    var k := Leftmost(MAGIC, s);
    assert OccursAt(MAGIC, s, k) && (s + t)[k..k + 4] == s[k..k + 4];
    forall j: nat | j < k
      ensures !OccursAt(MAGIC, s + t, j)
    {
      assert !OccursAt(MAGIC, s, j) && (s + t)[j..j + 4] == s[j..j + 4];
    }
    LeftmostIs(MAGIC, s + t, k);
  }

  /** The data before the first message, and the message. */
  ghost function FirstMessage(s: seq<Byte>): seq<Event>
    requires |s| >= Leftmost(MAGIC, s) + 8
  {
    var k := Leftmost(MAGIC, s);
    Bytes(s[..k]) + [ResizeFrom(s[k + 4..k + 8])]
  }

  lemma DemuxPastFirst(s: seq<Byte>, t: seq<Byte>)
    requires |s| >= Leftmost(MAGIC, s) + 8
    ensures Demux(s + t) == FirstMessage(s) + Demux(s[Leftmost(MAGIC, s) + 8..] + t)
  {
    var k := Leftmost(MAGIC, s);
    LeftmostExtends(s, t);
    assert (s + t)[..k] == s[..k];
    assert (s + t)[k + 4..k + 8] == s[k + 4..k + 8] && (s + t)[k + 8..] == s[k + 8..] + t;
  }

  lemma DemuxFirstCut(s: seq<Byte>, t: seq<Byte>)
    requires Leftmost(MAGIC, s) < |s| < Leftmost(MAGIC, s) + 8 && |s + t| <= Leftmost(MAGIC, s) + 8
    ensures |s + t| < Leftmost(MAGIC, s) + 8 ==> Demux(s + t) == Demux(s)
    ensures |s + t| == Leftmost(MAGIC, s) + 8 ==> Demux(s + t) == Demux(s) + [ResizeFrom((s + t)[|s + t| - 4..])]
  {
    var k := Leftmost(MAGIC, s);
    LeftmostExtends(s, t);
    assert (s + t)[..k] == s[..k];
    if |s + t| == k + 8 {
      assert (s + t)[k + 8..] == [] && (s + t)[k + 4..k + 8] == (s + t)[|s + t| - 4..];
      DemuxPartialMagic(0);
    }
  }

  /** A stream that stopped inside a message and goes on: nothing new until the message is complete. */
  lemma {:induction false} CutMessageGoesOn(s: seq<Byte>, t: seq<Byte>)
    requires Dropped(s) > 0 && Dropped(s) + |t| <= 8
    ensures |s| >= 4
    ensures Dropped(s) + |t| < 8 ==> Demux(s + t) == Demux(s)
    ensures Dropped(s) + |t| == 8 ==> Demux(s + t) == Demux(s) + [ResizeFrom((s + t)[|s + t| - 4..])]
  {
    var k := Leftmost(MAGIC, s);
    if |s| >= k + 8 {
      var rest := s[k + 8..];
      CutMessageGoesOn(rest, t);
      LaterMessage(s, t);
      Prepend(FirstMessage(s), Demux(rest), Demux(rest + t), ResizeFrom((s + t)[|s + t| - 4..]));
    } else {
      DemuxFirstCut(s, t);
    }
  }

  lemma Prepend<T>(head: seq<T>, es: seq<T>, es': seq<T>, x: T)
    ensures es' == es ==> head + es' == head + es
    ensures es' == es + [x] ==> head + es' == head + es + [x]
  {}

  lemma LaterMessage(s: seq<Byte>, t: seq<Byte>)
    requires |s| >= Leftmost(MAGIC, s) + 12
    ensures var rest := s[Leftmost(MAGIC, s) + 8..];
      && Demux(s) == FirstMessage(s) + Demux(rest)
      && Demux(s + t) == FirstMessage(s) + Demux(rest + t)
      && (s + t)[|s + t| - 4..] == (rest + t)[|rest + t| - 4..]
  {
    var rest := s[Leftmost(MAGIC, s) + 8..];
    DemuxPastFirst(s, t);
    DemuxPastFirst(s, []);
    assert s + [] == s && rest + [] == rest;
    LastFour(s + t, rest + t);
  }

  lemma LastFour(s: seq<Byte>, tail: seq<Byte>)
    requires 4 <= |tail| <= |s| && s[|s| - |tail|..] == tail
    ensures s[|s| - 4..] == tail[|tail| - 4..]
  {
    assert forall i :: 0 <= i < |tail| ==> s[|s| - |tail| + i] == tail[i];
  }
}

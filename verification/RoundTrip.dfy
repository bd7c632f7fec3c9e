/** When the guest's demultiplexer recovers what the host's encoder was given. The stream has no
    escaping, so this needs a condition on the data; it is exact. */
module RoundTrip {
  import opened Pattern
  import opened Sequences
  import opened Stream
  import opened Sender

  /** Data from position k on is taken for a resize message: it spells the magic, or it ends in the
      magic's border and a real message follows. */
  predicate MisreadAt(es: seq<Event>, k: nat) {
    || (k + 4 <= |es| && es[k..k + 4] == Bytes(MAGIC))
    || (k + 3 <= |es| && es[k] == Data(0x01) && es[k + 1] == Data(0x80) && es[k + 2].Resize?)
  }

  ghost predicate Unambiguous(es: seq<Event>) {
    forall k: nat :: k < |es| ==> !MisreadAt(es, k)
  }

  lemma UnambiguousTail(es: seq<Event>)
    requires es != []
    ensures Unambiguous(es) <==> !MisreadAt(es, 0) && Unambiguous(es[1..])
  {
    forall k: nat | k < |es| - 1
      ensures MisreadAt(es[1..], k) == MisreadAt(es, k + 1)
    {
      assert k + 4 <= |es[1..]| ==> es[1..][k..k + 4] == es[k + 1..k + 5];
    }
    if Unambiguous(es[1..]) && !MisreadAt(es, 0) {
      forall k: nat | k < |es|
        ensures !MisreadAt(es, k)
      {
        if k > 0 { assert !MisreadAt(es[1..], k - 1); }
      }
    }
  }

  /** A magic starts at an encoded data byte exactly when the events there are misread. */
  lemma MagicAtData(es: seq<Event>)
    requires es != [] && es[0].Data?
    ensures OccursAt(MAGIC, Encode(es), 0) <==> MisreadAt(es, 0)
  {
    var s := Encode(es);
    assert s[0] == es[0].b;
    if |es| >= 2 {
      SecondByte(es);
      if es[1].Data? && |es| >= 3 {
        SecondByte(es[1..]);
        assert s[2] == Encode(es[1..])[1];
        if es[2].Data? && |es| >= 4 {
          SecondByte(es[2..]);
          assert s[3] == Encode(es[2..])[1];
        }
      }
    }
    assert |s| >= 4 ==> s[0..4] == [s[0], s[1], s[2], s[3]];
    assert |es| >= 4 ==> es[0..4] == [es[0], es[1], es[2], es[3]];
  }

  lemma SecondByte(es: seq<Event>)
    requires |es| >= 2 && es[0].Data?
    ensures var s := Encode(es);
      && s == [es[0].b] + Encode(es[1..])
      && |s| >= 2
      && (es[1].Data? ==> s[1] == es[1].b)
      && (es[1].Resize? ==> |s| >= 9 && s[1..5] == MAGIC)
  {
    var t := Encode(es[1..]);
    assert t == EncodeOne(es[1]) + Encode(es[2..]);
  }

  lemma DecodeMessage(cols: U16, rows: U16, t: seq<Byte>)
    ensures Demux(Message(cols, rows) + t) == [Resize(cols, rows)] + Demux(t)
  {
    var m := Message(cols, rows);
    assert m == m[..4] + m[4..8];
    DemuxMessage(m[4..8], t);
  }

  lemma DecodeData(es: seq<Event>)
    requires es != [] && es[0].Data?
    ensures !MisreadAt(es, 0) ==> Demux(Encode(es)) == [es[0]] + Demux(Encode(es[1..]))
    ensures MisreadAt(es, 0) ==> Demux(Encode(es)) == [] || Demux(Encode(es))[0].Resize?
  {
    var d, t := [es[0].b], Encode(es[1..]);
    MagicAtData(es);
    if MisreadAt(es, 0) {
      assert Leftmost(MAGIC, Encode(es)) == 0;
    } else {
      assert StartsNoMagic(d, t);
      DemuxSkip(d, t);
    }
  }

  /** Decoding the encoded stream gives the same data and resizes in the same order exactly when
      no data between resizes contains the magic and none before a resize ends in 01 80. */
  lemma {:induction false} RoundTripExact(es: seq<Event>)
    ensures Demux(Encode(es)) == es <==> Unambiguous(es)
  {
    if es == [] {
      DemuxPartialMagic(0);
    } else {
      var rest := es[1..];
      RoundTripExact(rest);
      UnambiguousTail(es);
      assert es == [es[0]] + rest;
      match es[0]
      case Resize(cols, rows) =>
        DecodeMessage(cols, rows, Encode(rest));
        assert Demux(Encode(es))[1..] == Demux(Encode(rest));
      case Data(b) =>
        DecodeData(es);
        assert !MisreadAt(es, 0) ==> Demux(Encode(es))[1..] == Demux(Encode(rest));
    }
  }

  // A connection that breaks --------------------------------------------------------------------

  /** How many of the events fit completely into the first k bytes of their encoding. */
  function Whole(es: seq<Event>, k: nat): (j: nat)
    ensures j <= |es|
  {
    if es == [] || k < |EncodeOne(es[0])| then 0
    else 1 + Whole(es[1..], k - |EncodeOne(es[0])|)
  }

  lemma EncodePrefix(es: seq<Event>, j: nat)
    requires j < |es|
    ensures Encode(es[..j + 1]) == EncodeOne(es[0]) + Encode(es[1..][..j])
  {
    assert es[..j + 1][1..] == es[1..][..j];
  }

  /** The first k bytes are j whole events and a proper part of the next one's encoding. */
  predicate CutAt(es: seq<Event>, k: nat, j: nat)
    requires j <= |es| && k <= |Encode(es)|
  {
    var whole := Encode(es[..j]);
    && |whole| <= k
    && if j == |es| then k == |whole|
       else k - |whole| < |EncodeOne(es[j])| && Encode(es)[..k] == whole + EncodeOne(es[j])[..k - |whole|]
  }

  lemma CutAtNext(es: seq<Event>, k: nat, i: nat)
    requires i < |es| && |EncodeOne(es[0])| <= k <= |Encode(es)|
    requires CutAt(es[1..], k - |EncodeOne(es[0])|, i)
    ensures CutAt(es, k, i + 1)
  {
    var first, rest := EncodeOne(es[0]), es[1..];
    EncodePrefix(es, i);
    if i + 1 < |es| {
      PrefixAfter(first, Encode(rest), k);
      Assoc(first, Encode(rest[..i]), EncodeOne(rest[i])[..k - |first| - |Encode(rest[..i])|]);
    }
  }

  lemma PrefixAfter<T>(a: seq<T>, b: seq<T>, k: nat)
    requires |a| <= k <= |a| + |b|
    ensures (a + b)[..k] == a + b[..k - |a|]
  {}

  lemma {:induction false} CutForm(es: seq<Event>, k: nat)
    requires k <= |Encode(es)|
    ensures CutAt(es, k, Whole(es, k))
  {
    if Whole(es, k) == 0 {
      assert es[..0] == [];
    } else {
      CutForm(es[1..], k - |EncodeOne(es[0])|);
      CutAtNext(es, k, Whole(es, k) - 1);
    }
  }

  /** How many bytes of the first event that does not fit are in the first k bytes. */
  function Left(es: seq<Event>, k: nat): int {
    k - |Encode(es[..Whole(es, k)])|
  }

  /** What a guest gets to see of es when the connection breaks after k bytes: the events sent in full
      and, as data nobody typed, a part of a broken message's magic. */
  function Shown(es: seq<Event>, k: nat): seq<Event> {
    es[..Whole(es, k)] + (if 0 < Left(es, k) < 4 then Bytes(MAGIC[..Left(es, k)]) else [])
  }

  /** What decides whether that can be read: what is shown, and the resize that is cut off after its
      magic. */
  function Sent(es: seq<Event>, k: nat): seq<Event> {
    if Whole(es, k) < |es| && Left(es, k) >= 4 then es[..Whole(es, k) + 1] else Shown(es, k)
  }

  /** s is the encoding of es without its last bytes. */
  predicate IsCut(s: seq<Byte>, es: seq<Event>, missing: nat) {
    s <= Encode(es) && |s| + missing == |Encode(es)|
  }

  lemma CutData(es: seq<Event>, t: seq<Byte>)
    requires es != [] && es[0].Data? && !MisreadAt(es, 0) && t <= Encode(es[1..])
    ensures Demux([es[0].b] + t) == [es[0]] + Demux(t)
  {
    MagicAtData(es);
    CutNoMagic(Encode(es), [es[0].b], t);
    DemuxSkip([es[0].b], t);
  }

  lemma CutNoMagic(s: seq<Byte>, first: seq<Byte>, t: seq<Byte>)
    requires |first| == 1 && first + t <= s && !OccursAt(MAGIC, s, 0)
    ensures StartsNoMagic(first, t)
  {
    assert |first + t| >= 4 ==> (first + t)[0..4] == s[0..4];
  }

  lemma CutFirst(es: seq<Event>, t: seq<Byte>)
    requires es != [] && !MisreadAt(es, 0) && t <= Encode(es[1..])
    ensures Demux(EncodeOne(es[0]) + t) == [es[0]] + Demux(t)
  {
    match es[0]
    case Resize(cols, rows) => DecodeMessage(cols, rows, t);
    case Data(b) => CutData(es, t);
  }

  predicate EndsInResize(es: seq<Event>) {
    es != [] && es[|es| - 1].Resize?
  }

  lemma {:induction false} EndsInMessage(es: seq<Event>)
    requires EndsInResize(es)
    ensures |Encode(es)| >= 8
  {
    if |es| > 1 { EndsInMessage(es[1..]); }
  }

  lemma CutStep(es: seq<Event>, missing: nat, s: seq<Byte>) returns (t: seq<Byte>)
    requires es != [] && !MisreadAt(es, 0) && IsCut(s, es, missing) && missing <= |Encode(es[1..])|
    ensures IsCut(t, es[1..], missing) && Demux(s) == [es[0]] + Demux(t)
  {
    t := s[|EncodeOne(es[0])|..];
    assert Encode(es)[|EncodeOne(es[0])|..] == Encode(es[1..]);
    assert s == EncodeOne(es[0]) + t;
    CutFirst(es, t);
  }

  lemma FrontOf<T>(xs: seq<T>)
    requires |xs| > 1
    ensures [xs[0]] + xs[1..][..|xs| - 2] == xs[..|xs| - 1]
  {}

  /** When the last message is cut off inside its dimensions, what comes before it is all there is. */
  lemma {:induction false} CutMessage(es: seq<Event>, missing: nat, s: seq<Byte>)
    requires EndsInResize(es) && Unambiguous(es) && 1 <= missing <= 4 && IsCut(s, es, missing)
    ensures Demux(s) == es[..|es| - 1]
    decreases |es|
  {
    if |es| == 1 {
      LastMessageCut(es, missing, s);
    } else {
      UnambiguousTail(es);
      EndsInMessage(es[1..]);
      var t := CutStep(es, missing, s);
      CutMessage(es[1..], missing, t);
      FrontOf(es);
    }
  }

  lemma LastMessageCut(es: seq<Event>, missing: nat, s: seq<Byte>)
    requires |es| == 1 && es[0].Resize? && 1 <= missing <= 4 && IsCut(s, es, missing)
    ensures Demux(s) == []
  {
    assert es == [es[0]];
    EncodeResize(es[0].cols, es[0].rows);
    assert s == MAGIC + s[4..];
    DemuxCutMessage(s[4..]);
  }

  lemma {:induction false} EncodeCounts(es: seq<Event>)
    ensures |Encode(es)| == DataCount(es) + 8 * ResizeCount(es)
  {
    if es != [] { EncodeCounts(es[1..]); }
  }

  lemma CutMessageExact(es: seq<Event>, missing: nat, s: seq<Byte>)
    requires EndsInResize(es) && 1 <= missing <= 4 && IsCut(s, es, missing)
    ensures Demux(s) == es[..|es| - 1] <==> Unambiguous(es)
  {
    if Unambiguous(es) {
      CutMessage(es, missing, s);
    } else if Demux(s) == es[..|es| - 1] {
      CompletedMessage(es, missing, s, Encode(es)[|s|..]);
      RoundTripExact(es);
    }
  }

  lemma CutDrops(es: seq<Event>, missing: nat, s: seq<Byte>)
    requires EndsInResize(es) && 1 <= missing <= 4 && |s| + missing == |Encode(es)|
    requires Demux(s) == es[..|es| - 1]
    ensures Dropped(s) == 8 - missing
  {
    SplitLast(es);
    ByteConservation(s);
    EncodeCounts(es[..|es| - 1]);
  }

  /** What is understood of the cut stream is understood of the whole. */
  lemma CompletedMessage(es: seq<Event>, missing: nat, s: seq<Byte>, t: seq<Byte>)
    requires EndsInResize(es) && 1 <= missing == |t| <= 4 && s + t == Encode(es)
    requires Demux(s) == es[..|es| - 1]
    ensures Demux(Encode(es)) == es
  {
    SplitLast(es);
    CutDrops(es, missing, s);
    CutMessageGoesOn(s, t);
  }

  lemma SplitLast(es: seq<Event>)
    requires EndsInResize(es)
    ensures es == es[..|es| - 1] + [es[|es| - 1]]
    ensures |Encode(es)| == |Encode(es[..|es| - 1])| + 8
    ensures ResizeFrom(Encode(es)[|Encode(es)| - 4..]) == es[|es| - 1]
  {
    var n := |es| - 1;
    var m := Message(es[n].cols, es[n].rows);
    assert es == es[..n] + [es[n]];
    EncodeConcat(es[..n], [es[n]]);
    EncodeResize(es[n].cols, es[n].rows);
    assert (Encode(es[..n]) + m)[|Encode(es)| - 4..] == m[4..8];
  }

  /** What is cut off before the end of its magic is data to the guest. */
  lemma EncodeShown(es: seq<Event>, k: nat)
    requires k <= |Encode(es)| && Sent(es, k) == Shown(es, k)
    ensures Encode(es)[..k] == Encode(Shown(es, k))
  {
    var j, left := Whole(es, k), Left(es, k);
    CutForm(es, k);
    if j < |es| && left > 0 {
      assert EncodeOne(es[j])[..left] == MAGIC[..left];
      EncodeConcat(es[..j], Bytes(MAGIC[..left]));
      EncodeBytes(MAGIC[..left]);
    } else {
      assert es[..j] + [] == es[..j];
      assert j < |es| ==> EncodeOne(es[j])[..left] == [];
      assert j == |es| ==> es[..j] == es;
    }
  }

  /** A cut in the dimensions of a message. */
  lemma BrokenInDims(es: seq<Event>, k: nat)
    requires k <= |Encode(es)| && Whole(es, k) < |es| && Left(es, k) >= 4
    ensures var cut := Sent(es, k);
      && EndsInResize(cut) && Shown(es, k) == cut[..|cut| - 1] && Left(es, k) < 8
      && IsCut(Encode(es)[..k], cut, 8 - Left(es, k))
  {
    var j := Whole(es, k);
    CutForm(es, k);
    assert es[j].Resize?;
    assert es[..j + 1] == es[..j] + [es[j]] && Shown(es, k) == es[..j];
    EncodeConcat(es[..j], [es[j]]);
    EncodeResize(es[j].cols, es[j].rows);
  }

  /** A connection that breaks after k bytes: the guest gets the events that were sent in full and at
      most three bytes of a broken message's magic, exactly when these are unambiguous. */
  lemma CutExact(es: seq<Event>, k: nat)
    requires k <= |Encode(es)|
    ensures Demux(Encode(es)[..k]) == Shown(es, k) <==> Unambiguous(Sent(es, k))
  {
    if Whole(es, k) < |es| && Left(es, k) >= 4 {
      BrokenInDims(es, k);
      CutMessageExact(Sent(es, k), 8 - Left(es, k), Encode(es)[..k]);
    } else {
      EncodeShown(es, k);
      RoundTripExact(Shown(es, k));
    }
  }

  lemma PrefixUnambiguous(es: seq<Event>, j: nat)
    requires Unambiguous(es) && j <= |es|
    ensures Unambiguous(es[..j])
  {
    forall p: nat | p < j
      ensures !MisreadAt(es[..j], p)
    {
      assert !MisreadAt(es, p);
      assert p + 4 <= j ==> es[..j][p..p + 4] == es[p..p + 4];
    }
  }

  /** A part of the magic after unambiguous data can only be misread where the message would be. */
  lemma SpillUnambiguous(es: seq<Event>, j: nat, m: nat)
    requires Unambiguous(es) && j < |es| && es[j].Resize? && m < 4
    ensures Unambiguous(es[..j] + Bytes(MAGIC[..m]))
  {
    var shown := es[..j] + Bytes(MAGIC[..m]);
    forall p: nat | p < |shown|
      ensures !MisreadAt(shown, p)
    {
      if p < |es| { assert !MisreadAt(es, p); }
      if p + 4 <= j {
        assert shown[p..p + 4] == es[p..p + 4];
      } else if p + 4 <= |shown| {
        var w := shown[p..p + 4];
        assert j <= p + 3 && p <= j ==> w[j - p] == shown[j] == Data(MAGIC[0]);
        assert w[0] == shown[p] && w[1] == shown[p + 1];
      }
    }
  }

  /** An unambiguous stream can be cut anywhere. */
  lemma CutStream(es: seq<Event>, k: nat)
    requires Unambiguous(es) && k <= |Encode(es)|
    ensures Demux(Encode(es)[..k]) == Shown(es, k)
  {
    var j := Whole(es, k);
    CutForm(es, k);
    CutExact(es, k);
    if j < |es| && Left(es, k) >= 4 {
      PrefixUnambiguous(es, j + 1);
    } else if j < |es| && Left(es, k) > 0 {
      SpillUnambiguous(es, j, Left(es, k));
    } else {
      PrefixUnambiguous(es, j);
      assert es[..j] + [] == es[..j];
    }
  }

  lemma {:induction false} EncodeLonger(es: seq<Event>, i: nat, j: nat)
    requires i <= j <= |es|
    ensures |Encode(es[..i])| <= |Encode(es[..j])|
  {
    assert es[..j] == es[..i] + es[i..j];
    EncodeConcat(es[..i], es[i..j]);
  }

  lemma EncodeNext(es: seq<Event>, j: nat)
    requires j < |es|
    ensures |Encode(es[..j + 1])| == |Encode(es[..j])| + |EncodeOne(es[j])|
  {
    assert es[..j + 1] == es[..j] + [es[j]];
    EncodeConcat(es[..j], [es[j]]);
    assert Encode([es[j]]) == EncodeOne(es[j]) + Encode([]);
  }

  lemma WholeIs(es: seq<Event>, k: nat, j: nat)
    requires k <= |Encode(es)| && j < |es| && |Encode(es[..j])| <= k < |Encode(es[..j])| + |EncodeOne(es[j])|
    ensures Whole(es, k) == j
  {
    CutForm(es, k);
    var w := Whole(es, k);
    if w < j {
      EncodeNext(es, w);
      EncodeLonger(es, w + 1, j);
    } else if w > j {
      EncodeNext(es, j);
      EncodeLonger(es, j + 1, w);
    }
  }

  lemma CutInsideAt(es: seq<Event>, j: nat, m: nat)
    requires Unambiguous(es) && j < |es| && m < |EncodeOne(es[j])|
    ensures |Encode(es[..j])| + m <= |Encode(es)|
    ensures Demux(Encode(es)[..|Encode(es[..j])| + m])
         == es[..j] + (if es[j].Resize? && m < 4 then Bytes(MAGIC[..m]) else [])
  {
    var k := |Encode(es[..j])| + m;
    EncodeNext(es, j);
    EncodeLonger(es, j + 1, |es|);
    assert es[..|es|] == es;
    WholeIs(es, k, j);
    CutStream(es, k);
    assert MAGIC[..0] == [];
  }

  /** An unambiguous stream that ends m bytes into one of its events: the events before it arrive, and of
      the event itself only a part of its magic, as data. */
  lemma CutInside(xs: seq<Event>, e: Event, ys: seq<Event>, m: nat)
    requires Unambiguous(xs + [e] + ys) && m < |Encode([e])|
    ensures |Encode(xs)| + m <= |Encode(xs + [e] + ys)|
    ensures Demux(Encode(xs + [e] + ys)[..|Encode(xs)| + m])
         == xs + (if e.Resize? && m < 4 then Bytes([0x01, 0x80, 0x01, 0x80][..m]) else [])
  {
    var es := xs + [e] + ys;
    assert es[..|xs|] == xs && es[|xs|] == e;
    assert [e][1..] == [];
    CutInsideAt(es, |xs|, m);
  }
}

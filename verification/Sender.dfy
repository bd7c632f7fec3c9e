/** The host side of an exec session: terminal input and window-size changes become one stream. */
module Sender {
  import opened Options
  import opened Sequences
  import opened Stream

  /** The eight bytes of one resize message. */
  function Message(cols: U16, rows: U16): (m: seq<Byte>)
    ensures |m| == 8 && m[..4] == MAGIC && ResizeFrom(m[4..8]) == Resize(cols, rows)
  {
    var m := MAGIC + [cols / 256, cols % 256, rows / 256, rows % 256];
    assert m[4..8] == [cols / 256, cols % 256, rows / 256, rows % 256];
    m
  }

  lemma MessageBytes(cols: U16, rows: U16)
    ensures Message(cols, rows) == [0x01, 0x80, 0x01, 0x80, cols / 256, cols % 256, rows / 256, rows % 256]
  {}

  /** How events travel: data as it is, resizes as messages; nothing is escaped. */
  function Encode(es: seq<Event>): seq<Byte> {
    if es == [] then [] else EncodeOne(es[0]) + Encode(es[1..])
  }

  function EncodeOne(e: Event): seq<Byte> {
    match e
    case Data(b) => [b]
    case Resize(cols, rows) => Message(cols, rows)
  }

  lemma {:induction false} EncodeConcat(xs: seq<Event>, ys: seq<Event>)
    ensures Encode(xs + ys) == Encode(xs) + Encode(ys)
  {
    if xs == [] {
      assert xs + ys == ys;
    } else {
      EncodeConcat(xs[1..], ys);
      ConsConcat(xs, ys);
      Assoc(EncodeOne(xs[0]), Encode(xs[1..]), Encode(ys));
    }
  }

  lemma ConsConcat<T>(xs: seq<T>, ys: seq<T>)
    requires xs != []
    ensures xs + ys != [] && (xs + ys)[0] == xs[0] && (xs + ys)[1..] == xs[1..] + ys
  {}

  lemma {:induction false} EncodeBytes(s: seq<Byte>)
    ensures Encode(Bytes(s)) == s
  {
    if s != [] {
      EncodeBytes(s[1..]);
      assert Bytes(s)[1..] == Bytes(s[1..]);
    }
  }

  lemma EncodeResize(cols: U16, rows: U16)
    ensures Encode([Resize(cols, rows)]) == Message(cols, rows)
  {
    assert Encode([]) == [];
  }

  /** A terminal size as the kernel reports it. */
  datatype Size = Size(cols: int, rows: int)

  /** Go's conversion to uint16 keeps the low 16 bits. */
  function ToU16(n: int): (w: U16)
    ensures 0 <= n < 65536 ==> w == n
    ensures (n - w) % 65536 == 0
  {
    n % 65536
  }

  datatype ReadOutcome = Good | TimedOut | Failed

  /** What one turn of the copy loop finds: a pending window change, the size a query would
      report, and the result of one read of standard input. */
  datatype Turn = Turn(winch: bool, size: Option<Size>, input: seq<Byte>, outcome: ReadOutcome)

  /** What the turns say should reach the guest. A failed size query or read ends the copying. */
  function Transcript(turns: seq<Turn>): seq<Event> {
    if turns == [] then []
    else TurnEvents(turns[0], if turns[0].outcome.Failed? then [] else Transcript(turns[1..]))
  }

  function TurnEvents(t: Turn, rest: seq<Event>): seq<Event> {
    if t.winch && t.size.None? then [] else WinchEvents(t) + (Bytes(t.input) + rest)
  }

  function WinchEvents(t: Turn): seq<Event>
    requires t.winch ==> t.size.Some?
  {
    if t.winch then [Resize(ToU16(t.size.value.cols), ToU16(t.size.value.rows))] else []
  }

  /** The loop goes on after a turn: a read that timed out is no error. */
  predicate GoesOn(t: Turn) {
    t.outcome != Failed && (t.winch ==> t.size.Some?)
  }

  predicate AllGoOn(turns: seq<Turn>) {
    forall i :: 0 <= i < |turns| ==> GoesOn(turns[i])
  }

  /** Turns that go on are sent one after the other, and then whatever comes later. */
  lemma {:induction false} TranscriptConcat(xs: seq<Turn>, ys: seq<Turn>)
    requires forall i :: 0 <= i < |xs| ==> xs[i].outcome != Failed && (xs[i].winch ==> xs[i].size.Some?)
    ensures Transcript(xs + ys) == Transcript(xs) + Transcript(ys)
  {
    if xs == [] {
      assert xs + ys == ys;
    } else {
      assert (xs + ys)[1..] == xs[1..] + ys;
      TranscriptConcat(xs[1..], ys);
      Assoc(Bytes(xs[0].input), Transcript(xs[1..]), Transcript(ys));
      Assoc(WinchEvents(xs[0]), Bytes(xs[0].input) + Transcript(xs[1..]), Transcript(ys));
    }
  }

  /** What one turn sends: its window change first, with its size, and then its input. A failed read still
      sends what it brought; a failed size query sends nothing. */
  lemma TranscriptOne(t: Turn)
    ensures t.winch && t.size.None? ==> Transcript([t]) == []
    ensures t.winch && t.size.Some? ==>
      Transcript([t]) == [Resize(t.size.value.cols % 65536, t.size.value.rows % 65536)] + Bytes(t.input)
    ensures !t.winch ==> Transcript([t]) == Bytes(t.input)
  {
    assert [t][1..] == [];
    assert Transcript([]) == [];
    assert Bytes(t.input) + [] == Bytes(t.input);
    assert [] + Bytes(t.input) == Bytes(t.input);
  }

  /** The first turn that does not go on is the last that sends anything. */
  lemma TranscriptStops(xs: seq<Turn>, t: Turn, ys: seq<Turn>)
    requires forall i :: 0 <= i < |xs| ==> xs[i].outcome != Failed && (xs[i].winch ==> xs[i].size.Some?)
    requires t.outcome == Failed || (t.winch && t.size.None?)
    ensures Transcript(xs + [t] + ys) == Transcript(xs) + Transcript([t])
  {
    Assoc(xs, [t], ys);
    TranscriptConcat(xs, [t] + ys);
    assert ([t] + ys)[0] == t && [t][1..] == [];
    assert Transcript([t] + ys) == TurnEvents(t, []);
  }

  /** The data among the events, and the sizes. */
  function DataOf(es: seq<Event>): seq<Byte> {
    if es == [] then [] else (if es[0].Data? then [es[0].b] else []) + DataOf(es[1..])
  }

  function SizesOf(es: seq<Event>): seq<(U16, U16)> {
    if es == [] then [] else (if es[0].Resize? then [(es[0].cols, es[0].rows)] else []) + SizesOf(es[1..])
  }

  lemma {:induction false} DataConcat(xs: seq<Event>, ys: seq<Event>)
    ensures DataOf(xs + ys) == DataOf(xs) + DataOf(ys)
  {
    if xs == [] {
      assert xs + ys == ys;
    } else {
      DataConcat(xs[1..], ys);
      ConsConcat(xs, ys);
      Assoc(if xs[0].Data? then [xs[0].b] else [], DataOf(xs[1..]), DataOf(ys));
    }
  }

  lemma {:induction false} SizesConcat(xs: seq<Event>, ys: seq<Event>)
    ensures SizesOf(xs + ys) == SizesOf(xs) + SizesOf(ys)
  {
    if xs == [] {
      assert xs + ys == ys;
    } else {
      SizesConcat(xs[1..], ys);
      ConsConcat(xs, ys);
      Assoc(if xs[0].Resize? then [(xs[0].cols, xs[0].rows)] else [], SizesOf(xs[1..]), SizesOf(ys));
    }
  }

  lemma {:induction false} PartsOfBytes(s: seq<Byte>)
    ensures DataOf(Bytes(s)) == s && SizesOf(Bytes(s)) == []
  {
    if s != [] {
      PartsOfBytes(s[1..]);
      assert Bytes(s)[1..] == Bytes(s[1..]);
    }
  }

  /** All input, and the sizes of all pending window changes. */
  function AllInput(turns: seq<Turn>): seq<Byte> {
    if turns == [] then [] else turns[0].input + AllInput(turns[1..])
  }

  function AllSizes(turns: seq<Turn>): seq<(U16, U16)>
    requires AllGoOn(turns)
  {
    if turns == [] then []
    else
      assert GoesOn(turns[0]);
      (if turns[0].winch then [(ToU16(turns[0].size.value.cols), ToU16(turns[0].size.value.rows))] else [])
      + AllSizes(turns[1..])
  }

  lemma PartsOfTurn(t: Turn)
    requires GoesOn(t)
    ensures DataOf(Transcript([t])) == t.input
    ensures SizesOf(Transcript([t])) == AllSizes([t])
  {
    TranscriptOne(t);
    PartsOfBytes(t.input);
    assert [t][1..] == [];
    if t.winch {
      var r := [Resize(ToU16(t.size.value.cols), ToU16(t.size.value.rows))];
      DataConcat(r, Bytes(t.input));
      SizesConcat(r, Bytes(t.input));
      assert r[1..] == [];
    }
  }

  /** As long as nothing fails, every byte of input is sent, in order, also that of reads that timed out,
      and every pending window change gives one resize, in order. */
  lemma {:induction false} AllIsSent(turns: seq<Turn>)
    requires AllGoOn(turns)
    ensures DataOf(Transcript(turns)) == AllInput(turns)
    ensures SizesOf(Transcript(turns)) == AllSizes(turns)
  {
    if turns != [] {
      var t, later := turns[0], turns[1..];
      assert GoesOn(t);
      AllIsSent(later);
      assert turns == [t] + later && [t][1..] == [];
      TranscriptConcat([t], later);
      PartsOfTurn(t);
      DataConcat(Transcript([t]), Transcript(later));
      SizesConcat(Transcript([t]), Transcript(later));
    }
  }

  function Prefix<T>(s: seq<T>, n: nat): (p: seq<T>)
    ensures p <= s && |p| <= n && (|p| < |s| ==> |p| == n)
  {
    if n < |s| then s[..n] else s
  }

  /** The connection to the guest; it takes `room` more bytes and then breaks. */
  class Conn {
    var sent: seq<Byte>
    var room: nat

    constructor (room: nat)
      ensures sent == [] && this.room == room
    {
      sent, this.room := [], room;
    }

    method Write(p: seq<Byte>) returns (failed: bool)
      modifies this
      ensures failed == (|p| > old(room))
      ensures sent == old(sent) + Prefix(p, old(room))
      ensures room == if failed then 0 else old(room) - |p|
    {
      failed := |p| > room;
      var taken := Prefix(p, room);
      sent, room := sent + taken, room - |taken|;
    }
  }

  method SendResize(dst: Conn, size: Option<Size>) returns (failed: bool)
    modifies dst
    ensures size.None? ==> failed && dst.sent == old(dst.sent) && dst.room == old(dst.room)
    ensures size.Some? ==>
      var c, r := size.value.cols % 65536, size.value.rows % 65536;
      var m := [0x01, 0x80, 0x01, 0x80, c / 256, c % 256, r / 256, r % 256];
      && failed == (8 > old(dst.room))
      && dst.sent == old(dst.sent) + Prefix(m, old(dst.room))
      && dst.room == if failed then 0 else old(dst.room) - 8
  {
    if size.None? { return true; }
    var cols, rows := ToU16(size.value.cols), ToU16(size.value.rows);
    var msg := new Byte[8];
    for i := 0 to 4
      modifies msg
      invariant msg[..i] == MAGIC[..i]
    {
      msg[i] := MAGIC[i];
    }
    msg[4], msg[5] := cols / 256, cols % 256;
    msg[6], msg[7] := rows / 256, rows % 256;
    MessageBytes(cols, rows);
    assert msg[..] == msg[..4] + [msg[4], msg[5], msg[6], msg[7]] == Message(cols, rows);
    failed := dst.Write(msg[..]);
  }

  /** `gone` is on its way and `todo` is still to be encoded for a peer that takes `room` bytes. */
  ghost predicate Owes(all: seq<Byte>, gone: seq<Byte>, todo: seq<Event>, room: nat) {
    all == gone + Prefix(Encode(todo), room)
  }

  lemma PrefixSplit<T>(a: seq<T>, b: seq<T>, n: nat)
    ensures Prefix(a + b, n) == Prefix(a, n) + (if n < |a| then [] else Prefix(b, n - |a|))
  {}

  lemma OwesLess(all: seq<Byte>, gone: seq<Byte>, now: seq<Event>, later: seq<Event>, room: nat)
    requires Owes(all, gone, now + later, room)
    ensures var e := Encode(now);
      && (|e| > room ==> all == gone + Prefix(e, room))
      && (|e| <= room ==> Owes(all, gone + Prefix(e, room), later, room - |e|))
  {
    EncodeConcat(now, later);
    PrefixSplit(Encode(now), Encode(later), room);
  }

  method SendInput(dst: Conn, input: seq<Byte>, ghost all: seq<Byte>, ghost rest: seq<Event>)
    returns (failed: bool)
    requires Owes(all, dst.sent, Bytes(input) + rest, dst.room)
    modifies dst
    ensures failed ==> dst.sent == all
    ensures !failed ==> Owes(all, dst.sent, rest, dst.room)
  {
    EncodeBytes(input);
    OwesLess(all, dst.sent, Bytes(input), rest, dst.room);
    failed := false;
    if |input| > 0 {
      failed := dst.Write(input);
    } else {
      assert Encode(Bytes(input)) == [];
      assert dst.sent + Prefix<Byte>([], dst.room) == dst.sent;
    }
  }

  lemma WinchBytes(t: Turn)
    requires t.winch && t.size.Some?
    ensures var c, r := t.size.value.cols % 65536, t.size.value.rows % 65536;
      Encode(WinchEvents(t)) == [0x01, 0x80, 0x01, 0x80, c / 256, c % 256, r / 256, r % 256]
  {
    var c, r := ToU16(t.size.value.cols), ToU16(t.size.value.rows);
    EncodeResize(c, r);
    MessageBytes(c, r);
  }

  method SendWinch(dst: Conn, t: Turn, ghost all: seq<Byte>, ghost rest: seq<Event>) returns (failed: bool)
    requires t.winch
    requires Owes(all, dst.sent, if t.size.None? then [] else WinchEvents(t) + rest, dst.room)
    modifies dst
    ensures failed ==> dst.sent == all
    ensures !failed ==> Owes(all, dst.sent, rest, dst.room)
  {
    if t.size.Some? {
      WinchBytes(t);
      OwesLess(all, dst.sent, WinchEvents(t), rest, dst.room);
    }
    failed := SendResize(dst, t.size);
  }

  /** The writes of one turn; stop is set when the connection broke or the size query failed. */
  method SendTurn(dst: Conn, t: Turn, ghost all: seq<Byte>, ghost rest: seq<Event>) returns (stop: bool)
    requires Owes(all, dst.sent, TurnEvents(t, rest), dst.room)
    modifies dst
    ensures stop ==> dst.sent == all
    ensures !stop ==> Owes(all, dst.sent, rest, dst.room)
  {
    if t.winch {
      stop := SendWinch(dst, t, all, Bytes(t.input) + rest);
      if stop { return; }
    } else {
      assert [] + (Bytes(t.input) + rest) == Bytes(t.input) + rest;
    }
    stop := SendInput(dst, t.input, all, rest);
  }

  /** Copies standard input to the guest, adding a resize message per window change. What is sent is
      the encoding of the transcript, cut where the connection breaks. */
  method CopyStdinWithResize(dst: Conn, turns: seq<Turn>)
    modifies dst
    ensures dst.sent == old(dst.sent) + Prefix(Encode(Transcript(turns)), old(dst.room))
  {
    ghost var all := dst.sent + Prefix(Encode(Transcript(turns)), dst.room);
    var i := 0;
    while i < |turns|
      invariant i <= |turns|
      invariant Owes(all, dst.sent, Transcript(turns[i..]), dst.room)
    {
      var t := turns[i];
      assert turns[i..][1..] == turns[i + 1..];
      ghost var rest := if t.outcome.Failed? then [] else Transcript(turns[i + 1..]);
      var stop := SendTurn(dst, t, all, rest);
      if stop { return; }
      if t.outcome != Good {
        if t.outcome == TimedOut {
          i := i + 1;
          continue;
        }
        return;
      }
      i := i + 1;
    }
  }
}

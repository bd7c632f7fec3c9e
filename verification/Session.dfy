/** One exec session in the guest: the handshake line is read through a buffer, what the buffer
    holds beyond it goes to the terminal unexamined, and the rest is demultiplexed. */
module Session {
  import opened Options
  import opened Sequences
  import opened Stream
  import opened Sender
  import opened Demultiplexer
  import opened RoundTrip
  import opened Handshake

  const NEWLINE: Byte := 10
  const BUFFER_SIZE := 4096
  const EMPTY_READS := 100

  /** A newline at the end and nowhere else. */
  predicate IsLine(s: seq<Byte>) {
    s != [] && s[|s| - 1] == NEWLINE && NEWLINE !in s[..|s| - 1]
  }

  /** The process that a session starts, and the size of its terminal. */
  datatype Launch = Launch(argv: seq<string>, cols: U16, rows: U16)

  function LaunchFor(h: Hello): Launch {
    var user := if h.user == "" then "root" else h.user;
    var su := ["su", "-s", "/bin/sh", "-", user];
    Launch(if |h.cmd| > 0 then su + ["-c", Join(h.cmd)] else su, h.cols, h.rows)
  }

  /** su runs the command line, or a login shell, as the user, on a terminal of the given size. */
  predicate Launches(l: Launch, h: Hello) {
    && l.cols == h.cols && l.rows == h.rows
    && |l.argv| >= 5 && l.argv[..5] == ["su", "-s", "/bin/sh", "-", h.user]
    && l.argv[5..] == if h.cmd == [] then [] else ["-c", Join(h.cmd)]
  }

  lemma LaunchRight(line: string)
    ensures Launches(LaunchFor(ParseHandshake(line)), ParseHandshake(line))
  {
    var h := ParseHandshake(line);
    ParsedAreWords(line);
    var l := LaunchFor(h);
    var su := ["su", "-s", "/bin/sh", "-", h.user];
    assert l.argv == su + (if h.cmd == [] then [] else ["-c", Join(h.cmd)]);
  }

  method FindNewline(s: seq<Byte>) returns (k: nat)
    ensures k <= |s| && NEWLINE !in s[..k] && (k < |s| ==> s[k] == NEWLINE)
  {
    k := 0;
    while k < |s| && s[k] != NEWLINE
      invariant k <= |s| && NEWLINE !in s[..k]
    {
      k := k + 1;
    }
  }

  lemma LineEnds(line: seq<Byte>, chunk: seq<Byte>, k: nat, rest: seq<Byte>)
    requires NEWLINE !in line && k < |chunk| && NEWLINE !in chunk[..k] && chunk[k] == NEWLINE
    ensures IsLine(line + chunk[..k + 1])
    ensures line + chunk + rest == line + chunk[..k + 1] + chunk[k + 1..] + rest
  {
    assert (line + chunk[..k + 1])[..|line| + k] == line + chunk[..k];
    assert line + chunk == line + chunk[..k + 1] + chunk[k + 1..];
  }

  /** One filling of the line buffer: reads until there is something, the source fails, or a hundred
      reads in a row have brought nothing. */
  method FillBuffer(conn: Source, buf: array<Byte>) returns (n: nat, stop: bool)
    requires buf.Length == BUFFER_SIZE
    modifies conn, buf
    ensures n <= buf.Length && old(conn.remaining) == buf[..n] + conn.remaining
    ensures n > 0 || stop
    ensures conn.idle <= old(conn.idle)
    ensures stop ==> conn.remaining == [] || conn.idle + EMPTY_READS <= old(conn.idle)
  {
    n, stop := 0, false;
    var empty := 0;
    while n == 0 && !stop
      invariant n <= buf.Length && old(conn.remaining) == buf[..n] + conn.remaining
      invariant conn.idle <= old(conn.idle)
      invariant n == 0 && !stop ==> conn.idle + empty <= old(conn.idle) && empty < EMPTY_READS
      invariant stop ==> conn.remaining == [] || conn.idle + EMPTY_READS <= old(conn.idle)
      decreases EMPTY_READS - empty, n == 0 && !stop
    {
      n, stop := conn.Read(buf, 0, buf.Length);
      if n == 0 && !stop {
        empty := empty + 1;
        stop := empty == EMPTY_READS;
      }
    }
  }

  /** Reads up to the first newline; what was read beyond it is handed back. */
  method ReadLine(conn: Source) returns (line: seq<Byte>, buffered: seq<Byte>, ok: bool)
    modifies conn
    ensures ok ==> IsLine(line) && old(conn.remaining) == line + buffered + conn.remaining
    ensures ok ==> line != [] && line[|line| - 1] == 10 && 10 !in line[..|line| - 1]
    ensures ok ==> |buffered| < BUFFER_SIZE
    ensures !ok ==> NEWLINE !in old(conn.remaining) || old(conn.idle) >= EMPTY_READS
  {
    var buf := new Byte[BUFFER_SIZE];
    line := [];
    while true
      invariant NEWLINE !in line && old(conn.remaining) == line + conn.remaining
      invariant conn.idle <= old(conn.idle)
      decreases |conn.remaining|
    {
      var n, stop := FillBuffer(conn, buf);
      var chunk := buf[..n];
      Assoc(line, chunk, conn.remaining);
      var k := FindNewline(chunk);
      if k < n {
        LineEnds(line, chunk, k, conn.remaining);
        return line + chunk[..k + 1], chunk[k + 1..], true;
      }
      line := line + chunk;
      if stop { return line, [], false; }
    }
  }

  /** Serves one connection. The character decoding of the handshake line and whether the process
      starts are the environment's; raw is what went to the terminal unexamined. */
  method HandleExecSession(conn: Source, ptmx: Pty, decode: seq<Byte> -> string, starts: bool)
    returns (launched: Option<Launch>, ghost line: seq<Byte>, ghost raw: seq<Byte>, ghost rest: seq<Byte>)
    modifies conn, ptmx
    ensures launched.Some? ==> starts && NEWLINE in old(conn.remaining)
    ensures launched.None? ==> !starts || NEWLINE !in old(conn.remaining) || old(conn.idle) >= EMPTY_READS
    ensures launched.None? ==> ptmx.log == old(ptmx.log)
    ensures launched.Some? ==>
      && IsLine(line) && old(conn.remaining) == line + raw + rest && |raw| < BUFFER_SIZE
      && launched.value == LaunchFor(ParseHandshake(decode(line)))
      && Launches(launched.value, ParseHandshake(decode(line)))
      && conn.late <= |rest| && LateFits(rest, conn.late)
      && ptmx.log == old(ptmx.log) + Bytes(raw) + Delivered(rest, conn.late)
  {
    var header, buffered, ok := ReadLine(conn);
    line, raw, rest := header, buffered, conn.remaining;
    if !ok { return None, line, raw, rest; }
    assert header[|header| - 1] in header + buffered + rest;
    var launch := LaunchFor(ParseHandshake(decode(header)));
    LaunchRight(decode(header));
    if !starts { return None, line, raw, rest; }
    if |buffered| > 0 {
      ptmx.Write(buffered);
    } else {
      assert ptmx.log == ptmx.log + Bytes(buffered);
    }
    CopyWithResize(ptmx, conn);
    launched := Some(launch);
  }

  /** A line at the front of a stream is the only way to split one off. */
  lemma LineUnique(line: seq<Byte>, body: seq<Byte>, line': seq<Byte>, body': seq<Byte>)
    requires IsLine(line) && IsLine(line') && line + body == line' + body'
    ensures line == line' && body == body'
  {
    var s, n, n' := line + body, |line|, |line'|;
    assert forall i :: 0 <= i < n - 1 ==> s[i] == line[..n - 1][i];
    assert forall i :: 0 <= i < n' - 1 ==> s[i] == line'[..n' - 1][i];
    assert s[n - 1] == s[n' - 1] == NEWLINE;
    assert line == s[..n] && body == s[n..] && line' == s[..n'] && body' == s[n'..];
  }

  lemma DataEncodesAsItself(es: seq<Event>)
    requires forall i :: 0 <= i < |es| ==> es[i].Data?
    ensures |Encode(es)| == |es| && Bytes(Encode(es)) == es
  {
    var d := seq(|es|, i requires 0 <= i < |es| => es[i].b);
    assert es == Bytes(d);
    EncodeBytes(d);
  }

  /** The first n events are data, which passes unexamined whatever it is, and the others can be told
      apart. */
  ghost predicate Readable(es: seq<Event>, n: nat) {
    n <= |es| && (forall i :: 0 <= i < n ==> es[i].Data?) && Unambiguous(es[n..])
  }

  lemma SplitData(es: seq<Event>, n: nat)
    requires n <= |es| && forall i :: 0 <= i < n ==> es[i].Data?
    ensures Encode(es) == Encode(es[..n]) + Encode(es[n..])
    ensures |Encode(es[..n])| == n && Bytes(Encode(es[..n])) == es[..n]
  {
    assert es == es[..n] + es[n..];
    EncodeConcat(es[..n], es[n..]);
    DataEncodesAsItself(es[..n]);
  }

  lemma Heads<T>(a: seq<T>, b: seq<T>, c: seq<T>)
    requires |a| <= |c|
    ensures a + b == c <==> a == c[..|a|] && b == c[|a|..]
  {
    assert c == c[..|a|] + c[|a|..];
    if a + b == c { assert a == (a + b)[..|a|] && b == (a + b)[|a|..]; }
  }

  /** Of a whole stream the terminal gets the client's events exactly when nothing but data was buffered
      with the handshake and what comes after the buffer is unambiguous. */
  lemma WholeExact(es: seq<Event>, raw: seq<Byte>, rest: seq<Byte>)
    requires raw + rest == Encode(es)
    ensures Bytes(raw) + Demux(rest) == es <==> Readable(es, |raw|)
  {
    var n := |raw|;
    if Bytes(raw) + Demux(rest) == es {
      assert forall i :: 0 <= i < n ==> es[i] == Bytes(raw)[i];
    }
    if n <= |es| && forall i :: 0 <= i < n ==> es[i].Data? {
      SplitData(es, n);
      Heads(raw, rest, Encode(es));
      RoundTripExact(es[n..]);
      Heads(Bytes(raw), Demux(rest), es);
    }
  }

  lemma FrontBehind<T>(xs: seq<T>, n: nat)
    requires n < |xs|
    ensures xs[..|xs| - 1][..n] == xs[..n] && xs[..|xs| - 1][n..] == xs[n..][..|xs[n..]| - 1]
  {}

  lemma CutBehind(es: seq<Event>, missing: nat, raw: seq<Byte>, rest: seq<Byte>)
    requires EndsInResize(es) && IsCut(raw + rest, es, missing)
    requires |raw| <= |es| && forall i :: 0 <= i < |raw| ==> es[i].Data?
    ensures |raw| < |es| && EndsInResize(es[|raw|..]) && IsCut(rest, es[|raw|..], missing)
    ensures Bytes(raw) == es[..|raw|]
  {
    SplitData(es, |raw|);
    PrefixHeads(raw, rest, Encode(es[..|raw|]), Encode(es[|raw|..]));
  }

  lemma PrefixHeads<T>(a: seq<T>, b: seq<T>, c: seq<T>, d: seq<T>)
    requires a + b <= c + d && |a| == |c|
    ensures a == c && b <= d
  {
    assert a == (a + b)[..|a|] == (c + d)[..|a|] == c;
    assert b == (a + b)[|a|..] == (c + d)[|a|..|a| + |b|] == d[..|b|];
  }

  lemma BehindData(es: seq<Event>, missing: nat, raw: seq<Byte>, rest: seq<Byte>)
    requires EndsInResize(es) && 1 <= missing <= 4 && IsCut(raw + rest, es, missing)
    requires |raw| <= |es| && forall i :: 0 <= i < |raw| ==> es[i].Data?
    ensures Bytes(raw) + Demux(rest) == es[..|es| - 1] <==> Unambiguous(es[|raw|..])
  {
    CutBehind(es, missing, raw, rest);
    CutMessageExact(es[|raw|..], missing, rest);
    FrontBehind(es, |raw|);
    Heads(Bytes(raw), Demux(rest), es[..|es| - 1]);
  }

  /** The same for a stream that was cut off inside the dimensions of its last message. */
  lemma InDimsExact(es: seq<Event>, missing: nat, raw: seq<Byte>, rest: seq<Byte>)
    requires EndsInResize(es) && 1 <= missing <= 4 && IsCut(raw + rest, es, missing)
    ensures Bytes(raw) + Demux(rest) == es[..|es| - 1] <==> Readable(es, |raw|)
  {
    if Bytes(raw) + Demux(rest) == es[..|es| - 1] {
      assert forall i :: 0 <= i < |raw| ==> es[i] == Bytes(raw)[i];
    }
    if |raw| <= |es| && forall i :: 0 <= i < |raw| ==> es[i].Data? {
      BehindData(es, missing, raw, rest);
    }
  }

  /** What the terminal gets of a connection that may break anywhere: the client's events as far as they
      were sent, exactly when nothing but data was buffered with the handshake and the rest of what
      was sent is unambiguous. */
  lemma SessionExact(es: seq<Event>, k: nat, raw: seq<Byte>, rest: seq<Byte>)
    requires k <= |Encode(es)| && raw + rest == Encode(es)[..k]
    ensures Bytes(raw) + Demux(rest) == Shown(es, k) <==> Readable(Sent(es, k), |raw|)
  {
    if Whole(es, k) < |es| && Left(es, k) >= 4 {
      BrokenInDims(es, k);
      InDimsExact(Sent(es, k), 8 - Left(es, k), raw, rest);
    } else {
      EncodeShown(es, k);
      WholeExact(Shown(es, k), raw, rest);
    }
  }

  /** The error came with exactly the bytes that complete a resize message. */
  ghost predicate LateLoss(rest: seq<Byte>, late: nat)
    requires late <= |rest|
  {
    var d := Dropped(rest[..|rest| - late]);
    d > 0 && d + late == 8
  }

  lemma ShownCounts(es: seq<Event>, k: nat)
    requires k <= |Encode(es)|
    ensures var shown := Shown(es, k);
      DataCount(shown) + 8 * ResizeCount(shown) <= k < DataCount(shown) + 8 * ResizeCount(shown) + 8
  {
    EncodeCounts(Shown(es, k));
    if Whole(es, k) < |es| && Left(es, k) >= 4 {
      BrokenInDims(es, k);
      SplitLast(Sent(es, k));
    } else {
      EncodeShown(es, k);
    }
  }

  /** A resize that is lost to a late error is missed: the bytes would not add up. */
  lemma LateLossShows(es: seq<Event>, k: nat, raw: seq<Byte>, rest: seq<Byte>, late: nat)
    requires k <= |Encode(es)| && raw + rest == Encode(es)[..k]
    requires late <= |rest| && LateFits(rest, late) && LateLoss(rest, late)
    ensures Bytes(raw) + Delivered(rest, late) != Shown(es, k)
  {
    DeliveredConserves(rest, late);
    CountsOfBytes(raw);
    CountsConcat(Bytes(raw), Delivered(rest, late));
    ShownCounts(es, k);
    assert |raw + rest| == k;
  }

  /** With an error that may come together with the last bytes. */
  lemma TerminalExact(es: seq<Event>, k: nat, raw: seq<Byte>, rest: seq<Byte>, late: nat)
    requires k <= |Encode(es)| && raw + rest == Encode(es)[..k]
    requires late <= |rest| && LateFits(rest, late)
    ensures Bytes(raw) + Delivered(rest, late) == Shown(es, k)
       <==> Readable(Sent(es, k), |raw|) && !LateLoss(rest, late)
  {
    if LateLoss(rest, late) {
      LateLossShows(es, k, raw, rest, late);
    } else {
      var early := rest[..|rest| - late];
      assert rest == early + rest[|rest| - late..];
      DeliveredExactly(early, rest[|rest| - late..]);
      SessionExact(es, k, raw, rest);
    }
  }

  /** How many bytes of the events get onto a connection that takes room bytes. */
  function Sendable(es: seq<Event>, room: nat): (k: nat)
    ensures k <= |Encode(es)| && Prefix(Encode(es), room) == Encode(es)[..k]
  {
    if room < |Encode(es)| then room else assert Encode(es)[..|Encode(es)|] == Encode(es); |Encode(es)|
  }

  // For every buffering -------------------------------------------------------------------------

  lemma ShiftedMisread(es: seq<Event>, n: nat, p: nat)
    requires n <= |es|
    ensures MisreadAt(es[n..], p) == MisreadAt(es, n + p)
  {
    assert p + 4 <= |es[n..]| ==> es[n..][p..p + 4] == es[n + p..n + p + 4];
  }

  lemma SuffixUnambiguous(es: seq<Event>, n: nat)
    requires Unambiguous(es) && n <= |es|
    ensures Unambiguous(es[n..])
  {
    forall p: nat | p < |es| - n
      ensures !MisreadAt(es[n..], p)
    {
      ShiftedMisread(es, n, p);
    }
  }

  /** The terminal is right when the first m bytes were buffered with the handshake. */
  ghost predicate RightAfter(es: seq<Event>, k: nat, m: nat)
    requires m <= k <= |Encode(es)|
  {
    Bytes(Encode(es)[..k][..m]) + Demux(Encode(es)[..k][m..]) == Shown(es, k)
  }

  lemma RightAfterExact(es: seq<Event>, k: nat, m: nat)
    requires m <= k <= |Encode(es)|
    ensures RightAfter(es, k, m) <==> Readable(Sent(es, k), m)
  {
    var s := Encode(es)[..k];
    assert s[..m] + s[m..] == s;
    SessionExact(es, k, s[..m], s[m..]);
  }

  /** Before anything is sent: the terminal will be right however many bytes, up to n, get buffered with
      the handshake, exactly when what is sent is unambiguous and begins with that much data. */
  lemma AnyBufferingExact(es: seq<Event>, k: nat, n: nat)
    requires n <= k <= |Encode(es)|
    ensures (forall m: nat | m <= n :: RightAfter(es, k, m))
       <==> Unambiguous(Sent(es, k)) && n <= |Sent(es, k)| && forall i :: 0 <= i < n ==> Sent(es, k)[i].Data?
  {
    var sent := Sent(es, k);
    RightAfterExact(es, k, 0);
    RightAfterExact(es, k, n);
    assert sent[0..] == sent;
    if Unambiguous(sent) && n <= |sent| && forall i :: 0 <= i < n ==> sent[i].Data? {
      forall m: nat | m <= n
        ensures RightAfter(es, k, m)
      {
        SuffixUnambiguous(sent, m);
        RightAfterExact(es, k, m);
      }
    } else {
      assert !RightAfter(es, k, 0) || !RightAfter(es, k, n);
    }
  }

  // Client and guest ----------------------------------------------------------------------------

  /** What the guest starts for the first line of a handshake, however it is buffered. */
  lemma LaunchExact(decode: seq<Byte> -> string, user: string, cols: U16, rows: U16, cmd: seq<string>,
                    first: seq<Byte>, line: seq<Byte>, body: seq<Byte>, body': seq<Byte>)
    requires IsWord(user)
    requires IsLine(first) && decode(first) == FirstLine(PrintHandshake(user, cols, rows, cmd) + "\n")
    requires IsLine(line) && line + body == first + body'
    ensures line == first && body == body'
    ensures var l := LaunchFor(ParseHandshake(decode(line)));
      var words := Fields(FirstLine(Join(cmd) + "\n"));
      && l.argv == ["su", "-s", "/bin/sh", "-", user] + (if words == [] then [] else ["-c", Join(words)])
      && l.cols == cols && l.rows == rows
  {
    LineUnique(line, body, first, body');
    CommandReceived(user, cols, rows, cmd, "");
    assert PrintHandshake(user, cols, rows, cmd) + "\n" + "" == PrintHandshake(user, cols, rows, cmd) + "\n";
    assert Join(cmd) + "\n" + "" == Join(cmd) + "\n";
    LaunchRight(decode(line));
    var l := LaunchFor(ParseHandshake(decode(line)));
    assert l.argv == l.argv[..5] + l.argv[5..];
  }

  /** The shell is given the client's arguments, joined, exactly when they are not blank and their only
      white space is single blanks; otherwise spacing is lost, or all after a newline, or the command
      altogether. */
  lemma ArgvExact(cmd: seq<string>)
    ensures var words := Fields(FirstLine(Join(cmd) + "\n"));
      words != [] && Join(words) == Join(cmd) <==> Join(cmd) != "" && SingleSpaced(Join(cmd))
  {
    var words := Fields(FirstLine(Join(cmd) + "\n"));
    CommandExact(cmd, "");
    assert Join(cmd) + "\n" + "" == Join(cmd) + "\n";
    FieldsAreWords([], FirstLine(Join(cmd) + "\n"));
    JoinIsSingleSpaced(words);
  }

  /** The bytes after the handshake's first line, as events: what is left of the arguments is data. */
  lemma TypedAhead(extra: seq<Byte>, es: seq<Event>, k: nat)
    requires k <= |Encode(es)|
    ensures |extra| + k <= |Encode(Bytes(extra) + es)|
    ensures Encode(Bytes(extra) + es)[..|extra| + k] == extra + Encode(es)[..k]
  {
    EncodeConcat(Bytes(extra), es);
    EncodeBytes(extra);
  }

  /** The client's side: the handshake, a line and, when an argument has a newline, what comes after it;
      then the turns of the copy loop, as far as the connection takes them. */
  method SendSession(first: seq<Byte>, extra: seq<Byte>, turns: seq<Turn>, room: nat) returns (stream: seq<Byte>)
    ensures stream == first + (extra + Prefix(Encode(Transcript(turns)), room))
  {
    var dst := new Conn(|first + extra| + room);
    var failed := dst.Write(first + extra);
    assert dst.sent == first + extra && dst.room == room;
    CopyStdinWithResize(dst, turns);
    Assoc(first, extra, Prefix(Encode(Transcript(turns)), room));
    return dst.sent;
  }

  lemma LineHasNewline(first: seq<Byte>, rest: seq<Byte>)
    requires IsLine(first)
    ensures NEWLINE in first + rest
  {
    assert (first + rest)[|first| - 1] == NEWLINE;
  }

  /** Of the events in es, k bytes were read, raw in the line buffer and rest after it; the terminal's log
      is what was sent exactly when that is readable and no resize was lost to a late error. */
  ghost predicate Logs(log: seq<Event>, es: seq<Event>, k: nat, raw: seq<Byte>, rest: seq<Byte>, late: nat) {
    && k <= |Encode(es)| && raw + rest == Encode(es)[..k]
    && late <= |rest| && log == Bytes(raw) + Delivered(rest, late)
    && (log == Shown(es, k) <==> Readable(Sent(es, k), |raw|) && !LateLoss(rest, late))
  }

  lemma TerminalLogs(es: seq<Event>, k: nat, raw: seq<Byte>, rest: seq<Byte>, late: nat)
    requires k <= |Encode(es)| && raw + rest == Encode(es)[..k]
    requires late <= |rest| && LateFits(rest, late)
    ensures Logs(Bytes(raw) + Delivered(rest, late), es, k, raw, rest, late)
  {
    TerminalExact(es, k, raw, rest, late);
  }

  /** All that the guest reads after the handshake's first line. */
  lemma BodyExact(extra: seq<Byte>, turns: seq<Event>, room: nat, es: seq<Event>, k: nat,
                  raw: seq<Byte>, rest: seq<Byte>, late: nat)
    requires es == Bytes(extra) + turns && k == |extra| + Sendable(turns, room)
    requires raw + rest == extra + Prefix(Encode(turns), room)
    requires late <= |rest| && LateFits(rest, late)
    ensures Logs(Bytes(raw) + Delivered(rest, late), es, k, raw, rest, late)
  {
    TypedAhead(extra, turns, Sendable(turns, room));
    TerminalLogs(es, k, raw, rest, late);
  }

  /** A whole session, client and guest; the guest reads the stream in pieces of its choosing. The process
      runs the words of the first line, and the terminal gets what follows it and what the turns say, as
      far as the connection took it, exactly when that can be read and no resize was lost to a late
      error. */
  method RunSession(user: string, cols: U16, rows: U16, cmd: seq<string>, first: seq<Byte>, extra: seq<Byte>,
                    decode: seq<Byte> -> string, turns: seq<Turn>, room: nat, idle: nat)
    returns (launched: Option<Launch>, log: seq<Event>, ghost es: seq<Event>, ghost k: nat,
             ghost raw: seq<Byte>, ghost rest: seq<Byte>, ghost late: nat)
    requires IsWord(user)
    requires IsLine(first) && decode(first) == FirstLine(PrintHandshake(user, cols, rows, cmd) + "\n")
    ensures launched.None? ==> idle >= EMPTY_READS && log == []
    ensures launched.Some? ==>
      var words := Fields(FirstLine(Join(cmd) + "\n"));
      && launched.value.argv
         == ["su", "-s", "/bin/sh", "-", user] + (if words == [] then [] else ["-c", Join(words)])
      && launched.value.cols == cols && launched.value.rows == rows
    ensures es == Bytes(extra) + Transcript(turns) && k == |extra| + Sendable(Transcript(turns), room)
    ensures launched.Some? ==> Logs(log, es, k, raw, rest, late)
  {
    es, k := Bytes(extra) + Transcript(turns), |extra| + Sendable(Transcript(turns), room);
    var stream := SendSession(first, extra, turns, room);
    ghost var body := extra + Prefix(Encode(Transcript(turns)), room);
    LineHasNewline(first, body);
    var src := new Source(stream, idle);
    var ptmx := new Pty();
    ghost var line;
    launched, line, raw, rest := HandleExecSession(src, ptmx, decode, true);
    log, late := ptmx.log, src.late;
    if launched.Some? {
      Assoc(line, raw, rest);
      LaunchExact(decode, user, cols, rows, cmd, first, line, raw + rest, body);
      BodyExact(extra, Transcript(turns), room, es, k, raw, rest, late);
      assert [] + Bytes(raw) == Bytes(raw);
    }
  }
}

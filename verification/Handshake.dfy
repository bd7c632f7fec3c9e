/** The first line of an exec session, "<user> <cols> <rows> [cmd [args...]]": the client prints it,
    the guest parses it. Strings are sequences of Unicode characters. */
module Handshake {
  import opened Options
  import opened Stream

  /** The characters the standard library counts as white space. */
  predicate IsSpace(c: char) {
    var u := c as int;
    || 9 <= u <= 13 || u == 32 || u == 0x85 || u == 0xA0 || u == 0x1680
    || 0x2000 <= u <= 0x200A || u == 0x2028 || u == 0x2029 || u == 0x202F || u == 0x205F || u == 0x3000
  }

  predicate IsWord(w: string) {
    w != [] && forall i :: 0 <= i < |w| ==> !IsSpace(w[i])
  }

  predicate AllWords(ws: seq<string>) {
    forall i :: 0 <= i < |ws| ==> IsWord(ws[i])
  }

  /** Splits around runs of white space; word holds the characters since the last of them. */
  function FieldsFrom(word: string, s: string): seq<string>
    decreases |s|
  {
    var done := if word == [] then [] else [word];
    if s == [] then done
    else if IsSpace(s[0]) then done + FieldsFrom([], s[1..])
    else FieldsFrom(word + [s[0]], s[1..])
  }

  function Fields(s: string): seq<string> {
    FieldsFrom([], s)
  }

  function TrimLeft(s: string): string {
    if s != [] && IsSpace(s[0]) then TrimLeft(s[1..]) else s
  }

  function TrimRight(s: string): string {
    if s != [] && IsSpace(s[|s| - 1]) then TrimRight(s[..|s| - 1]) else s
  }

  function TrimSpace(s: string): string {
    TrimRight(TrimLeft(s))
  }

  function Join(ws: seq<string>): string {
    if ws == [] then "" else if |ws| == 1 then ws[0] else ws[0] + (" " + Join(ws[1..]))
  }

  predicate IsDigit(c: char) {
    '0' <= c <= '9'
  }

  /** The number a string of decimal digits denotes. */
  function DecimalValue(s: string): nat
    requires forall i :: 0 <= i < |s| ==> IsDigit(s[i])
  {
    if s == [] then 0
    else
      assert IsDigit(s[|s| - 1]);
      DecimalValue(s[..|s| - 1]) * 10 + (s[|s| - 1] as int - '0' as int)
  }

  function Decimal(n: nat): (s: string)
    ensures s != [] && forall i :: 0 <= i < |s| ==> IsDigit(s[i])
    ensures DecimalValue(s) == n
  {
    var last := [(n % 10) as char + '0'];
    if n < 10 then last else Decimal(n / 10) + last
  }

  /** An unsigned decimal number that fits 16 bits; anything else is an error. */
  function ParseU16(s: string): (o: Option<U16>)
    ensures s == [] || (exists i :: 0 <= i < |s| && !('0' <= s[i] <= '9')) ==> o == None
  {
    if s != [] && (forall i :: 0 <= i < |s| ==> IsDigit(s[i])) && DecimalValue(s) < 65536
    then Some(DecimalValue(s))
    else None
  }

  datatype Hello = Hello(user: string, cols: U16, rows: U16, cmd: seq<string>)

  function OrElse(o: Option<U16>, default: U16): U16 {
    match o case Some(v) => v case None => default
  }

  function ParseHandshake(line: string): Hello {
    var fields := Fields(TrimSpace(line));
    if fields == [] then Hello("root", 80, 24, [])
    else if |fields| >= 3 then
      Hello(fields[0], OrElse(ParseU16(fields[1]), 80), OrElse(ParseU16(fields[2]), 24), fields[3..])
    else Hello(fields[0], 80, 24, [])
  }

  function PrintHandshake(user: string, cols: nat, rows: nat, cmd: seq<string>): string {
    user + (" " + (Decimal(cols) + (" " + (Decimal(rows) + CommandPart(cmd)))))
  }

  function CommandPart(cmd: seq<string>): string {
    if |cmd| > 0 then " " + Join(cmd) else ""
  }

  /** Everything up to and including the first newline. */
  function FirstLine(s: string): string {
    if s == [] then [] else if s[0] == '\n' then [s[0]] else [s[0]] + FirstLine(s[1..])
  }

  // Numbers, lines and fields, each by itself ---------------------------------------------------

  /** Numbers are decimal, with the most significant digit first. */
  lemma DecimalNotation(s: string, c: char)
    requires forall i :: 0 <= i < |s| ==> '0' <= s[i] <= '9'
    requires '0' <= c <= '9'
    ensures DecimalValue([]) == 0
    ensures DecimalValue(s + [c]) == 10 * DecimalValue(s) + (c as int - '0' as int)
  {
    assert (s + [c])[..|s|] == s;
  }

  /** A size is read when it is a number that fits, and only then. */
  lemma SizeExact(s: string)
    ensures ParseU16(s).Some? <==>
      s != "" && (forall i :: 0 <= i < |s| ==> '0' <= s[i] <= '9') && DecimalValue(s) < 65536
    ensures ParseU16(s).Some? ==> ParseU16(s).value == DecimalValue(s)
  {}

  /** What a line means, by its fields. With less than three there is no size and no command; a size
      that cannot be read is replaced by itself. */
  lemma ParsedByFields(line: string)
    ensures var f, h := Fields(line), ParseHandshake(line);
      && (|f| == 0 ==> h == Hello("root", 80, 24, []))
      && (|f| == 1 || |f| == 2 ==> h == Hello(f[0], 80, 24, []))
      && (|f| >= 3 ==>
            && h.user == f[0] && h.cmd == f[3..]
            && (if ParseU16(f[1]).Some? then h.cols == DecimalValue(f[1]) else h.cols == 80)
            && (if ParseU16(f[2]).Some? then h.rows == DecimalValue(f[2]) else h.rows == 24))
  {
    FieldsTrim(line);
  }

  /** The line that is printed. */
  lemma PrintedLine(user: string, cols: nat, rows: nat, cmd: seq<string>)
    ensures PrintHandshake(user, cols, rows, cmd)
         == user + " " + Decimal(cols) + " " + Decimal(rows) + (if cmd == [] then "" else " " + Join(cmd))
  {
    FrontThen(user, Decimal(cols), Decimal(rows), CommandPart(cmd));
    assert Front(user, Decimal(cols), Decimal(rows)) == user + " " + Decimal(cols) + " " + Decimal(rows);
  }

  /** A string is joined from its words with one blank between each two. */
  lemma JoinedWords(ws: seq<string>, w: string)
    ensures Join([]) == "" && Join([w]) == w
    ensures ws != [] ==> Join([w] + ws) == w + " " + Join(ws)
  {
    if ws != [] {
      JoinFirst(w, ws);
      assert w + (" " + Join(ws)) == w + " " + Join(ws);
    }
  }

  /** White space: tab, newline, vertical tab, form feed, return and blank in ASCII, and no other
      characters than these beyond. */
  lemma SpaceExactly(c: char)
    ensures IsSpace(c) <==> c as int in {9, 10, 11, 12, 13, 32, 0x85, 0xA0, 0x1680, 0x2000, 0x2001, 0x2002, 0x2003,
      0x2004, 0x2005, 0x2006, 0x2007, 0x2008, 0x2009, 0x200A, 0x2028, 0x2029, 0x202F, 0x205F, 0x3000}
  {}

  lemma {:induction false} NoLeadingZero(n: nat)
    ensures Decimal(n)[0] == '0' ==> Decimal(n) == "0" && n == 0
  {
    if n >= 10 { NoLeadingZero(n / 10); }
  }

  /** Everything up to and including the first newline, or all when there is none. */
  lemma {:induction false} FirstLineExact(s: string)
    ensures var l := FirstLine(s);
      && l <= s && (l != s ==> l != [] && l[|l| - 1] == '\n')
      && forall i :: 0 <= i < |l| - 1 ==> l[i] != '\n'
  {
    if s != [] && s[0] != '\n' { FirstLineExact(s[1..]); }
  }

  // Splitting ----------------------------------------------------------------------------------

  lemma {:induction false} FieldsAreWords(word: string, s: string)
    requires word == [] || IsWord(word)
    ensures AllWords(FieldsFrom(word, s))
    decreases |s|
  {
    if s != [] { FieldsAreWords(if IsSpace(s[0]) then [] else word + [s[0]], s[1..]); }
  }

  lemma ParsedAreWords(line: string)
    ensures IsWord(ParseHandshake(line).user) && AllWords(ParseHandshake(line).cmd)
  {
    FieldsAreWords([], TrimSpace(line));
  }

  /** White space separates: what comes before and after it is split independently. */
  lemma {:induction false} FieldsAround(word: string, s: string, c: char, rest: string)
    requires IsSpace(c)
    ensures FieldsFrom(word, s + ([c] + rest)) == FieldsFrom(word, s) + Fields(rest)
    decreases |s|
  {
    var t := s + ([c] + rest);
    if s == [] {
      assert t == [c] + rest && t[1..] == rest;
    } else {
      assert t[0] == s[0] && t[1..] == s[1..] + ([c] + rest);
      FieldsAround(if IsSpace(s[0]) then [] else word + [s[0]], s[1..], c, rest);
    }
  }

  lemma {:induction false} FieldsOfWord(word: string, w: string)
    requires IsWord(word + w) && (word == [] || IsWord(word))
    ensures FieldsFrom(word, w) == [word + w]
    decreases |w|
  {
    if w == [] {
      assert word + w == word;
    } else {
      assert (word + w)[|word|] == w[0];
      var grown := word + [w[0]];
      assert grown + w[1..] == word + w;
      assert forall i :: 0 <= i < |grown| ==> grown[i] == (word + w)[i];
      FieldsOfWord(grown, w[1..]);
    }
  }

  lemma FieldsOfFirst(w: string, rest: string)
    requires IsWord(w)
    ensures Fields(w + (" " + rest)) == [w] + Fields(rest)
  {
    FieldsAround([], w, ' ', rest);
    assert [] + w == w;
    FieldsOfWord([], w);
  }

  lemma {:induction false} FieldsTrimLeft(s: string)
    ensures Fields(TrimLeft(s)) == Fields(s)
  {
    if s != [] && IsSpace(s[0]) { FieldsTrimLeft(s[1..]); }
  }

  lemma {:induction false} FieldsTrimRight(s: string)
    ensures Fields(TrimRight(s)) == Fields(s)
  {
    if s != [] && IsSpace(s[|s| - 1]) {
      var t := s[..|s| - 1];
      FieldsTrimRight(t);
      FieldsAround([], t, s[|s| - 1], []);
      assert s == t + ([s[|s| - 1]] + []);
    }
  }

  lemma FieldsTrim(s: string)
    ensures Fields(TrimSpace(s)) == Fields(s)
  {
    FieldsTrimLeft(s);
    FieldsTrimRight(TrimLeft(s));
  }

  lemma {:induction false} FieldsOfJoin(ws: seq<string>)
    requires AllWords(ws)
    ensures Fields(Join(ws)) == ws
  {
    if |ws| == 1 {
      assert [] + ws[0] == ws[0];
      FieldsOfWord([], ws[0]);
    } else if ws != [] {
      FieldsOfJoin(ws[1..]);
      FieldsOfFirst(ws[0], Join(ws[1..]));
    }
  }

  /** Splitting loses only the spacing: joining and splitting again changes nothing. */
  lemma FieldsNormal(s: string)
    ensures Fields(Join(Fields(s))) == Fields(s)
  {
    FieldsAreWords([], s);
    FieldsOfJoin(Fields(s));
  }

  // The handshake ------------------------------------------------------------------------------

  lemma {:induction false} FirstLineOf(s: string, rest: string)
    requires '\n' !in s
    ensures FirstLine(s + "\n" + rest) == s + "\n"
  {
    if s != [] {
      FirstLineOf(s[1..], rest);
      assert (s + "\n" + rest)[1..] == s[1..] + "\n" + rest;
    }
  }

  lemma {:induction false} JoinHasNoNewline(ws: seq<string>)
    requires forall i :: 0 <= i < |ws| ==> '\n' !in ws[i]
    ensures '\n' !in Join(ws)
  {
    if |ws| > 1 { JoinHasNoNewline(ws[1..]); }
  }

  lemma DigitsAreWord(n: nat)
    ensures IsWord(Decimal(n)) && '\n' !in Decimal(n)
  {}

  lemma FieldsOfThree(user: string, c: string, r: string, part: string)
    requires IsWord(user) && IsWord(c)
    ensures Fields(user + (" " + (c + (" " + (r + part))))) == [user, c] + Fields(r + part)
  {
    FieldsOfFirst(user, c + (" " + (r + part)));
    FieldsOfFirst(c, r + part);
  }

  lemma FieldsOfLine(line: string)
    ensures Fields(line + "\n") == Fields(line)
  {
    FieldsAround([], line, '\n', []);
    assert line + "\n" == line + (['\n'] + []);
  }

  lemma {:induction false} FirstLineAfter(s: string, rest: string)
    requires '\n' !in s
    ensures FirstLine(s + rest) == s + FirstLine(rest)
  {
    if s == [] {
      assert s + rest == rest;
    } else {
      FirstLineAfter(s[1..], rest);
      assert (s + rest)[1..] == s[1..] + rest;
    }
  }

  /** What comes before the command. */
  function Front(user: string, c: string, r: string): string {
    user + (" " + (c + (" " + r)))
  }

  lemma FrontThen(user: string, c: string, r: string, x: string)
    ensures Front(user, c, r) + x == user + (" " + (c + (" " + (r + x))))
  {}

  lemma PrintedForm(user: string, cols: nat, rows: nat, cmd: seq<string>, rest: string)
    ensures PrintHandshake(user, cols, rows, cmd) + "\n" + rest
         == Front(user, Decimal(cols), Decimal(rows)) + (CommandPart(cmd) + "\n" + rest)
  {
    var front := Front(user, Decimal(cols), Decimal(rows));
    FrontThen(user, Decimal(cols), Decimal(rows), CommandPart(cmd));
    assert front + CommandPart(cmd) + "\n" + rest == front + (CommandPart(cmd) + "\n" + rest);
  }

  lemma FrontHasNoNewline(user: string, cols: nat, rows: nat)
    requires IsWord(user)
    ensures '\n' !in Front(user, Decimal(cols), Decimal(rows))
  {
    DigitsAreWord(cols);
    DigitsAreWord(rows);
  }

  /** The fields of the first line of a printed handshake; arguments may contain newlines. */
  lemma FieldsOfFirstLine(user: string, cols: nat, rows: nat, cmd: seq<string>, rest: string)
    requires IsWord(user)
    ensures Fields(FirstLine(PrintHandshake(user, cols, rows, cmd) + "\n" + rest))
         == [user, Decimal(cols), Decimal(rows)] + Fields(FirstLine(Join(cmd) + "\n" + rest))
  {
    var c, r := Decimal(cols), Decimal(rows);
    var tail := CommandPart(cmd) + "\n" + rest;
    DigitsAreWord(cols);
    DigitsAreWord(rows);
    PrintedForm(user, cols, rows, cmd, rest);
    FrontHasNoNewline(user, cols, rows);
    FirstLineAfter(Front(user, c, r), tail);
    FrontThen(user, c, r, FirstLine(tail));
    FieldsOfThree(user, c, r, FirstLine(tail));
    FieldsOfEnd(r, cmd, rest);
  }

  lemma FieldsOfEnd(r: string, cmd: seq<string>, rest: string)
    requires IsWord(r)
    ensures Fields(r + FirstLine(CommandPart(cmd) + "\n" + rest)) == [r] + Fields(FirstLine(Join(cmd) + "\n" + rest))
  {
    var line := FirstLine(Join(cmd) + "\n" + rest);
    if |cmd| > 0 {
      assert CommandPart(cmd) + "\n" + rest == " " + (Join(cmd) + "\n" + rest);
      FirstLineAfter(" ", Join(cmd) + "\n" + rest);
      FieldsOfFirst(r, line);
    } else {
      assert CommandPart(cmd) + "\n" + rest == "\n" + rest == Join(cmd) + "\n" + rest;
      assert line == "\n";
      FieldsOfLine(r);
      FieldsOfLine("");
      assert "" + "\n" == "\n";
      FieldsOfWord([], r);
      assert [] + r == r;
    }
  }

  /** What the guest runs, whatever the arguments: the words of their first line. */
  lemma CommandReceived(user: string, cols: U16, rows: U16, cmd: seq<string>, rest: string)
    requires IsWord(user)
    ensures ParseHandshake(FirstLine(PrintHandshake(user, cols, rows, cmd) + "\n" + rest))
         == Hello(user, cols, rows, Fields(FirstLine(Join(cmd) + "\n" + rest)))
  {
    var line := FirstLine(PrintHandshake(user, cols, rows, cmd) + "\n" + rest);
    var words := Fields(FirstLine(Join(cmd) + "\n" + rest));
    DigitsAreWord(cols);
    DigitsAreWord(rows);
    FieldsOfFirstLine(user, cols, rows, cmd, rest);
    FieldsTrim(line);
    var fields := [user, Decimal(cols), Decimal(rows)] + words;
    assert fields[3..] == words;
  }

  /** The words of one line of arguments. */
  lemma WordsOfLine(cmd: seq<string>, rest: string)
    requires '\n' !in Join(cmd)
    ensures Fields(FirstLine(Join(cmd) + "\n" + rest)) == Fields(Join(cmd))
  {
    FirstLineOf(Join(cmd), rest);
    FieldsOfLine(Join(cmd));
  }

  /** The handshake arrives as it was sent exactly when every part is a word and the size fits. */
  lemma HandshakeExact(user: string, cols: nat, rows: nat, cmd: seq<string>, rest: string)
    ensures
      (var h := ParseHandshake(FirstLine(PrintHandshake(user, cols, rows, cmd) + "\n" + rest));
        h.user == user && h.cols == cols && h.rows == rows && h.cmd == cmd)
      <==> IsWord(user) && cols < 65536 && rows < 65536 && AllWords(cmd)
  {
    ParsedAreWords(FirstLine(PrintHandshake(user, cols, rows, cmd) + "\n" + rest));
    if IsWord(user) && cols < 65536 && rows < 65536 && AllWords(cmd) {
      CommandReceived(user, cols, rows, cmd, rest);
      JoinHasNoNewline(cmd);
      WordsOfLine(cmd, rest);
      FieldsOfJoin(cmd);
    }
  }

  // Spacing ------------------------------------------------------------------------------------

  /** The only white space is single blanks between words. */
  predicate SingleSpaced(s: string) {
    forall i :: 0 <= i < |s| && IsSpace(s[i]) ==> s[i] == ' ' && 0 < i < |s| - 1 && !IsSpace(s[i + 1])
  }

  lemma {:induction false} JoinIsSingleSpaced(ws: seq<string>)
    requires AllWords(ws)
    ensures SingleSpaced(Join(ws)) && (ws != [] ==> Join(ws) != [] && !IsSpace(Join(ws)[0]))
  {
    if |ws| > 1 {
      var rest := Join(ws[1..]);
      JoinIsSingleSpaced(ws[1..]);
      var s, n := ws[0] + (" " + rest), |ws[0]|;
      assert Join(ws) == s;
      forall i | 0 <= i < |s| && IsSpace(s[i])
        ensures s[i] == ' ' && 0 < i < |s| - 1 && !IsSpace(s[i + 1])
      {
        if i > n { assert s[i] == rest[i - n - 1]; }
        assert s[n + 1] == rest[0];
      }
    }
  }

  /** Single blanks between words, and perhaps one before the first. */
  predicate SpacedOnward(s: string) {
    forall i :: 0 <= i < |s| && IsSpace(s[i]) ==> s[i] == ' ' && i < |s| - 1 && !IsSpace(s[i + 1])
  }

  lemma SpacedTail(s: string)
    requires SpacedOnward(s) && s != []
    ensures SpacedOnward(s[1..])
    ensures IsSpace(s[0]) ==> s == " " + s[1..] && s[1..] != [] && !IsSpace(s[1..][0])
  {}

  lemma JoinFirst(word: string, ws: seq<string>)
    requires ws != []
    ensures Join([word] + ws) == word + (" " + Join(ws))
  {
    assert ([word] + ws)[1..] == ws;
  }

  lemma Shift(word: string, s: string)
    requires s != []
    ensures word + [s[0]] + s[1..] == word + s
  {}

  lemma {:induction false} JoinOfFields(word: string, s: string)
    requires SpacedOnward(s) && (s != [] && IsSpace(s[0]) ==> word != [])
    ensures Join(FieldsFrom(word, s)) == word + s
    decreases |s|
  {
    if s == [] {
      assert word + s == word;
    } else {
      SpacedTail(s);
      Shift(word, s);
      if IsSpace(s[0]) {
        JoinOfFields([], s[1..]);
        assert [] + s[1..] == s[1..];
        JoinFirst(word, FieldsFrom([], s[1..]));
      } else {
        JoinOfFields(word + [s[0]], s[1..]);
      }
    }
  }

  /** Joining the words gives the string back exactly when it is single-spaced. */
  lemma SpacingExact(s: string)
    ensures Join(Fields(s)) == s <==> SingleSpaced(s)
  {
    if SingleSpaced(s) {
      JoinOfFields([], s);
      assert [] + s == s;
    } else {
      FieldsAreWords([], s);
      JoinIsSingleSpaced(Fields(s));
    }
  }

  /** The words of the first line, joined, are the arguments, joined, exactly when these are
      single-spaced. */
  lemma CommandExact(cmd: seq<string>, rest: string)
    ensures Join(Fields(FirstLine(Join(cmd) + "\n" + rest))) == Join(cmd) <==> SingleSpaced(Join(cmd))
  {
    var words := Fields(FirstLine(Join(cmd) + "\n" + rest));
    FieldsAreWords([], FirstLine(Join(cmd) + "\n" + rest));
    JoinIsSingleSpaced(words);
    if SingleSpaced(Join(cmd)) {
      WordsOfLine(cmd, rest);
      SpacingExact(Join(cmd));
    }
  }
}

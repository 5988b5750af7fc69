/** Cutting a byte stream into messages: readInput (server.c) and its twin
    readProtocolInput (client.c). */
module Framing {
  import opened Sequences
  import opened Text

  /** The scan reads at most this many bytes, terminated or not. */
  const FRAME_LIMIT := MAX_INPUT - 2

  /** A message the scanner hands over whole: closed by its only terminator and short enough. */
  ghost predicate IsFrame(f: string) {
    Terminated(f) && EndsOnce(f) && |f| <= FRAME_LIMIT
  }

  /** After n bytes the scanner reads no further: end of input, full buffer, or terminator. */
  predicate StopsAfter(s: string, n: nat)
    requires n <= |s|
  {
    n == |s| || n == FRAME_LIMIT || (n >= 4 && TerminatorAt(s, n - 4))
  }

  function Scan(s: string, n: nat): (r: nat)
    requires n <= |s| && n <= FRAME_LIMIT
    ensures n <= r <= |s| && r <= FRAME_LIMIT && StopsAfter(s, r)
    ensures forall m | n <= m < r :: !StopsAfter(s, m)
    decreases |s| - n
  {
    if StopsAfter(s, n) then n else Scan(s, n + 1)
  }

  /** The first message of a stream whose remaining bytes are s. */
  function NextFrame(s: string): (f: string)
    ensures f <= s
    ensures s != "" ==> f != ""
  {
    s[..Scan(s, 0)]
  }

  /** Every message read from s until the stream is exhausted. */
  function ReadAll(s: string): seq<string>
    decreases |s|
  {
    if s == "" then [] else [NextFrame(s)] + ReadAll(s[|NextFrame(s)|..])
  }

  function Concat(fs: seq<string>): string {
    if fs == [] then "" else fs[0] + Concat(fs[1..])
  }

  lemma ScanIs(s: string, n: nat)
    requires n <= |s| && n <= FRAME_LIMIT && StopsAfter(s, n)
    requires forall m: nat | m < n :: !StopsAfter(s, m)
    ensures Scan(s, 0) == n
  {
    var r := Scan(s, 0);
    assert !(r < n) && !(n < r);
  }

  /** A closed message is what the scanner returns exactly when it fits the buffer, whatever follows it. */
  lemma NextFrameExact(f: string, rest: string)
    requires Terminated(f) && EndsOnce(f)
    ensures NextFrame(f + rest) == f <==> |f| <= FRAME_LIMIT
  {
    var s := f + rest;
    if |f| <= FRAME_LIMIT {
      assert TerminatorAt(s, |f| - 4);
      forall m: nat | m < |f| ensures !StopsAfter(s, m) {
        if m >= 4 {
          assert !TerminatorAt(f, m - 4);
        }
      }
      ScanIs(s, |f|);
    }
  }

  lemma FirstFrame(f: string, rest: string)
    requires IsFrame(f)
    ensures ReadAll(f + rest) == [f] + ReadAll(rest)
  {
    NextFrameExact(f, rest);
    assert (f + rest)[|f|..] == rest;
  }

  /** Messages come back one by one, in order; what follows them is read as if it stood alone. */
  lemma {:induction false} FramesRoundTrip(fs: seq<string>, tail: string)
    requires forall f <- fs :: IsFrame(f)
    ensures ReadAll(Concat(fs) + tail) == fs + ReadAll(tail)
  {
    if fs == [] {
      assert Concat(fs) + tail == tail;
    } else {
      var rest := Concat(fs[1..]) + tail;
      assert fs[0] in fs;
      FramesRoundTrip(fs[1..], tail);
      FirstFrame(fs[0], rest);
      Concatenated(fs[0], Concat(fs[1..]), tail);
      Concatenated([fs[0]], fs[1..], ReadAll(tail));
      assert fs == [fs[0]] + fs[1..];
    }
  }

  /** Where a message ends: at the first place where the stream is exhausted, the buffer full, or
      the last four characters are the terminator; and the message is all up to there. */
  lemma NextFrameIs(s: string, n: nat)
    requires n <= |s| && n <= MAX_INPUT - 2
    requires n == |s| || n == MAX_INPUT - 2 || (n >= 4 && TerminatorAt(s, n - 4))
    requires forall i: nat | i + 4 < n :: !TerminatorAt(s, i)
    ensures NextFrame(s) == s[..n]
  {
    forall m: nat | m < n ensures !StopsAfter(s, m) {
      if m >= 4 {
        assert !TerminatorAt(s, m - 4);
      }
    }
    ScanIs(s, n);
  }

  /** Input that ends early is returned as it stands, and nothing is returned as empty before the end. */
  lemma PartialFrame(s: string)
    requires Unterminated(s) && |s| <= FRAME_LIMIT
    ensures NextFrame(s) == s
  {
    forall m: nat | m < |s| ensures !StopsAfter(s, m) {
      if m >= 4 {
        assert !TerminatorAt(s, m - 4);
      }
    }
    ScanIs(s, |s|);
  }

  /** Reading loses no byte and invents none. */
  lemma {:induction false} ReadAllKeepsBytes(s: string)
    ensures Concat(ReadAll(s)) == s
    ensures "" !in ReadAll(s)
    decreases |s|
  {
    if s != "" {
      ReadAllKeepsBytes(s[|NextFrame(s)|..]);
    }
  }

  /** Whatever the scanner returns holds at most one terminator, and only at its end. */
  lemma NextFrameEndsOnce(s: string)
    ensures EndsOnce(NextFrame(s)) && |NextFrame(s)| <= FRAME_LIMIT
  {
    var n := Scan(s, 0);
    forall i: nat | TerminatorAt(s[..n], i) ensures i + 4 == n {
      assert TerminatorAt(s, i);
      assert StopsAfter(s, i + 4);
    }
  }

  // ---------- the scanner itself ----------

  /** A connected descriptor: the bytes the peer has sent and nobody has read. */
  class Socket {
    var unread: string

    constructor (bytes: string)
      ensures unread == bytes
    {
      unread := bytes;
    }

    /** read(fd, buf + at, 1): 1 with a byte, 0 at end of input. */
    method ReadByte(buf: array<char>, at: nat) returns (rv: nat)
      requires at < buf.Length
      modifies this, buf
      ensures old(unread) == "" ==> rv == 0 && unread == "" && buf[..] == old(buf[..])
      ensures old(unread) != "" ==> rv == 1 && unread == old(unread)[1..] && buf[..] == old(buf[..])[at := old(unread)[0]]
    {
      if unread == "" {
        return 0;
      }
      buf[at] := unread[0];
      unread := unread[1..];
      rv := 1;
    }
  }

  lemma OneByteMore(buf: seq<char>, input: string, n: nat)
    requires n < |buf| && n < |input| && buf[..n] == input[..n]
    ensures buf[n := input[n]][..n + 1] == input[..n + 1]
  {
    assert buf[n := input[n]][..n + 1] == buf[..n] + [input[n]];
  }

  method ReadInput(cmd: array<char>, fd: Socket)
    requires cmd.Length == MAX_INPUT
    modifies cmd, fd
    ensures var f := NextFrame(old(fd.unread));
            |f| < MAX_INPUT && cmd[..|f|] == f && cmd[|f|] == '\0' && fd.unread == old(fd.unread)[|f|..]
  {
    forall i | 0 <= i < cmd.Length {
      cmd[i] := '\0';
    }
    ghost var input := fd.unread;
    ghost var got: nat := 0;
    var rv, count, cursor, finished := 1, 0, 0, false;
    while !finished && rv != 0 && count + 1 < MAX_INPUT - 1
      invariant 0 <= count == cursor <= FRAME_LIMIT
      invariant got <= |input| && fd.unread == input[got..]
      invariant got == if rv == 0 then cursor - 1 else cursor
      invariant rv == 0 ==> got == |input|
      invariant cmd[..got] == input[..got] && forall i | got <= i < cmd.Length :: cmd[i] == '\0'
      invariant forall m: nat | m < got :: !StopsAfter(input, m)
      invariant finished ==> rv != 0 && StopsAfter(input, got)
      invariant !finished && rv != 0 ==> got < 4 || !TerminatorAt(input, got - 4)
    {
      count := count + 1;
      ghost var before := cmd[..];
      rv := fd.ReadByte(cmd, cursor);
      if rv != 0 {
        OneByteMore(before, input, got);
        got := got + 1;
      }
      if cursor >= 3 && cmd[cursor - 3] == '\r' && cmd[cursor - 2] == '\n' && cmd[cursor - 1] == '\r' && cmd[cursor] == '\n' {
        finished := true;
      }
      cursor := cursor + 1;
    }
    ScanIs(input, got);
    cmd[cursor] := '\0';
  }

  // ---------- what a chat window sends ----------

  /** The chat process closes each line it sends to the client. */
  function ChatLine(text: string): string {
    text + " " + TERMINATION
  }

  /** The bytes handleChatInput writes to the server for a line read from a chat window. */
  function ChatInput(to: string, from: string, msg: string): string {
    "MSG " + to + " " + from + " " + msg + " " + TERMINATION
  }

  lemma ChatMessageShape(to: string, from: string, text: string)
    ensures "MSG " + to + " " + from + " " + ChatLine(text) == Spaced(["MSG", to, from, text]) + TERMINATION
    ensures " " + TERMINATION == Spaced([""]) + TERMINATION
  {
    assert Spaced([text]) == text + " ";
    assert [from, text][1..] == [text] && [to, from, text][1..] == [from, text];
    assert ["MSG", to, from, text][1..] == [to, from, text];
    var closing := ChatLine(text);
    assert closing == Spaced([text]) + TERMINATION;
    assert from + " " + closing == Spaced([from, text]) + TERMINATION;
    assert to + " " + (from + " " + closing) == Spaced([to, from, text]) + TERMINATION;
    assert "MSG" + " " + (to + " " + (from + " " + closing)) == "MSG " + to + " " + from + " " + closing;
  }

  lemma TwoFrames(f: string, g: string)
    requires IsFrame(f) && IsFrame(g)
    ensures ReadAll(f + g) == [f, g]
  {
    NextFrameExact(f, g);
    NextFrameExact(g, "");
    assert g + "" == g;
    assert (f + g)[|f|..] == g && g[|g|..] == "";
    assert ReadAll(g) == [g];
  }

  function ChatMessage(to: string, from: string, text: string): string {
    Spaced(["MSG", to, from, text]) + TERMINATION
  }

  /** One line typed in a chat window reaches the server as two messages, the MSG message and a
      bare terminator whose single token is no verb the server dispatches on, exactly when the
      former fits the buffer. */
  lemma ChatInputFrames(to: string, from: string, text: string)
    requires Unterminated(to) && Unterminated(from) && Unterminated(text)
    ensures ReadAll(ChatInput(to, from, ChatLine(text))) == [ChatMessage(to, from, text), Spaced([""]) + TERMINATION]
      <==> |ChatMessage(to, from, text)| <= FRAME_LIMIT
    ensures Tokens(ChatMessage(to, from, text)) == TokensEach(["MSG", to, from, text]) + [TERMINATION]
    ensures Tokens(Spaced([""]) + TERMINATION) == [TERMINATION]
  {
    var ws := ["MSG", to, from, text];
    var closing := Spaced([""]) + TERMINATION;
    ChatMessageShape(to, from, text);
    ClosedEndsOnce(ws);
    ClosedEndsOnce([""]);
    assert ChatInput(to, from, ChatLine(text)) == ChatMessage(to, from, text) + closing;
    FirstOfTwo(ChatMessage(to, from, text), closing);
    TokensOfSpaced(ws, TERMINATION);
    TokensOfSpaced([""], TERMINATION);
  }

  lemma FirstOfTwo(f: string, g: string)
    requires Terminated(f) && EndsOnce(f) && IsFrame(g)
    ensures ReadAll(f + g) == [f, g] <==> |f| <= FRAME_LIMIT
  {
    NextFrameExact(f, g);
    if |f| <= FRAME_LIMIT {
      TwoFrames(f, g);
    } else {
      assert ReadAll(f + g)[0] == NextFrame(f + g);
    }
  }
}

/** Strings as the server, the client and the shell use them: substring search
    (strstr), splitting on blanks (strtok with " "), and the message terminator. */
module Text {
  import opened Sequences


  /** The size of every string and message buffer. */
  const MAX_INPUT := 1024

  /** The four characters that end every WOLFIE message. */
  const TERMINATION := "\r\n\r\n"

  predicate OccursAt(s: string, p: string, i: nat) {
    i + |p| <= |s| && s[i..i + |p|] == p
  }

  /** strstr(s, p) != NULL */
  predicate Contains(s: string, p: string) {
    exists i | 0 <= i <= |s| :: OccursAt(s, p, i)
  }

  /** strchr(s + from, c): the first occurrence, or |s| for none. */
  function IndexOf(s: string, c: char, from: nat): (i: nat)
    requires from <= |s|
    ensures from <= i <= |s| && (i < |s| ==> s[i] == c)
    ensures forall j | from <= j < i :: s[j] != c
    decreases |s| - from
  {
    if from == |s| || s[from] == c then from else IndexOf(s, c, from + 1)
  }

  lemma IndexIs(s: string, c: char, from: nat, i: nat)
    requires from <= i <= |s| && (i < |s| ==> s[i] == c) && forall j | from <= j < i :: s[j] != c
    ensures IndexOf(s, c, from) == i
  {
    var k := IndexOf(s, c, from);
    assert !(k < i) && !(i < k);
  }

  /** A string strtok can return: not empty, no blank in it. */
  predicate IsWord(w: string) {
    w != "" && ' ' !in w
  }

  /** Length of the blank-free run s starts with. */
  function RunLength(s: string): (n: nat)
    ensures n <= |s| && ' ' !in s[..n]
    ensures n < |s| ==> s[n] == ' '
  {
    if s == "" || s[0] == ' ' then 0 else 1 + RunLength(s[1..])
  }

  /** What repeated strtok(_, " ") yields. */
  function Tokens(s: string): (ts: seq<string>)
    ensures forall t <- ts :: IsWord(t)
    decreases |s|
  {
    if s == "" then []
    else if s[0] == ' ' then Tokens(s[1..])
    else [s[..RunLength(s)]] + Tokens(s[RunLength(s)..])
  }

  /** Each word followed by one blank. */
  function Spaced(ws: seq<string>): string {
    if ws == [] then "" else ws[0] + " " + Spaced(ws[1..])
  }

  lemma {:induction false} RunLengthIs(s: string, n: nat)
    requires n <= |s| && ' ' !in s[..n]
    requires n < |s| ==> s[n] == ' '
    ensures RunLength(s) == n
    decreases n
  {
    if n > 0 {
      assert s[0] == s[..n][0] && s[1..][..n - 1] == s[..n][1..];
      RunLengthIs(s[1..], n - 1);
    }
  }

  lemma TokensOfWord(w: string)
    requires IsWord(w)
    ensures Tokens(w) == [w]
  {
    RunLengthIs(w, |w|);
    assert w[..|w|] == w && w[|w|..] == "";
  }

  /** A blank separates: what stands before it and what stands after it are tokenised apart. */
  lemma {:induction false} TokensSplit(a: string, b: string)
    ensures Tokens(a + " " + b) == Tokens(a) + Tokens(b)
    decreases |a|
  {
    var s := a + " " + b;
    if a == "" {
      assert s[0] == ' ' && s[1..] == b;
    } else if a[0] == ' ' {
      assert s[1..] == a[1..] + " " + b;
      TokensSplit(a[1..], b);
    } else {
      var n := RunLength(a);
      assert s[..n] == a[..n];
      RunLengthIs(s, n);
      assert s[n..] == a[n..] + " " + b;
      TokensSplit(a[n..], b);
    }
  }

  /** The tokens of each piece, in order. */
  function TokensEach(ws: seq<string>): seq<string> {
    if ws == [] then [] else Tokens(ws[0]) + TokensEach(ws[1..])
  }

  function TotalLength(ws: seq<string>): nat {
    if ws == [] then 0 else |ws[0]| + TotalLength(ws[1..])
  }

  /** Tokens and the blanks between them fit in the text. */
  lemma {:induction false} TokensLength(s: string)
    ensures TotalLength(Tokens(s)) + |Tokens(s)| <= |s| + 1
    ensures s != "" && s[0] == ' ' ==> TotalLength(Tokens(s)) + |Tokens(s)| <= |s|
    decreases |s|
  {
    if s != "" {
      TokensLength(s[if s[0] == ' ' then 1 else RunLength(s)..]);
    }
  }

  /** Tokenising undoes Spaced, whatever blanks the pieces hold themselves. */
  lemma {:induction false} TokensOfSpaced(ws: seq<string>, last: string)
    requires IsWord(last)
    ensures Tokens(Spaced(ws) + last) == TokensEach(ws) + [last]
  {
    if ws == [] {
      TokensOfWord(last);
      assert Spaced(ws) + last == last;
    } else {
      assert Spaced(ws) + last == ws[0] + " " + (Spaced(ws[1..]) + last);
      TokensSplit(ws[0], Spaced(ws[1..]) + last);
      TokensOfSpaced(ws[1..], last);
    }
  }

  lemma {:induction false} TokensEachOfWords(ws: seq<string>)
    requires forall i | 0 <= i < |ws| :: IsWord(ws[i])
    ensures TokensEach(ws) == ws
  {
    if ws != [] {
      TokensOfWord(ws[0]);
      TokensEachOfWords(ws[1..]);
    }
  }

  lemma DropThenTake(s: string, d: nat, p: nat, n: nat)
    requires d + p + n <= |s|
    ensures s[d..][p..p + n] == s[d + p..d + p + n]
  {
  }

  /** A token is found in the text, and every token but the last ends before the text does. */
  lemma {:induction false} TokenInside(s: string, k: nat) returns (o: nat)
    requires k < |Tokens(s)|
    ensures OccursAt(s, Tokens(s)[k], o)
    ensures k + 1 < |Tokens(s)| ==> o + |Tokens(s)[k]| < |s|
    decreases |s|
  {
    if s[0] == ' ' {
      var p := TokenInside(s[1..], k);
      o := 1 + p;
      DropThenTake(s, 1, p, |Tokens(s)[k]|);
    } else if k == 0 {
      o := 0;
    } else {
      var n := RunLength(s);
      var p := TokenInside(s[n..], k - 1);
      o := n + p;
      assert Tokens(s)[k] == Tokens(s[n..])[k - 1];
      DropThenTake(s, n, p, |Tokens(s)[k]|);
    }
  }

  // ---------- the terminator ----------

  predicate TerminatorAt(s: string, i: nat) {
    i + 4 <= |s| && s[i] == '\r' && s[i + 1] == '\n' && s[i + 2] == '\r' && s[i + 3] == '\n'
  }

  lemma TerminatorIs(s: string, i: nat)
    ensures TerminatorAt(s, i) <==> i + 4 <= |s| && s[i..i + 4] == TERMINATION
  {
    if i + 4 <= |s| {
      var t := s[i..i + 4];
      assert t[0] == s[i] && t[1] == s[i + 1] && t[2] == s[i + 2] && t[3] == s[i + 3];
    }
  }

  /** The terminator does not occur. */
  ghost predicate Unterminated(s: string) {
    forall i: nat :: !TerminatorAt(s, i)
  }

  /** The terminator occurs at the end of s, if anywhere. */
  ghost predicate EndsOnce(s: string) {
    forall i: nat :: TerminatorAt(s, i) ==> i + 4 == |s|
  }

  predicate Terminated(s: string) {
    |s| >= 4 && TerminatorAt(s, |s| - 4)
  }

  lemma UnterminatedGlue(a: string, b: string)
    requires Unterminated(a) && Unterminated(b)
    ensures Unterminated(a + " " + b)
  {
    var s := a + " " + b;
    forall i: nat ensures !TerminatorAt(s, i) {
      assert s[|a|] == ' ';
      if i < |a| {
        assert !TerminatorAt(a, i);
      } else if i > |a| {
        assert !TerminatorAt(b, i - |a| - 1);
      }
    }
  }

  lemma {:induction false} UnterminatedSpaced(ws: seq<string>)
    requires forall i | 0 <= i < |ws| :: Unterminated(ws[i])
    ensures Unterminated(Spaced(ws))
  {
    if ws != [] {
      UnterminatedSpaced(ws[1..]);
      UnterminatedGlue(ws[0], Spaced(ws[1..]));
    }
  }

  lemma {:induction false} SpacedEndsInBlank(ws: seq<string>)
    requires ws != []
    ensures Spaced(ws) != "" && Spaced(ws)[|Spaced(ws)| - 1] == ' '
  {
    if |ws| > 1 {
      SpacedEndsInBlank(ws[1..]);
    }
  }

  lemma NoneAcross(body: string, s: string, i: nat)
    requires Unterminated(body) && body <= s && i < |body| && body[|body| - 1] == ' '
    ensures !TerminatorAt(s, i)
  {
    assert !TerminatorAt(body, i);
    assert s[|body| - 1] == ' ';
  }

  /** Unterminated words, spaced and closed, hold the terminator exactly once: at the end. */
  lemma ClosedEndsOnce(ws: seq<string>)
    requires forall i | 0 <= i < |ws| :: Unterminated(ws[i])
    ensures EndsOnce(Spaced(ws) + TERMINATION) && Terminated(Spaced(ws) + TERMINATION)
  {
    var body := Spaced(ws);
    UnterminatedSpaced(ws);
    if ws != [] {
      SpacedEndsInBlank(ws);
    }
    BodyEndsOnce(body);
  }

  lemma BodyEndsOnce(body: string)
    requires Unterminated(body) && (body == "" || body[|body| - 1] == ' ')
    ensures EndsOnce(body + TERMINATION) && Terminated(body + TERMINATION)
  {
    var s := body + TERMINATION;
    forall i: nat | TerminatorAt(s, i) ensures i + 4 == |s| {
      if i < |body| {
        NoneAcross(body, s, i);
      }
    }
  }

  /** A token that is not the last one of a text with at most a final terminator is free of it. */
  lemma InnerTokenUnterminated(s: string, k: nat)
    requires EndsOnce(s) && k + 1 < |Tokens(s)|
    ensures Unterminated(Tokens(s)[k])
  {
    var t := Tokens(s)[k];
    var o := TokenInside(s, k);
    forall i: nat ensures !TerminatorAt(t, i) {
      assert forall j | 0 <= j < |t| :: t[j] == s[o..o + |t|][j] == s[o + j];
      assert TerminatorAt(t, i) ==> TerminatorAt(s, o + i);
    }
  }

  lemma BlankNext(s: string, i: nat)
    requires i < |s| && s[i] == ' '
    ensures Tokens(s[i..]) == Tokens(s[i + 1..])
  {
    assert s[i..][1..] == s[i + 1..];
  }

  lemma WordNext(s: string, from: nat, to: nat)
    requires from < to <= |s| && ' ' !in s[from..to] && (to < |s| ==> s[to] == ' ')
    ensures Tokens(s[from..]) == [s[from..to]] + Tokens(s[to..])
  {
    var rest := s[from..];
    assert rest[..to - from] == s[from..to] && rest[to - from..] == s[to..];
    RunLengthIs(rest, to - from);
    assert rest[0] == s[from..to][0];
  }

  /** The end of the word that begins at start: the inner loop of strtok. */
  method WordEnd(cmd: string, start: nat) returns (i: nat)
    requires start < |cmd| && cmd[start] != ' '
    ensures start < i <= |cmd| && ' ' !in cmd[start..i] && (i < |cmd| ==> cmd[i] == ' ')
  {
    i := start;
    while i < |cmd| && cmd[i] != ' '
      invariant start <= i <= |cmd| && ' ' !in cmd[start..i]
      invariant start < i || (i < |cmd| && cmd[i] != ' ')
    {
      assert cmd[start..i + 1] == cmd[start..i] + [cmd[i]];
      i := i + 1;
    }
  }

  /** tokenize: the loop around strtok. */
  method Tokenize(cmd: string) returns (argv: seq<string>)
    ensures argv == Tokens(cmd)
  {
    argv := [];
    var i := 0;
    while i < |cmd|
      invariant 0 <= i <= |cmd|
      invariant argv + Tokens(cmd[i..]) == Tokens(cmd)
    {
      if cmd[i] == ' ' {
        BlankNext(cmd, i);
        i := i + 1;
      } else {
        var start := i;
        i := WordEnd(cmd, start);
        WordNext(cmd, start, i);
        Concatenated(argv, [cmd[start..i]], Tokens(cmd[i..]));
        argv := argv + [cmd[start..i]];
      }
    }
    assert cmd[i..] == "";
  }
}

/** The shell's command line: what a line means as a chain of processes (parseIntoProcesses of
    320sh.c). */
module Shell {
  import opened Wrappers
  import opened Sequences
  import opened Text

  /** struct process, as far as parsing fills it in. */
  datatype Proc = Proc(
    argv: seq<string>,
    redirectOutput: Option<string>, outputFd: int,
    redirectInput: Option<string>, inputFd: int)

  // ---------- redirection tokens ----------

  predicate IsDigit(c: char) {
    '0' <= c <= '9'
  }

  predicate IsSpace(c: char) {
    c == ' ' || 9 <= c as int <= 13
  }

  function DigitsValue(s: string, acc: nat): nat {
    if s == "" || !IsDigit(s[0]) then acc else DigitsValue(s[1..], 10 * acc + (s[0] as int - '0' as int))
  }

  /** atoi, without overflow. */
  function Atoi(s: string): int {
    if s == "" then 0
    else if IsSpace(s[0]) then Atoi(s[1..])
    else if s[0] == '-' then 0 - DigitsValue(s[1..], 0)
    else if s[0] == '+' then DigitsValue(s[1..], 0)
    else DigitsValue(s, 0)
  }

  /** The number before the first c in arg, or -1 if there is no c: containsOutputRedirect with
      '>' and containsInputRedirect with '<'. */
  function Redirect(arg: string, c: char): int {
    var at := IndexOf(arg, c, 0);
    if at == |arg| then -1 else Atoi(arg[..at])
  }

  predicate Special(arg: string) {
    Redirect(arg, '>') != -1 || Redirect(arg, '<') != -1 || arg == "|"
  }

  // ---------- one token after another ----------

  /** Between two tokens: the processes so far, the words of the current command, and whether the
      next token names an output file (1) or an input file (2). */
  datatype Parse = Parse(procs: seq<Proc>, current: seq<string>, flag: nat)

  function Redirected(p: Proc, flag: nat, op: string, file: string): Proc {
    if flag == 1 then
      p.(redirectOutput := Some(file), outputFd := if Redirect(op, '>') == 0 then -1 else Redirect(op, '>'))
    else if flag == 2 then
      p.(redirectInput := Some(file), inputFd := Redirect(op, '<'))
    else p
  }

  function FlagAfter(arg: string, flag: nat): nat {
    if Redirect(arg, '>') != -1 then 1
    else if Redirect(arg, '<') != -1 then 2
    else if arg == "|" then 0
    else flag
  }

  function Command(words: seq<string>): Proc {
    Proc(words, None, -1, None, -1)
  }

  /** The body of the loop, for a token, the token before it, and whether it is the last one. */
  function Feed(s: Parse, prev: string, arg: string, last: bool): Parse {
    if s.flag != 0 && s.procs != [] then
      var n := |s.procs| - 1;
      s.(procs := s.procs[n := Redirected(s.procs[n], s.flag, prev, arg)], flag := 0)
    else if Special(arg) || last then
      var words := if last then s.current + [arg] else s.current;
      Parse(if s.procs == [] || words != [] then s.procs + [Command(words)] else s.procs, [], FlagAfter(arg, s.flag))
    else
      s.(current := s.current + [arg])
  }

  /** Tokens in a row; more says that others follow. */
  function Feeds(s: Parse, prev: string, args: seq<string>, more: bool): Parse
    decreases |args|
  {
    if args == [] then s else Feeds(Feed(s, prev, args[0], |args| == 1 && !more), args[0], args[1..], more)
  }

  const START := Parse([], [], 0)

  function ParseTokens(args: seq<string>): seq<Proc> {
    Feeds(START, "", args, false).procs
  }

  // ---------- well-formed pipelines ----------

  datatype Redir = Redir(output: bool, fd: Option<nat>, file: string)

  datatype Stage = Stage(words: seq<string>, redirs: seq<Redir>)

  function Digits(n: nat): (s: string)
    ensures s != "" && forall c <- s :: IsDigit(c)
  {
    if n < 10 then [('0' as int + n) as char] else Digits(n / 10) + [('0' as int + n % 10) as char]
  }

  function Operator(r: Redir): string {
    (if r.fd.Some? then Digits(r.fd.value) else "") + [if r.output then '>' else '<']
  }

  function RedirTokens(rs: seq<Redir>): seq<string> {
    if rs == [] then [] else [Operator(rs[0]), rs[0].file] + RedirTokens(rs[1..])
  }

  function StageTokens(s: Stage): seq<string> {
    s.words + RedirTokens(s.redirs)
  }

  /** Stages joined by "|". */
  function PipelineTokens(p: seq<Stage>): seq<string> {
    if p == [] then []
    else if |p| == 1 then StageTokens(p[0])
    else StageTokens(p[0]) + ["|"] + PipelineTokens(p[1..])
  }

  /** Tokens separated by single blanks. */
  function Print(ts: seq<string>): string {
    if ts == [] then "" else if |ts| == 1 then ts[0] else ts[0] + " " + Print(ts[1..])
  }

  /** A word that is no operator and has none in it. */
  predicate IsPlain(w: string) {
    IsWord(w) && '>' !in w && '<' !in w && w != "|"
  }

  /** Words without operators and any redirections; there may be none of either. */
  ghost predicate IsStage(s: Stage) {
    (forall w <- s.words :: IsPlain(w)) && (forall r <- s.redirs :: IsWord(r.file))
  }

  /** Any stages, of which the last is not empty: no bar ends the line. */
  ghost predicate IsPipeline(p: seq<Stage>) {
    p != [] && (forall st <- p :: IsStage(st)) && StageTokens(p[|p| - 1]) != []
  }

  /** A stage without words, other than the first, gives its redirections to what stands before it. */
  function Join(gs: seq<Stage>, st: Stage): seq<Stage> {
    var n := |gs| - 1;
    if gs == [] || st.words != [] then gs + [st] else gs[n := Stage(gs[n].words, gs[n].redirs + st.redirs)]
  }

  function JoinAll(gs: seq<Stage>, p: seq<Stage>): seq<Stage>
    decreases |p|
  {
    if p == [] then gs else JoinAll(Join(gs, p[0]), p[1..])
  }

  /** The stages that become processes. */
  function Grouped(p: seq<Stage>): seq<Stage> {
    JoinAll([], p)
  }

  /** The process a stage describes: each redirection replaces an earlier one of its direction. A
      bare '>' means descriptor -1, as does "0>"; a bare '<' means 0. */
  function Apply(p: Proc, rs: seq<Redir>): Proc
    decreases |rs|
  {
    if rs == [] then p
    else
      var r := rs[0];
      var fd := if r.fd.Some? then r.fd.value else 0;
      Apply(if r.output then p.(redirectOutput := Some(r.file), outputFd := if fd == 0 then -1 else fd)
            else p.(redirectInput := Some(r.file), inputFd := fd),
            rs[1..])
  }

  function Meaning(s: Stage): Proc {
    Apply(Command(s.words), s.redirs)
  }

  function Meanings(p: seq<Stage>): seq<Proc> {
    if p == [] then [] else [Meaning(p[0])] + Meanings(p[1..])
  }

  // ---------- what a process says ----------

  /** The last redirection of a direction is at place i. */
  predicate LastOf(rs: seq<Redir>, output: bool, i: nat) {
    i < |rs| && rs[i].output == output && forall j | i < j < |rs| :: rs[j].output != output
  }

  /** The number a redirection gives: a '>' without one, or with 0, counts as -1, a '<' without one as 0. */
  function Number(r: Redir): int {
    if r.output then (if r.fd.Some? && r.fd.value > 0 then r.fd.value else -1)
    else if r.fd.Some? then r.fd.value else 0
  }

  /** File and descriptor are those of the last redirection of the direction; without one there is
      no file, and -1. */
  ghost predicate Redirects(rs: seq<Redir>, output: bool, file: Option<string>, fd: int) {
    && ((forall j | 0 <= j < |rs| :: rs[j].output != output) ==> file == None && fd == -1)
    && forall i: nat | LastOf(rs, output, i) :: file == Some(rs[i].file) && fd == Number(rs[i])
  }

  /** The process has the arguments of the stage, and in either direction its last redirection. */
  ghost predicate Describes(st: Stage, p: Proc) {
    && p.argv == st.words
    && Redirects(st.redirs, true, p.redirectOutput, p.outputFd)
    && Redirects(st.redirs, false, p.redirectInput, p.inputFd)
  }

  lemma RedirectsMore(rs: seq<Redir>, r: Redir, output: bool, file: Option<string>, fd: int)
    requires Redirects(rs, output, file, fd)
    ensures Redirects(rs + [r], output, if r.output == output then Some(r.file) else file, if r.output == output then Number(r) else fd)
  {
    var more := rs + [r];
    assert more[|rs|] == r && forall j | 0 <= j < |rs| :: more[j] == rs[j];
    forall i: nat | LastOf(more, output, i) ensures if r.output == output then i == |rs| else LastOf(rs, output, i) {
      if r.output != output {
        assert i < |rs|;
        forall j | i < j < |rs| ensures rs[j].output != output {
          assert more[j] == rs[j];
        }
      }
    }
  }

  lemma ApplyOne(p: Proc, r: Redir)
    ensures Apply(p, [r]) == if r.output then p.(redirectOutput := Some(r.file), outputFd := Number(r))
                             else p.(redirectInput := Some(r.file), inputFd := Number(r))
  {
    assert [r][1..] == [];
  }

  lemma ApplyFirst(p: Proc, rs: seq<Redir>)
    requires rs != []
    ensures Apply(p, rs) == Apply(Apply(p, [rs[0]]), rs[1..])
  {
    ApplyOne(p, rs[0]);
  }

  lemma {:induction false} ApplySnoc(p: Proc, rs: seq<Redir>, r: Redir)
    ensures Apply(p, rs + [r]) == Apply(Apply(p, rs), [r])
    decreases |rs|
  {
    if rs == [] {
      assert rs + [r] == [r];
    } else {
      assert (rs + [r])[0] == rs[0] && (rs + [r])[1..] == rs[1..] + [r];
      ApplyFirst(p, rs);
      ApplyFirst(p, rs + [r]);
      ApplySnoc(Apply(p, [rs[0]]), rs[1..], r);
    }
  }

  lemma {:induction false} ApplyDescribes(words: seq<string>, rs: seq<Redir>)
    ensures Describes(Stage(words, rs), Apply(Command(words), rs))
    decreases |rs|
  {
    if rs != [] {
      var n := |rs| - 1;
      var p := Apply(Command(words), rs[..n]);
      ApplyDescribes(words, rs[..n]);
      ApplySnoc(Command(words), rs[..n], rs[n]);
      RedirectsMore(rs[..n], rs[n], true, p.redirectOutput, p.outputFd);
      RedirectsMore(rs[..n], rs[n], false, p.redirectInput, p.inputFd);
      ApplyOne(p, rs[n]);
      assert rs == rs[..n] + [rs[n]];
    }
  }

  lemma MeaningDescribes(st: Stage)
    ensures Describes(st, Meaning(st))
  {
    ApplyDescribes(st.words, st.redirs);
  }

  lemma {:induction false} MeaningsDescribe(p: seq<Stage>)
    ensures |Meanings(p)| == |p| && forall i | 0 <= i < |p| :: Describes(p[i], Meanings(p)[i])
  {
    if p != [] {
      MeaningDescribes(p[0]);
      MeaningsDescribe(p[1..]);
    }
  }

  // ---------- round trip ----------

  lemma {:induction false} DigitsValueSnoc(s: string, c: char, acc: nat)
    requires (forall d <- s :: IsDigit(d)) && IsDigit(c)
    ensures DigitsValue(s + [c], acc) == 10 * DigitsValue(s, acc) + (c as int - '0' as int)
  {
    if s != "" {
      assert (s + [c])[1..] == s[1..] + [c];
      assert IsDigit(s[0]);
      DigitsValueSnoc(s[1..], c, 10 * acc + (s[0] as int - '0' as int));
    } else {
      assert s + [c] == [c] && [c][1..] == [];
    }
  }

  lemma {:induction false} DigitsRead(n: nat)
    ensures DigitsValue(Digits(n), 0) == n
  {
    if n >= 10 {
      DigitsRead(n / 10);
      DigitsValueSnoc(Digits(n / 10), ('0' as int + n % 10) as char, 0);
    } else {
      assert [('0' as int + n) as char][1..] == [];
    }
  }

  lemma {:induction false} DigitsStop(s: string, c: char, rest: string, acc: nat)
    requires (forall d <- s :: IsDigit(d)) && !IsDigit(c)
    ensures DigitsValue(s + [c] + rest, acc) == DigitsValue(s, acc)
  {
    if s == "" {
      assert s + [c] + rest == [c] + rest;
    } else {
      assert IsDigit(s[0]) && (s + [c] + rest)[1..] == s[1..] + [c] + rest;
      DigitsStop(s[1..], c, rest, 10 * acc + (s[0] as int - '0' as int));
    }
  }

  /** atoi reads decimal numbers: a digit counts for itself, and each further one makes ten times
      what stands before it, and itself. */
  lemma AtoiDecimal(s: string, c: char)
    requires (forall d <- s :: IsDigit(d)) && IsDigit(c)
    ensures Atoi([c]) == c as int - '0' as int
    ensures Atoi(s + [c]) == 10 * Atoi(s) + (c as int - '0' as int)
  {
    DigitsValueSnoc(s, c, 0);
    AtoiOfDigits(s);
    AtoiOfDigits(s + [c]);
    AtoiOfDigits([c]);
    assert [c][1..] == [];
  }

  /** White space before a number is skipped, a sign heeded, and what follows the digits ignored. */
  lemma AtoiAround(s: string, space: char, end: char, rest: string)
    requires s != "" && (forall d <- s :: '0' <= d <= '9') && !('0' <= end <= '9')
    requires space == ' ' || space == '\t' || space == '\n' || space == '\r' || space as int == 11 || space as int == 12
    ensures Atoi([space] + s) == Atoi(s) && Atoi(['-'] + s) == -Atoi(s) && Atoi(['+'] + s) == Atoi(s)
    ensures Atoi(s + [end] + rest) == Atoi(s)
  {
    AtoiOfDigits(s);
    assert ([space] + s)[1..] == s && (['-'] + s)[1..] == s && (['+'] + s)[1..] == s;
    DigitsStop(s, end, rest, 0);
    assert s[0] in s && (s + [end] + rest)[0] == s[0];
  }

  lemma AtoiOfDigits(s: string)
    requires forall d <- s :: IsDigit(d)
    ensures Atoi(s) == DigitsValue(s, 0)
  {
    if s != "" {
      assert IsDigit(s[0]);
    }
  }

  /** atoi undoes printing a number. */
  lemma AtoiDigits(n: nat)
    ensures Atoi(Digits(n)) == n
  {
    DigitsRead(n);
    assert Digits(n)[0] in Digits(n);
  }

  lemma OperatorRead(r: Redir)
    ensures IsWord(Operator(r))
    ensures Redirect(Operator(r), if r.output then '>' else '<') == if r.fd.Some? then r.fd.value else 0
    ensures Redirect(Operator(r), if r.output then '<' else '>') == -1
  {
    var number := if r.fd.Some? then Digits(r.fd.value) else "";
    var c := if r.output then '>' else '<';
    forall j | 0 <= j < |number| ensures IsDigit(Operator(r)[j]) {
      assert number[j] in number;
    }
    assert Operator(r)[..|number|] == number;
    IndexIs(Operator(r), c, 0, |number|);
    if r.fd.Some? {
      AtoiDigits(r.fd.value);
    }
  }

  lemma {:induction false} FeedsSplit(s: Parse, prev: string, a: seq<string>, b: seq<string>, more: bool)
    requires a != [] && b != []
    ensures Feeds(s, prev, a + b, more) == Feeds(Feeds(s, prev, a, true), a[|a| - 1], b, more)
    decreases |a|
  {
    assert (a + b)[1..] == a[1..] + b;
    if |a| == 1 {
      assert a[1..] + b == b;
    } else {
      FeedsSplit(Feed(s, prev, a[0], false), a[0], a[1..], b, more);
    }
  }

  lemma PlainFed(procs: seq<Proc>, current: seq<string>, prev: string, w: string, last: bool)
    requires IsPlain(w)
    ensures Feed(Parse(procs, current, 0), prev, w, last) ==
      if last then Parse(procs + [Command(current + [w])], [], 0) else Parse(procs, current + [w], 0)
  {
  }

  /** Plain words pile up, and make a process when the line ends. */
  lemma {:induction false} WordsFed(procs: seq<Proc>, current: seq<string>, prev: string, ws: seq<string>, more: bool)
    requires ws != [] && forall w <- ws :: IsPlain(w)
    ensures Feeds(Parse(procs, current, 0), prev, ws, more) ==
      if more then Parse(procs, current + ws, 0) else Parse(procs + [Command(current + ws)], [], 0)
    decreases |ws|
  {
    assert ws[0] in ws;
    PlainFed(procs, current, prev, ws[0], |ws| == 1 && !more);
    if |ws| == 1 {
      assert ws == [ws[0]];
    } else {
      WordsFed(procs, current + [ws[0]], ws[0], ws[1..], more);
      assert current + [ws[0]] + ws[1..] == current + ws;
    }
  }

  /** The processes once an operator has ended the current command. */
  function Ready(procs: seq<Proc>, current: seq<string>): (r: seq<Proc>)
    ensures r != []
  {
    if procs == [] || current != [] then procs + [Command(current)] else procs
  }

  /** An operator and its file: they concern the current command, or, if that has no words, the
      process before it. */
  lemma RedirFed(procs: seq<Proc>, current: seq<string>, prev: string, r: Redir, last: bool)
    ensures var all := Ready(procs, current);
      var n := |all| - 1;
      Feed(Feed(Parse(procs, current, 0), prev, Operator(r), false), Operator(r), r.file, last) ==
      Parse(all[n := Apply(all[n], [r])], [], 0)
  {
    OperatorRead(r);
    var all := Ready(procs, current);
    var n := |all| - 1;
    assert Apply(all[n], [r]) == Redirected(all[n], if r.output then 1 else 2, Operator(r), r.file);
  }

  lemma {:induction false} RedirsFed(procs: seq<Proc>, current: seq<string>, prev: string, rs: seq<Redir>, more: bool)
    requires rs != []
    ensures var all := Ready(procs, current);
      var n := |all| - 1;
      Feeds(Parse(procs, current, 0), prev, RedirTokens(rs), more) == Parse(all[n := Apply(all[n], rs)], [], 0)
    decreases |rs|
  {
    var all := Ready(procs, current);
    var n := |all| - 1;
    var ts := RedirTokens(rs);
    assert ts[1..] == [rs[0].file] + RedirTokens(rs[1..]) && ts[1..][1..] == RedirTokens(rs[1..]);
    RedirFed(procs, current, prev, rs[0], |rs| == 1 && !more);
    assert [rs[0]][1..] == [];
    var s1 := Feed(Parse(procs, current, 0), prev, ts[0], false);
    var s2 := Feed(s1, ts[0], ts[1], |rs| == 1 && !more);
    assert Feeds(Parse(procs, current, 0), prev, ts, more) == Feeds(s1, ts[0], ts[1..], more)
        == Feeds(s2, ts[1], RedirTokens(rs[1..]), more);
    if |rs| == 1 {
      assert rs == [rs[0]];
    } else {
      RedirsFed(all[n := Apply(all[n], [rs[0]])], [], rs[0].file, rs[1..], more);
    }
  }

  lemma {:induction false} ApplyJoin(p: Proc, rs: seq<Redir>, more: seq<Redir>)
    ensures Apply(p, rs + more) == Apply(Apply(p, rs), more)
    decreases |rs|
  {
    if rs == [] {
      assert rs + more == more;
    } else {
      assert (rs + more)[0] == rs[0] && (rs + more)[1..] == rs[1..] + more;
      ApplyFirst(p, rs);
      ApplyFirst(p, rs + more);
      ApplyJoin(Apply(p, [rs[0]]), rs[1..], more);
    }
  }

  lemma {:induction false} MeaningsAt(gs: seq<Stage>)
    ensures |Meanings(gs)| == |gs| && forall i | 0 <= i < |gs| :: Meanings(gs)[i] == Meaning(gs[i])
  {
    if gs != [] {
      MeaningsAt(gs[1..]);
    }
  }

  /** The processes of the stages so far and of one more. */
  lemma JoinMeanings(gs: seq<Stage>, st: Stage)
    ensures var all := Ready(Meanings(gs), st.words);
      var n := |all| - 1;
      Meanings(Join(gs, st)) == all[n := Apply(all[n], st.redirs)]
  {
    MeaningsAt(gs);
    MeaningsAt(Join(gs, st));
    if gs != [] && st.words == [] {
      ApplyJoin(Command(gs[|gs| - 1].words), gs[|gs| - 1].redirs, st.redirs);
    }
  }

  lemma StageFed(gs: seq<Stage>, prev: string, st: Stage, more: bool)
    requires IsStage(st) && StageTokens(st) != []
    ensures Feeds(Parse(Meanings(gs), [], 0), prev, StageTokens(st), more) ==
      if more && st.redirs == [] then Parse(Meanings(gs), st.words, 0) else Parse(Meanings(Join(gs, st)), [], 0)
  {
    var procs := Meanings(gs);
    JoinMeanings(gs, st);
    assert [] + st.words == st.words;
    if st.redirs == [] {
      assert StageTokens(st) == st.words;
      WordsFed(procs, [], prev, st.words, more);
    } else if st.words == [] {
      assert StageTokens(st) == RedirTokens(st.redirs);
      RedirsFed(procs, [], prev, st.redirs, more);
    } else {
      FeedsSplit(Parse(procs, [], 0), prev, st.words, RedirTokens(st.redirs), more);
      WordsFed(procs, [], prev, st.words, true);
      RedirsFed(procs, st.words, st.words[|st.words| - 1], st.redirs, more);
    }
  }

  lemma BarFed(gs: seq<Stage>, st: Stage, s: Parse, prev: string)
    requires s == if st.redirs == [] then Parse(Meanings(gs), st.words, 0) else Parse(Meanings(Join(gs, st)), [], 0)
    ensures Feeds(s, prev, ["|"], true) == Parse(Meanings(Join(gs, st)), [], 0)
  {
    assert ["|"][1..] == [];
    JoinMeanings(gs, st);
    MeaningsAt(Join(gs, st));
  }

  /** All stages have been made processes, or, if the line goes on, the words of the last one are
      still waiting for what comes next. */
  function PipelineRead(gs: seq<Stage>, p: seq<Stage>, more: bool): Parse
    requires p != []
  {
    var n := |p| - 1;
    if more && p[n].redirs == [] then Parse(Meanings(JoinAll(gs, p[..n])), p[n].words, 0) else Parse(Meanings(JoinAll(gs, p)), [], 0)
  }

  lemma {:induction false} PipelineFed(gs: seq<Stage>, prev: string, p: seq<Stage>, more: bool)
    requires IsPipeline(p)
    ensures Feeds(Parse(Meanings(gs), [], 0), prev, PipelineTokens(p), more) == PipelineRead(gs, p, more)
    decreases |p|
  {
    FirstStageRead(gs, p, more);
    if |p| == 1 {
      StageFed(gs, prev, p[0], more);
    } else {
      PipelineNotEmpty(p[1..]);
      StageBarFed(gs, prev, p[0], PipelineTokens(p[1..]), more);
      PipelineFed(Join(gs, p[0]), "|", p[1..], more);
    }
  }

  lemma FirstStageRead(gs: seq<Stage>, p: seq<Stage>, more: bool)
    requires p != []
    ensures PipelineRead(gs, p, more) ==
      if |p| > 1 then PipelineRead(Join(gs, p[0]), p[1..], more)
      else if more && p[0].redirs == [] then Parse(Meanings(gs), p[0].words, 0)
      else Parse(Meanings(Join(gs, p[0])), [], 0)
  {
    if |p| > 1 {
      assert p[1..][..|p| - 2] == p[..|p| - 1][1..];
    } else {
      assert p[1..] == [] && p[..0] == [];
      assert JoinAll(gs, p) == JoinAll(Join(gs, p[0]), []) == Join(gs, p[0]);
    }
  }

  /** A stage and the bar after it. */
  lemma StageBarFed(gs: seq<Stage>, prev: string, st: Stage, rest: seq<string>, more: bool)
    requires IsStage(st) && rest != []
    ensures Feeds(Parse(Meanings(gs), [], 0), prev, StageTokens(st) + ["|"] + rest, more) ==
      Feeds(Parse(Meanings(Join(gs, st)), [], 0), "|", rest, more)
  {
    var first := StageTokens(st);
    var start := Parse(Meanings(gs), [], 0);
    if first == [] {
      assert first + ["|"] + rest == ["|"] + rest;
      FeedsSplit(start, prev, ["|"], rest, more);
      BarFed(gs, st, start, prev);
    } else {
      var s := Feeds(start, prev, first, true);
      StageFed(gs, prev, st, true);
      assert first + ["|"] + rest == first + (["|"] + rest);
      FeedsSplit(start, prev, first, ["|"] + rest, more);
      FeedsSplit(s, first[|first| - 1], ["|"], rest, more);
      BarFed(gs, st, s, first[|first| - 1]);
    }
  }

  lemma PipelineNotEmpty(p: seq<Stage>)
    requires IsPipeline(p)
    ensures PipelineTokens(p) != []
  {
  }

  // ---------- the printed line ----------

  lemma {:induction false} RedirWords(rs: seq<Redir>)
    requires forall r <- rs :: IsWord(r.file)
    ensures forall t <- RedirTokens(rs) :: IsWord(t)
  {
    if rs != [] {
      OperatorRead(rs[0]);
      RedirWords(rs[1..]);
    }
  }

  lemma {:induction false} PipelineWords(p: seq<Stage>)
    requires forall st <- p :: IsStage(st)
    ensures forall t <- PipelineTokens(p) :: IsWord(t)
  {
    if p != [] {
      assert p[0] in p;
      RedirWords(p[0].redirs);
      PipelineWords(p[1..]);
    }
  }

  lemma {:induction false} PrintRead(ts: seq<string>)
    requires forall t <- ts :: IsWord(t)
    ensures Tokens(Print(ts)) == ts
  {
    if ts != [] {
      TokensOfWord(ts[0]);
      if |ts| > 1 {
        PrintRead(ts[1..]);
        TokensSplit(ts[0], Print(ts[1..]));
      }
    }
  }

  /** Printing any stages and parsing the line gives a process for each stage that has words, and
      for the first one: arguments, files and descriptors, in order. The redirections of a stage
      without words go to the process before it. */
  lemma PipelineRoundTrip(p: seq<Stage>)
    requires IsPipeline(p)
    ensures var ps := ParseTokens(Tokens(Print(PipelineTokens(p))));
      ps == Meanings(Grouped(p)) && |ps| == |Grouped(p)| && forall i | 0 <= i < |ps| :: Describes(Grouped(p)[i], ps[i])
  {
    MeaningsDescribe(Grouped(p));
    PipelineWords(p);
    PrintRead(PipelineTokens(p));
    PipelineFed([], "", p, false);
  }

  /** With words in every stage, or in all but the first, each stage is a process. */
  lemma GroupedAll(p: seq<Stage>)
    requires forall i | 0 < i < |p| :: p[i].words != []
    ensures Grouped(p) == p
  {
    if p != [] {
      assert Join([], p[0]) == [p[0]];
      JoinedAll([p[0]], p[1..]);
      assert p == [p[0]] + p[1..];
    }
  }

  lemma {:induction false} JoinedAll(gs: seq<Stage>, p: seq<Stage>)
    requires forall i | 0 <= i < |p| :: p[i].words != []
    ensures JoinAll(gs, p) == gs + p
    decreases |p|
  {
    if p != [] {
      JoinedAll(gs + [p[0]], p[1..]);
      Concatenated(gs, [p[0]], p[1..]);
      assert [p[0]] + p[1..] == p;
    } else {
      assert gs + p == gs;
    }
  }

  /** A stage without words in the middle, or at the end: the process before it gets its
      redirections, after its own. */
  lemma GroupedGap(p: seq<Stage>, rs: seq<Redir>, q: seq<Stage>)
    requires p != [] && forall i | 0 < i < |p| :: p[i].words != []
    requires forall i | 0 <= i < |q| :: q[i].words != []
    ensures var n := |p| - 1; Grouped(p + [Stage([], rs)] + q) == p[n := Stage(p[n].words, p[n].redirs + rs)] + q
  {
    var st, n := Stage([], rs), |p| - 1;
    JoinSplit([], p, [st] + q);
    Concatenated(p, [st], q);
    GroupedAll(p);
    assert ([st] + q)[0] == st && ([st] + q)[1..] == q;
    JoinedAll(Join(p, st), q);
  }

  lemma {:induction false} JoinSplit(gs: seq<Stage>, p: seq<Stage>, q: seq<Stage>)
    ensures JoinAll(gs, p + q) == JoinAll(JoinAll(gs, p), q)
    decreases |p|
  {
    if p == [] {
      assert p + q == q;
    } else {
      assert (p + q)[0] == p[0] && (p + q)[1..] == p[1..] + q;
      JoinSplit(Join(gs, p[0]), p[1..], q);
    }
  }

  /** An operator at the end of the line is no operator: it becomes an argument, of the last stage
      or, if that has redirections, of a process of its own. */
  lemma TrailingOperator(p: seq<Stage>, op: string)
    requires IsPipeline(p) && Special(op)
    ensures var n := |p| - 1;
      ParseTokens(PipelineTokens(p) + [op]) ==
      if p[n].redirs == [] then Meanings(Grouped(p[..n])) + [Command(p[n].words + [op])] else Meanings(Grouped(p)) + [Command([op])]
  {
    var ts := PipelineTokens(p);
    PipelineNotEmpty(p);
    FeedsSplit(START, "", ts, [op], false);
    PipelineFed([], "", p, true);
    LastFed(PipelineRead([], p, true), ts[|ts| - 1], op);
  }

  lemma LastFed(s: Parse, prev: string, op: string)
    requires s.flag == 0 && Special(op)
    ensures Feeds(s, prev, [op], false).procs == s.procs + [Command(s.current + [op])]
    ensures [] + [op] == [op]
  {
    assert [op][1..] == [];
    assert Feeds(s, prev, [op], false) == Feed(s, prev, op, true);
  }

  /** In so many words: the operator is the last argument of the last process, which has no
      redirection; the processes before it are those of the stages. */
  lemma TrailingArgument(p: seq<Stage>, op: string)
    requires IsPipeline(p) && Special(op)
    ensures var ps, n := ParseTokens(PipelineTokens(p) + [op]), |p| - 1;
      var before := Grouped(if p[n].redirs == [] then p[..n] else p);
      && |ps| == |before| + 1 && (forall i | 0 <= i < |before| :: Describes(before[i], ps[i]))
      && Describes(Stage((if p[n].redirs == [] then p[n].words else []) + [op], []), ps[|before|])
  {
    TrailingOperator(p, op);
    MeaningsDescribe(Grouped(p));
    MeaningsDescribe(Grouped(p[..|p| - 1]));
    ApplyDescribes(p[|p| - 1].words + [op], []);
    ApplyDescribes([op], []);
    assert [] + [op] == [op];
  }
}

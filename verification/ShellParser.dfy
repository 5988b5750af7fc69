/** parseIntoProcesses of 320sh.c: one pass over the tokens, building a linked chain of processes. */
module ShellParser {
  import opened Wrappers
  import opened Shell

  class Process {
    var argv: seq<string>
    var redirectOutput: Option<string>
    var outputFd: int
    var redirectInput: Option<string>
    var inputFd: int
    var nextProcess: Process?

    constructor (argv: seq<string>)
      ensures Value() == Command(argv) && nextProcess == null
      ensures this.argv == argv && redirectOutput == None && outputFd == -1 && redirectInput == None && inputFd == -1
    {
      this.argv := argv;
      redirectOutput, outputFd := None, -1;
      redirectInput, inputFd := None, -1;
      nextProcess := null;
    }

    function Value(): Proc
      reads this
    {
      Proc(argv, redirectOutput, outputFd, redirectInput, inputFd)
    }
  }

  /** The fields of the process are those of the value. */
  predicate Shows(p: Process, v: Proc)
    reads p
  {
    && p.argv == v.argv && p.redirectOutput == v.redirectOutput && p.outputFd == v.outputFd
    && p.redirectInput == v.redirectInput && p.inputFd == v.inputFd
  }

  /** So are those of a whole chain, process by process. */
  ghost predicate AllShow(ps: seq<Process>, vs: seq<Proc>)
    reads ps
  {
    |ps| == |vs| && forall i | 0 <= i < |ps| :: Shows(ps[i], vs[i])
  }

  lemma ValuesShow(ps: seq<Process>)
    ensures AllShow(ps, Values(ps))
  {
  }

  ghost function Values(ps: seq<Process>): seq<Proc>
    reads ps
  {
    seq(|ps|, i requires 0 <= i < |ps| reads ps => ps[i].Value())
  }

  /** ps is the chain that starts at first. */
  ghost predicate Chain(first: Process?, ps: seq<Process>)
    reads ps
  {
    && (forall i, j | 0 <= i < j < |ps| :: ps[i] != ps[j])
    && first == (if ps == [] then null else ps[0])
    && (ps != [] ==> ps[|ps| - 1].nextProcess == null)
    && forall i | 0 <= i < |ps| - 1 :: ps[i].nextProcess == ps[i + 1]
  }

  lemma ChainAt(first: Process?, ps: seq<Process>, i: nat)
    requires Chain(first, ps) && i < |ps|
    ensures ps[i].nextProcess == if i == |ps| - 1 then null else ps[i + 1]
  {
  }

  method LastProcess(first: Process, ghost ps: seq<Process>) returns (p: Process)
    requires Chain(first, ps)
    ensures ps != [] && p == ps[|ps| - 1]
  {
    p := first;
    ghost var i := 0;
    ChainAt(first, ps, 0);
    while p.nextProcess != null
      invariant 0 <= i < |ps| && p == ps[i]
      invariant p.nextProcess == if i == |ps| - 1 then null else ps[i + 1]
      decreases |ps| - i
    {
      p := p.nextProcess;
      i := i + 1;
      ChainAt(first, ps, i);
    }
  }

  /** The last process of the chain gets the redirection that op announced. */
  method SetRedirection(first: Process, ghost ps: seq<Process>, flag: nat, op: string, file: string)
    requires Chain(first, ps)
    modifies ps
    ensures Chain(first, ps) && ps != []
    ensures var n := |ps| - 1; Values(ps) == old(Values(ps))[n := Redirected(old(Values(ps))[n], flag, op, file)]
  {
    var tempProcess := LastProcess(first, ps);
    if flag == 1 {
      tempProcess.redirectOutput := Some(file);
      var out := Redirect(op, '>');
      if out == 0 {
        out := -1;
      }
      tempProcess.outputFd := out;
    } else if flag == 2 {
      tempProcess.redirectInput := Some(file);
      tempProcess.inputFd := Redirect(op, '<');
    }
  }

  /** A process as it is made: its words, no file, no descriptor. */
  predicate IsFresh(p: Process, words: seq<string>)
    reads p
  {
    p.argv == words && p.redirectOutput == None && p.outputFd == -1 && p.redirectInput == None && p.inputFd == -1
  }

  /** Links a new process for the words in at the end, unless there are none and it is not the first. */
  method AppendProcess(first: Process?, words: seq<string>, ghost ps: seq<Process>) returns (head: Process, ghost qs: seq<Process>)
    requires Chain(first, ps)
    modifies ps
    ensures Chain(head, qs)
    ensures forall i | 0 <= i < |qs| :: qs[i] in ps || fresh(qs[i])
    ensures Values(qs) == old(Values(ps)) + if ps == [] || words != [] then [Command(words)] else []
    ensures ps == [] || words != [] ==> qs != [] && qs[|qs| - 1] !in ps && qs[..|qs| - 1] == ps && IsFresh(qs[|qs| - 1], words)
    ensures ps != [] && words == [] ==> qs == ps
  {
    var current := new Process(words);
    qs := ps;
    if first == null {
      head := current;
      qs := [current];
    } else {
      head := first;
      if |words| != 0 {
        var last := LastProcess(first, ps);
        last.nextProcess := current;
        qs := ps + [current];
      }
    }
  }

  lemma OneToken(s: Parse, prev: string, args: seq<string>, i: nat)
    requires i < |args|
    ensures Feeds(s, prev, args[i..], false) == Feeds(Feed(s, prev, args[i], i == |args| - 1), args[i], args[i + 1..], false)
  {
    assert args[i..][0] == args[i] && args[i..][1..] == args[i + 1..];
  }

  method ParseIntoProcesses(args: seq<string>) returns (firstProcess: Process, ghost ps: seq<Process>)
    requires args != []
    ensures Chain(firstProcess, ps) && fresh(ps)
    ensures Values(ps) == ParseTokens(args)
    ensures AllShow(ps, ParseTokens(args))
  {
    var initialProcess: Process? := null;
    ps := [];
    var currentCommand: seq<string> := [];
    var redirectionFlag: nat := 0;
    var i := 0;
    while i < |args|
      invariant 0 <= i <= |args|
      invariant Chain(initialProcess, ps) && forall j | 0 <= j < |ps| :: fresh(ps[j])
      invariant redirectionFlag != 0 || (0 < i == |args|) ==> 0 < i && ps != []
      invariant Feeds(START, "", args, false) ==
        Feeds(Parse(Values(ps), currentCommand, redirectionFlag), if i == 0 then "" else args[i - 1], args[i..], false)
    {
      var arg := args[i];
      OneToken(Parse(Values(ps), currentCommand, redirectionFlag), if i == 0 then "" else args[i - 1], args, i);
      ghost var before := Parse(Values(ps), currentCommand, redirectionFlag);
      ghost var after := Feed(before, if i == 0 then "" else args[i - 1], arg, i == |args| - 1);
      if redirectionFlag != 0 {
        SetRedirection(initialProcess, ps, redirectionFlag, args[i - 1], arg);
        redirectionFlag := 0;
      } else if Special(arg) || i == |args| - 1 {
        if i == |args| - 1 {
          currentCommand := currentCommand + [arg];
        }
        initialProcess, ps := AppendProcess(initialProcess, currentCommand, ps);
        currentCommand := [];
        redirectionFlag := FlagAfter(arg, redirectionFlag);
      } else {
        currentCommand := currentCommand + [arg];
      }
      assert Parse(Values(ps), currentCommand, redirectionFlag) == after;
      i := i + 1;
    }
    firstProcess := initialProcess;
    ValuesShow(ps);
  }
}

/** The audit log file shared by any number of clients, which write it with writeLogEvent, and an
    auditor, which reads it with fillAudit. Every access is made under the file lock, but what a
    client writes passes through a stdio buffer that may be emptied at any time. */
module LogFile {
  import opened Wrappers
  import opened Sequences
  import opened AuditLog

  datatype Holder = Client(w: nat) | Auditor

  /** Where a client stands in writeLogEvent: how many of the three pieces of its line it has
      handed to stdio, and what stdio has not passed on yet. */
  datatype Writer = Away | Writing(entry: Entry, pieces: nat, buffer: string)

  /** Where the auditor stands in fillAudit: got is what it has read so far. */
  datatype Reader = Out | Reading(got: string) | Done(got: string)

  /** lines: the entries whose clients took the lock, in that order; seen: how many of them there
      were when the auditor last took it. */
  datatype State = State(file: string, lock: Option<Holder>, writers: seq<Writer>, reader: Reader, lines: seq<Entry>, seen: nat)

  datatype Action =
    | Lock(w: nat, entry: Entry)
    | Print(w: nat)             // the next sfwrite
    | Spill(w: nat, n: nat)     // stdio passes on n bytes
    | Unlock(w: nat)            // with everything flushed
    | Open                      // the auditor takes the lock
    | Read
    | Close                     // end of file reached: the lock is released

  function Piece(e: Entry, i: nat): string {
    if i == 0 then e.time else if i == 1 then ", " + e.name else if i == 2 then ", " + EventText(e.event) + "\n" else ""
  }

  /** The first n pieces of a line. */
  function Pieces(e: Entry, n: nat): string {
    if n == 0 then "" else Pieces(e, n - 1) + Piece(e, n - 1)
  }

  function Next(s: State, a: Action): Option<State> {
    match a
    case Lock(w, e) =>
      if w < |s.writers| && s.writers[w] == Away && s.lock == None then
        Some(s.(lock := Some(Client(w)), writers := s.writers[w := Writing(e, 0, "")], lines := s.lines + [e]))
      else None
    case Print(w) =>
      if w < |s.writers| && s.writers[w].Writing? && s.writers[w].pieces < 3 then
        var Writing(e, n, b) := s.writers[w];
        Some(s.(writers := s.writers[w := Writing(e, n + 1, b + Piece(e, n))]))
      else None
    case Spill(w, n) =>
      if w < |s.writers| && s.writers[w].Writing? && n <= |s.writers[w].buffer| then
        var b := s.writers[w].buffer;
        Some(s.(file := s.file + b[..n], writers := s.writers[w := s.writers[w].(buffer := b[n..])]))
      else None
    case Unlock(w) =>
      if w < |s.writers| && s.writers[w].Writing? && s.writers[w].pieces == 3 && s.writers[w].buffer == "" then
        Some(s.(lock := None, writers := s.writers[w := Away]))
      else None
    case Open =>
      if !s.reader.Reading? && s.lock == None then Some(s.(lock := Some(Auditor), reader := Reading(""), seen := |s.lines|)) else None
    case Read =>
      if s.reader.Reading? && |s.reader.got| < |s.file| then
        Some(s.(reader := Reading(s.reader.got + [s.file[|s.reader.got|]])))
      else None
    case Close =>
      if s.reader.Reading? && |s.reader.got| >= |s.file| then Some(s.(lock := None, reader := Done(s.reader.got))) else None
  }

  ghost predicate Init(s: State) {
    && s.lock == None && (forall w | 0 <= w < |s.writers| :: s.writers[w] == Away) && s.reader == Out && s.seen == 0
    && s.file == LogText(s.lines)
  }

  ghost predicate Run(states: seq<State>, actions: seq<Action>) {
    && |states| == |actions| + 1 && Init(states[0])
    && forall i {:trigger actions[i]} | 0 <= i < |actions| :: Next(states[i], actions[i]) == Some(states[i + 1])
  }

  // ---------- the invariant ----------

  /** What of the current line has reached the file and what is still in the buffer make up the
      pieces printed so far. */
  ghost predicate Underway(s: State, w: nat) {
    && w < |s.writers| && s.writers[w].Writing? && s.lines != [] && s.lines[|s.lines| - 1] == s.writers[w].entry
    && s.writers[w].pieces <= 3
    && s.file + s.writers[w].buffer == LogText(s.lines[..|s.lines| - 1]) + Pieces(s.writers[w].entry, s.writers[w].pieces)
  }

  ghost predicate Inv(s: State) {
    && (forall w | 0 <= w < |s.writers| :: s.writers[w].Writing? <==> s.lock == Some(Client(w)))
    && (s.reader.Reading? <==> s.lock == Some(Auditor))
    && s.seen <= |s.lines|
    && (s.reader.Reading? ==> s.reader.got <= s.file && s.seen == |s.lines|)
    && (s.reader.Done? ==> s.reader.got == LogText(s.lines[..s.seen]))
    && match s.lock
       case Some(Client(w)) => Underway(s, w)
       case _ => s.file == LogText(s.lines)
  }

  lemma {:induction false} LogTextSnoc(es: seq<Entry>, e: Entry)
    ensures LogText(es + [e]) == LogText(es) + Line(e)
  {
    if es == [] {
      assert es + [e] == [e];
      assert Line(e) + "" == Line(e);
    } else {
      assert (es + [e])[1..] == es[1..] + [e];
      LogTextSnoc(es[1..], e);
    }
  }

  lemma WholeLine(e: Entry)
    ensures Pieces(e, 3) == Line(e)
  {
    assert Pieces(e, 1) == e.time;
  }

  lemma LockKeeps(s: State, w: nat, e: Entry, t: State)
    requires Inv(s) && Next(s, Lock(w, e)) == Some(t)
    ensures Inv(t)
  {
    assert t.lines[..|t.lines| - 1] == s.lines;
    assert t.lines[..s.seen] == s.lines[..s.seen];
  }

  /** A piece p goes to the end of the buffer b. */
  lemma Longer(file: string, b: string, whole: string, ps: string, p: string)
    requires file + b == whole + ps
    ensures file + (b + p) == whole + (ps + p)
  {
    assert file + (b + p) == (file + b) + p;
    assert whole + (ps + p) == (whole + ps) + p;
  }

  lemma PrintKeeps(s: State, w: nat, t: State)
    requires Inv(s) && Next(s, Print(w)) == Some(t)
    ensures Inv(t)
  {
    var Writing(e, n, b) := s.writers[w];
    var whole, p := LogText(s.lines[..|s.lines| - 1]), Piece(e, n);
    Longer(s.file, b, whole, Pieces(e, n), p);
    assert Pieces(e, n + 1) == Pieces(e, n) + p;
    assert t.file + t.writers[w].buffer == s.file + (b + p);
  }

  lemma SpillKeeps(s: State, w: nat, n: nat, t: State)
    requires Inv(s) && Next(s, Spill(w, n)) == Some(t)
    ensures Inv(t)
  {
    SpillUnderway(s, w, n, t);
  }

  lemma SpillUnderway(s: State, w: nat, n: nat, t: State)
    requires Underway(s, w) && Next(s, Spill(w, n)) == Some(t)
    ensures Underway(t, w)
  {
    var Writing(e, k, b) := s.writers[w];
    SpillBytes(s.file, b, n);
    assert t.writers[w] == Writing(e, k, b[n..]) && t.lines == s.lines;
  }

  lemma SpillBytes(file: string, b: string, n: nat)
    requires n <= |b|
    ensures (file + b[..n]) + b[n..] == file + b
  {
    assert b == b[..n] + b[n..];
  }

  lemma UnlockKeeps(s: State, w: nat, t: State)
    requires Inv(s) && Next(s, Unlock(w)) == Some(t)
    ensures Inv(t)
  {
    FileWhole(s, w, s.lines[..|s.lines| - 1], s.writers[w].entry);
    assert t.lock == None && t.file == s.file && t.lines == s.lines;
  }

  lemma FileWhole(s: State, w: nat, front: seq<Entry>, e: Entry)
    requires Underway(s, w) && s.writers[w] == Writing(e, 3, "") && front == s.lines[..|s.lines| - 1]
    ensures s.file == LogText(s.lines)
  {
    LineDone(s.file, LogText(front), Pieces(e, 3), front, e);
    assert s.lines == front + [e];
  }

  lemma LineDone(file: string, whole: string, line: string, front: seq<Entry>, e: Entry)
    requires file + "" == whole + line && whole == LogText(front) && line == Pieces(e, 3)
    ensures file == LogText(front + [e])
  {
    WholeLine(e);
    LogTextSnoc(front, e);
    assert file + "" == file;
  }

  lemma ReaderKeeps(s: State, a: Action, t: State)
    requires Inv(s) && (a.Open? || a.Read? || a.Close?) && Next(s, a) == Some(t)
    ensures Inv(t)
  {
    assert s.lines[..|s.lines|] == s.lines;
  }

  lemma StepKeepsInv(s: State, a: Action, t: State)
    requires Inv(s) && Next(s, a) == Some(t)
    ensures Inv(t)
  {
    match a {
      case Lock(w, e) => LockKeeps(s, w, e, t);
      case Print(w) => PrintKeeps(s, w, t);
      case Spill(w, n) => SpillKeeps(s, w, n, t);
      case Unlock(w) => UnlockKeeps(s, w, t);
      case _ => ReaderKeeps(s, a, t);
    }
  }

  lemma RunInv(states: seq<State>, actions: seq<Action>, i: nat)
    requires Run(states, actions) && i <= |actions|
    ensures Inv(states[i])
  {
    var next := (s: State, a: Action, t: State) => Next(s, a) == Some(t);
    var inv := (s: State) => Inv(s);
    forall s, a, t | inv(s) && next(s, a, t) ensures inv(t) {
      StepKeepsInv(s, a, t);
    }
    HoldsThroughout(next, inv, states, actions, i);
  }

  // ---------- theorems ----------

  /** However clients and auditor interleave and whenever buffers are emptied: while nobody holds
      the lock, the file is the whole lines of all events, in the order in which the lock was taken. */
  lemma WholeLines(states: seq<State>, actions: seq<Action>, i: nat)
    requires Run(states, actions) && i <= |actions| && states[i].lock == None
    ensures states[i].file == LogText(states[i].lines)
  {
    RunInv(states, actions, i);
  }

  /** What the auditor has read when it is done is a log of whole lines, and parsing it gives the
      records of all events logged before it took the lock, exactly when none of these holds a line
      feed, or a comma in its time or name. */
  lemma AuditorSeesRecords(states: seq<State>, actions: seq<Action>, i: nat)
    requires Run(states, actions) && i <= |actions| && states[i].reader.Done?
    ensures var s := states[i];
      && s.seen <= |s.lines| && s.reader.got == LogText(s.lines[..s.seen])
      && (ParseLog(s.reader.got) == Some(RecordsOf(s.lines[..s.seen])) <==> AllOneLine(s.lines[..s.seen]) && AllCommaFree(s.lines[..s.seen]))
  {
    RunInv(states, actions, i);
    var s := states[i];
    LogRoundTrip(s.lines[..s.seen], "");
    assert s.reader.got + "" == s.reader.got;
  }

  // ---------- everybody gets done ----------

  /** The state after some actions, if all of them can be taken. */
  function After(s: State, actions: seq<Action>): Option<State>
    decreases |actions|
  {
    if actions == [] then Some(s)
    else match Next(s, actions[0])
      case None => None
      case Some(t) => After(t, actions[1..])
  }

  /** An action of the one who has the lock. */
  predicate By(h: Holder, a: Action) {
    match a
    case Print(w) => h == Client(w)
    case Spill(w, _) => h == Client(w)
    case Unlock(w) => h == Client(w)
    case Read => h == Auditor
    case Close => h == Auditor
    case _ => false
  }

  /** By its own actions alone, which are these, h leaves the lock free and the file whole. */
  ghost predicate Completes(s: State, h: Holder, actions: seq<Action>) {
    && (forall i | 0 <= i < |actions| :: By(h, actions[i]))
    && After(s, actions).Some?
    && var t := After(s, actions).value;
    t.lock == None && t.lines == s.lines && t.file == LogText(s.lines) && (h == Auditor ==> t.reader == Done(t.file))
  }

  lemma OneFirst(s: State, h: Holder, a: Action, t: State, actions: seq<Action>)
    requires By(h, a) && Next(s, a) == Some(t) && t.lines == s.lines && Completes(t, h, actions)
    ensures Completes(s, h, [a] + actions)
  {
    assert ([a] + actions)[1..] == actions;
  }

  lemma {:induction false} AuditorDone(s: State) returns (actions: seq<Action>)
    requires Inv(s) && s.lock == Some(Auditor)
    ensures Completes(s, Auditor, actions)
    decreases |s.file| - |s.reader.got|
  {
    var a := if |s.reader.got| < |s.file| then Read else Close;
    var t := Next(s, a).value;
    ReaderKeeps(s, a, t);
    actions := [];
    if a == Read {
      actions := AuditorDone(t);
    }
    OneFirst(s, Auditor, a, t, actions);
    actions := [a] + actions;
  }

  lemma {:induction false} ClientDone(s: State, w: nat) returns (actions: seq<Action>)
    requires Inv(s) && s.lock == Some(Client(w))
    ensures Completes(s, Client(w), actions)
    decreases 3 - s.writers[w].pieces, |s.writers[w].buffer|
  {
    var Writing(e, n, b) := s.writers[w];
    var a := if n < 3 then Print(w) else if b != "" then Spill(w, |b|) else Unlock(w);
    var t := Next(s, a).value;
    StepKeepsInv(s, a, t);
    actions := [];
    if a != Unlock(w) {
      actions := ClientDone(t, w);
    }
    OneFirst(s, Client(w), a, t, actions);
    actions := [a] + actions;
  }

  /** Whoever has the lock can always finish without anybody else's help; an auditor has then read
      the whole file. */
  lemma LockReleased(states: seq<State>, actions: seq<Action>, i: nat)
    requires Run(states, actions) && i <= |actions| && states[i].lock.Some?
    ensures exists more :: Completes(states[i], states[i].lock.value, more)
  {
    RunInv(states, actions, i);
    var more: seq<Action>;
    match states[i].lock.value {
      case Client(w) => more := ClientDone(states[i], w);
      case Auditor => more := AuditorDone(states[i]);
    }
    assert Completes(states[i], states[i].lock.value, more);
  }
}

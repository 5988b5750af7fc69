/** What the server does with the commands of its sessions: who gets which message, whose account
    goes offline, and which descriptor is closed. */
module LoginCommands {
  import opened Wrappers
  import opened Sequences
  import opened Accounts
  import opened AtomicAccounts
  import opened Text
  import opened Wire
  import opened LoginServer
  import opened LoginSafety
  import opened LoginSteps
  import opened LoginHistory
  import opened LoginRuns
  import opened LoginTheorems

  // ---------- what is written ----------

  /** The output of fd grows by ms, and no other does. */
  ghost predicate OnlyGrows(o: map<int, seq<Msg>>, n: map<int, seq<Msg>>, fd: int, ms: seq<Msg>) {
    fd in o && n.Keys == o.Keys && forall f <- o :: n[f] == if f == fd then o[f] + ms else o[f]
  }

  ghost predicate Different(fds: seq<int>) {
    forall i, j | 0 <= i < j < |fds| :: fds[i] != fds[j]
  }

  lemma {:induction false} WriteEachOnce(o: map<int, seq<Msg>>, fds: seq<int>, m: Msg)
    requires Different(fds)
    ensures var n := WriteEach(o, fds, m); n.Keys == o.Keys && forall f <- o :: n[f] == if f in fds then o[f] + [m] else o[f]
    decreases |fds|
  {
    if fds != [] {
      var w := WriteTo(o, fds[0], [m]);
      WriteEachOnce(w, fds[1..], m);
      assert fds == [fds[0]] + fds[1..];
      forall f | f in o ensures WriteEach(o, fds, m)[f] == if f in fds then o[f] + [m] else o[f] {
        if f == fds[0] {
          assert f !in fds[1..];
        }
      }
    }
  }

  lemma {:induction false} FdsDistinct(v: seq<User>)
    requires forall i, j | 0 <= i < j < |v| && v[i].connected && v[j].connected :: v[i].fd != v[j].fd
    ensures Different(ConnectedFds(v))
  {
    if v != [] {
      forall i, j | 0 <= i < j < |v[1..]| && v[1..][i].connected && v[1..][j].connected ensures v[1..][i].fd != v[1..][j].fd {
        assert v[1..][i] == v[i + 1] && v[1..][j] == v[j + 1];
      }
      FdsDistinct(v[1..]);
      var rest := ConnectedFds(v[1..]);
      forall j | 0 <= j < |rest| && v[0].connected ensures rest[j] != v[0].fd {
        assert rest[j] in rest;
        var i :| 0 <= i < |v[1..]| && v[1..][i].connected && v[1..][i].fd == rest[j] && rest[j] != -1;
        assert v[1..][i] == v[i + 1];
      }
    }
  }

  /** Somebody is connected on fd. */
  ghost predicate InUse(s: State, fd: int) {
    exists p: Ptr :: Online(s, p, fd)
  }

  /** Everybody who is connected gets the message once, and nobody else. */
  lemma BroadcastReaches(s: State, m: Msg)
    requires ListInv(s) && SessionInv(s) && DescriptorInv(s)
    ensures var n := Broadcast(s, m).out;
      n.Keys == s.out.Keys && forall f <- s.out :: n[f] == if InUse(s, f) then s.out[f] + [m] else s.out[f]
  {
    var v := View(s);
    forall i, j | 0 <= i < j < |v| && v[i].connected && v[j].connected ensures v[i].fd != v[j].fd {
      assert s.list[i] < |s.users| && s.list[j] < |s.users|;
      assert s.book.claim[v[i].fd] == Session(s.list[i]) && s.book.claim[v[j].fd] == Session(s.list[j]);
      assert s.users[s.list[i]].name != s.users[s.list[j]].name;
    }
    FdsDistinct(v);
    WriteEachOnce(s.out, ConnectedFds(v), m);
    forall f | f in s.out ensures f in ConnectedFds(v) <==> InUse(s, f) {
      InUseListed(s, f);
    }
  }

  lemma InUseListed(s: State, f: int)
    requires ListInv(s) && SessionInv(s) && DescriptorInv(s)
    ensures f in ConnectedFds(View(s)) <==> InUse(s, f)
  {
    var v := View(s);
    if f in ConnectedFds(v) {
      var i :| 0 <= i < |v| && v[i].connected && v[i].fd == f && f != -1;
      assert Online(s, s.list[i], f);
    }
    if p: Ptr :| Online(s, p, f) {
      var i :| 0 <= i < |s.list| && s.list[i] == p;
      assert v[i].connected && v[i].fd == f && f in s.open;
    }
  }

  // ---------- the thread between two of its steps ----------

  predicate OfThread(e: Event) {
    e.ThreadRead? || e.ThreadGo?
  }

  /** Between its steps i and j the accept/select thread takes none. */
  predicate MainRests(events: seq<Event>, i: nat, j: nat)
    requires j <= |events|
  {
    forall m {:trigger events[m]} | i <= m < j :: OfThread(events[m])
  }

  /** What the login threads leave alone: the place of the accept/select thread, the connected
      records, and the names in the list. */
  ghost predicate Rested(s: State, t: State) {
    && t.main == s.main
    && (forall p: Ptr | p < |s.users| && s.users[p].connected :: p < |t.users| && t.users[p] == s.users[p])
    && (forall p: Ptr | p in s.list && p < |s.users| :: p in t.list && p < |t.users| && t.users[p].name == s.users[p].name)
  }

  lemma ThreadRests(env: Env, s: State, e: Event, t: State)
    requires Core(env, s) && OfThread(e) && Step(env, s, e, t)
    ensures Rested(s, t)
  {
    StepExtends(env, s, e, t);
    assert PcOk(env, s, e.k, s.logins[e.k]);
    if e.ThreadGo? {
      ThreadKeepsConnected(env, s, e.k, t);
    } else {
      ReaderKeepsConnected(env, s, e.k, e.frame, e.salt, t);
    }
  }

  lemma RestsAt(env: Env, states: seq<State>, events: seq<Event>, i: nat)
    requires QuietRun(env, states, events) && i < |events| && OfThread(events[i])
    ensures Rested(states[i], states[i + 1])
  {
    RunInv(env, states, events, i);
    assert StepAt(env, states, events, i);
    ThreadRests(env, states[i], events[i], states[i + 1]);
  }

  lemma {:induction false} RestsFor(env: Env, states: seq<State>, events: seq<Event>, i: nat, j: nat)
    requires QuietRun(env, states, events) && i <= j <= |events| && MainRests(events, i, j)
    ensures Rested(states[i], states[j])
    decreases j
  {
    if i < j {
      RestsFor(env, states, events, i, j - 1);
      RestsAt(env, states, events, j - 1);
      RestedChain(states[i], states[j - 1], states[j]);
    }
  }

  lemma RestedChain(s: State, t: State, u: State)
    requires Rested(s, t) && Rested(t, u)
    ensures Rested(s, u)
  {
  }

  lemma OnlineStays(s: State, t: State, p: Ptr, fd: int)
    requires Rested(s, t) && Online(s, p, fd)
    ensures Online(t, p, fd) && t.users[p].name == s.users[p].name
  {
  }

  // ---------- one command ----------

  /** What a command of the session on fd does, from s to t. */
  ghost predicate Answered(s: State, fd: int, frame: string, seconds: string, t: State) {
    var verb := Token(Tokens(frame), 0);
    if frame != "" && verb == "TIME" then OnlyGrows(s.out, t.out, fd, [Emit(seconds)]) && t.main == Select
    else if frame != "" && verb == "LISTU" then
      exists names ::
        && OnlyGrows(s.out, t.out, fd, [Utsil(names)]) && t.main == Select && s.owner == None
        && PickedFrom(View(s), (u: User) => u.connected, (u: User) => u.name, names)
    else if frame != "" && verb == "BYE" then
      OnlyGrows(s.out, t.out, fd, [Bye]) && exists p: Ptr :: Online(s, p, fd) && t.main == ByeLookup(p, fd)
    else
      t.out == s.out && match t.main
      case RelayMsg(f, _, _, text) => frame != "" && verb == "MSG" && f == fd && text == frame
      case CrashLookup(p) => frame == "" && Online(s, p, fd)
      case Select => frame != "" && verb != "MSG"
      case _ => false
  }

  lemma CommandAnswers(env: Env, s: State, p: Ptr, fd: int, frame: string, seconds: string, t: State)
    requires Core(env, s) && s.main == Command(p) && Online(s, p, fd) && ServeStep(s, frame, seconds) == Some(t)
    ensures Answered(s, fd, frame, seconds, t)
  {
    assert fd in s.open && fd in s.out;
    var verb := Token(Tokens(frame), 0);
    if frame == "" || (verb != "TIME" && verb != "LISTU" && verb != "BYE") {
      NothingWritten(s, frame, seconds, t);
    } else if verb == "LISTU" {
      ListAnswers(s, fd, frame, seconds, t);
    }
  }

  lemma ListAnswers(s: State, fd: int, frame: string, seconds: string, t: State)
    requires s.main.Command? && UserAt(s, s.main.u).fd == fd && fd in s.out && ServeStep(s, frame, seconds) == Some(t)
    requires frame != "" && Token(Tokens(frame), 0) == "LISTU"
    ensures Answered(s, fd, frame, seconds, t)
  {
    var names := ConnectedNames(View(s));
    ConnectedNamesExact(View(s));
    assert t == Write(s, fd, [Utsil(names)]).(main := Select) && s.owner == None;
    assert OnlyGrows(s.out, t.out, fd, [Utsil(names)]);
  }

  lemma NothingWritten(s: State, frame: string, seconds: string, t: State)
    requires ServeStep(s, frame, seconds) == Some(t)
    requires var verb := Token(Tokens(frame), 0); frame == "" || (verb != "TIME" && verb != "LISTU" && verb != "BYE")
    ensures t.out == s.out
  {
  }

  /** A readable descriptor is served for the account connected on it, and for no other. */
  lemma ReadableServes(env: Env, s: State, fd: int, t: State)
    requires Core(env, s) && ReadableStep(s, fd) == Some(t)
    ensures forall p: Ptr | Online(s, p, fd) :: t == s.(main := Command(p))
    ensures !InUse(s, fd) ==> t == s
  {
    forall p: Ptr | Online(s, p, fd) ensures t == s.(main := Command(p)) {
      assert LookupFd(s, fd).Some?;
      OwnerUnique(s, p, LookupFd(s, fd).value);
    }
    if LookupFd(s, fd).Some? {
      assert Listed(s, LookupFd(s, fd).value);
      assert Online(s, LookupFd(s, fd).value, fd);
    }
  }

  lemma ReadableAt(env: Env, states: seq<State>, events: seq<Event>, i: nat, p: Ptr, fd: int)
    requires QuietRun(env, states, events) && i < |events| && events[i] == Readable(fd) && Online(states[i], p, fd)
    ensures states[i + 1].main == Command(p) && Online(states[i + 1], p, fd)
  {
    RunInv(env, states, events, i);
    assert StepAt(env, states, events, i);
    ReadableServes(env, states[i], fd, states[i + 1]);
  }

  /** From the moment a session's descriptor is found readable: the next command of the accept/select
      thread is that session's, and is answered to it alone. */
  lemma CommandAnswered(env: Env, states: seq<State>, events: seq<Event>, i: nat, j: nat, p: Ptr, fd: int, frame: string, seconds: string)
    requires QuietRun(env, states, events) && i < j < |events| && MainRests(events, i + 1, j)
    requires events[i] == Readable(fd) && Online(states[i], p, fd) && events[j] == ServeRead(frame, seconds)
    ensures Online(states[j], p, fd) && Answered(states[j], fd, frame, seconds, states[j + 1])
  {
    RunInv(env, states, events, j);
    ReadableAt(env, states, events, i, p, fd);
    RestsFor(env, states, events, i + 1, j);
    OnlineStays(states[i + 1], states[j], p, fd);
    assert StepAt(env, states, events, j);
    CommandAnswers(env, states[j], p, fd, frame, seconds, states[j + 1]);
  }

  // ---------- relayed messages ----------

  /** Where the account of that name is connected in s, if there was such an account in s0. */
  function SessionOf(s0: State, s: State, name: string): Option<int> {
    var t0, t := TableOf(View(s0)), TableOf(View(s));
    if name in t0 && name in t then t[name].session else None
  }

  /** The message goes to both, or an error to its sender. */
  ghost predicate Delivered(o: map<int, seq<Msg>>, n: map<int, seq<Msg>>, sender: int, frame: string, to: Option<int>, from: Option<int>) {
    if to.Some? && from.Some? then
      n.Keys == o.Keys && forall f <- o ::
        n[f] == o[f] + (if f == to.value then [Relay(frame)] else []) + (if f == from.value then [Relay(frame)] else [])
    else OnlyGrows(o, n, sender, [Err(1)])
  }

  lemma LookupInTable(s: State, name: string)
    requires ListInv(s)
    ensures Lookup(s, name).Some? <==> name in TableOf(View(s))
  {
    match Lookup(s, name) {
      case Some(p) =>
        assert Listed(s, p);
        ListedEntry(s, p);
      case None =>
        assert Unlisted(s, name);
        UnlistedEntry(s, name);
    }
  }

  lemma SessionIs(s0: State, s: State, p: Ptr, name: string)
    requires ListInv(s) && SessionInv(s) && Listed(s, p) && s.users[p].name == name && name in TableOf(View(s0))
    ensures SessionOf(s0, s, name) == if s.users[p].connected then Some(s.users[p].fd) else None
  {
    ListedEntry(s, p);
  }

  lemma RelayStep(s0: State, s: State, fd: int, frame: string, t: State)
    requires ListInv(s0) && ListInv(s) && SessionInv(s) && DescriptorInv(s) && MainInv(s) && fd in s.out
    requires s.main == RelayMsg(fd, Lookup(s0, Token(Tokens(frame), 1)), Lookup(s0, Token(Tokens(frame), 2)), frame)
    requires MainStep(s) == Some(t)
    ensures Delivered(s.out, t.out, fd, frame, SessionOf(s0, s, Token(Tokens(frame), 1)), SessionOf(s0, s, Token(Tokens(frame), 2)))
    ensures t.main == Select
  {
    var to, from := Token(Tokens(frame), 1), Token(Tokens(frame), 2);
    FoundSession(s0, s, s.main.to, to);
    FoundSession(s0, s, s.main.from, from);
    RelayWrites(s, fd, s.main.to, s.main.from, frame, t);
  }

  /** The descriptor a relay writes to for a pointer it has looked up. */
  function Reached(s: State, p: Option<Ptr>): Option<int> {
    if p.Some? && UserAt(s, p.value).connected then Some(UserAt(s, p.value).fd) else None
  }

  lemma FoundSession(s0: State, s: State, p: Option<Ptr>, name: string)
    requires ListInv(s0) && ListInv(s) && SessionInv(s) && p == Lookup(s0, name)
    requires p.Some? ==> Listed(s, p.value) && s.users[p.value].name == name
    ensures SessionOf(s0, s, name) == Reached(s, p)
  {
    LookupInTable(s0, name);
    if p.Some? {
      SessionIs(s0, s, p.value, name);
    }
  }

  lemma RelayWrites(s: State, fd: int, to: Option<Ptr>, from: Option<Ptr>, frame: string, t: State)
    requires s.main == RelayMsg(fd, to, from, frame) && fd in s.out && MainStep(s) == Some(t)
    ensures Delivered(s.out, t.out, fd, frame, Reached(s, to), Reached(s, from)) && t.main == Select
  {
    if Reached(s, to).Some? && Reached(s, from).Some? {
      var w := WriteTo(s.out, Reached(s, to).value, [Relay(frame)]);
      assert t.out == WriteTo(w, Reached(s, from).value, [Relay(frame)]);
    }
  }

  /** A MSG goes, as it was read, to the connections of the account it names first and of the one it
      names second, as these stand when it is relayed, and to no other; unless one of them was no
      account when the message was read, or is not connected: then its sender is told 01, and nobody
      anything else. */
  lemma RelayDelivered(env: Env, states: seq<State>, events: seq<Event>, j: nat, k: nat, p: Ptr, fd: int, frame: string, seconds: string)
    requires QuietRun(env, states, events) && j < k < |events| && MainRests(events, j + 1, k)
    requires states[j].main == Command(p) && Online(states[j], p, fd) && events[j] == ServeRead(frame, seconds) && events[k] == MainGo
    requires frame != "" && Token(Tokens(frame), 0) == "MSG"
    ensures Delivered(states[k].out, states[k + 1].out, fd, frame,
              SessionOf(states[j], states[k], Token(Tokens(frame), 1)), SessionOf(states[j], states[k], Token(Tokens(frame), 2)))
    ensures states[k + 1].main == Select
  {
    MsgReadAt(env, states, events, j, p, fd, frame, seconds);
    RestsFor(env, states, events, j + 1, k);
    OnlineStays(states[j + 1], states[k], p, fd);
    RelayedAt(env, states, events, k, states[j], p, fd, frame);
  }

  lemma MsgReadAt(env: Env, states: seq<State>, events: seq<Event>, j: nat, p: Ptr, fd: int, frame: string, seconds: string)
    requires QuietRun(env, states, events) && j < |events| && states[j].main == Command(p) && Online(states[j], p, fd)
    requires events[j] == ServeRead(frame, seconds) && frame != "" && Token(Tokens(frame), 0) == "MSG"
    ensures states[j + 1].main == RelayMsg(fd, Lookup(states[j], Token(Tokens(frame), 1)), Lookup(states[j], Token(Tokens(frame), 2)), frame)
    ensures Online(states[j + 1], p, fd) && Inv(env, states[j])
  {
    RunInv(env, states, events, j);
    assert StepAt(env, states, events, j);
    MsgRead(states[j], frame, seconds, states[j + 1]);
  }

  lemma RelayedAt(env: Env, states: seq<State>, events: seq<Event>, k: nat, s0: State, p: Ptr, fd: int, frame: string)
    requires QuietRun(env, states, events) && k < |events| && events[k] == MainGo && Inv(env, s0) && Online(states[k], p, fd)
    requires states[k].main == RelayMsg(fd, Lookup(s0, Token(Tokens(frame), 1)), Lookup(s0, Token(Tokens(frame), 2)), frame)
    ensures Delivered(states[k].out, states[k + 1].out, fd, frame,
              SessionOf(s0, states[k], Token(Tokens(frame), 1)), SessionOf(s0, states[k], Token(Tokens(frame), 2)))
    ensures states[k + 1].main == Select
  {
    RunInv(env, states, events, k);
    assert StepAt(env, states, events, k);
    RelayAt(env, s0, states[k], p, fd, frame, states[k + 1]);
  }

  lemma RelayAt(env: Env, s0: State, s: State, p: Ptr, fd: int, frame: string, t: State)
    requires Inv(env, s0) && Inv(env, s) && Online(s, p, fd) && MainStep(s) == Some(t)
    requires s.main == RelayMsg(fd, Lookup(s0, Token(Tokens(frame), 1)), Lookup(s0, Token(Tokens(frame), 2)), frame)
    ensures Delivered(s.out, t.out, fd, frame, SessionOf(s0, s, Token(Tokens(frame), 1)), SessionOf(s0, s, Token(Tokens(frame), 2)))
    ensures t.main == Select
  {
    assert fd in s.open;
    RelayStep(s0, s, fd, frame, t);
  }

  lemma MsgRead(s: State, frame: string, seconds: string, t: State)
    requires ServeStep(s, frame, seconds) == Some(t) && frame != "" && Token(Tokens(frame), 0) == "MSG"
    ensures s.main.Command?
    ensures t == s.(main := RelayMsg(UserAt(s, s.main.u).fd, Lookup(s, Token(Tokens(frame), 1)), Lookup(s, Token(Tokens(frame), 2)), frame))
  {
  }

  // ---------- who is told that somebody left ----------

  /** Everybody connected in s is told m, once, and nobody else. */
  ghost predicate Told(s: State, t: State, m: Msg) {
    t.out.Keys == s.out.Keys && forall f <- s.out :: t.out[f] == if InUse(s, f) then s.out[f] + [m] else s.out[f]
  }

  /** The record whose name a step is about to broadcast. */
  function Leaver(s: State, e: Event): Option<Ptr> {
    match e
    case MainGo => if s.main.ByeCast? || s.main.CrashCast? then Some(s.main.r) else None
    case ThreadGo(k) => if k < |s.logins| && s.logins[k].DropCast? then Some(s.logins[k].u) else None
    case _ => None
  }

  lemma UoffReaches(env: Env, states: seq<State>, events: seq<Event>, i: nat)
    requires QuietRun(env, states, events) && i < |events| && Leaver(states[i], events[i]).Some?
    ensures Told(states[i], states[i + 1], Uoff(UserAt(states[i], Leaver(states[i], events[i]).value).name))
  {
    RunInv(env, states, events, i);
    assert StepAt(env, states, events, i);
    UoffStep(env, states[i], events[i], states[i + 1]);
  }

  lemma UoffStep(env: Env, s: State, e: Event, t: State)
    requires Core(env, s) && Next(env, s, e) == Some(t) && Leaver(s, e).Some?
    ensures Told(s, t, Uoff(UserAt(s, Leaver(s, e).value).name)) && t.open == s.open
  {
    BroadcastReaches(s, Uoff(UserAt(s, Leaver(s, e).value).name));
  }

  // ---------- leaving ----------

  /** The account of that name goes offline, from descriptor fd, and no account changes otherwise. */
  ghost predicate LogsOut(s: State, t: State, name: string, fd: int) {
    var a, b := TableOf(View(s)), TableOf(View(t));
    name in a && a[name].session == Some(fd) && b == a[name := a[name].(session := None)]
  }

  lemma DisconnectLogsOut(env: Env, s: State, t: State, r: Ptr)
    requires ListInv(s) && SessionInv(s) && MainInv(s) && MainStep(s) == Some(t)
    requires (s.main.ByeDisconnect? || s.main.CrashDisconnect?) && s.main.r == r
    ensures Listed(s, r) && LogsOut(s, t, s.users[r].name, s.users[r].fd) && t.out == s.out && t.open == s.open
  {
    DisconnectEffect(s, t);
    LogoutApplied(env, s, t, r);
  }

  /** Where the accept/select thread stands after a BYE from u on fd. */
  ghost predicate AfterBye(s: State, u: Ptr, fd: int) {
    match s.main
    case ByeLookup(v, f) => v == u && f == fd
    case ByeDisconnect(v, f) => v == u && f == fd && Online(s, u, fd)
    case ByeCast(v, f) => v == u && f == fd
    case ByeClose(f) => f == fd
    case _ => false
  }

  /** And after the end of its input. */
  ghost predicate AfterEnd(s: State, u: Ptr, fd: int) {
    match s.main
    case CrashLookup(v) => v == u && Online(s, u, fd)
    case CrashDisconnect(v) => v == u && Online(s, u, fd)
    case CrashClose(v) => v == u
    case CrashCast(v) => v == u
    case _ => false
  }

  ghost predicate Leaving(s: State, u: Ptr, fd: int, name: string) {
    (AfterBye(s, u, fd) || AfterEnd(s, u, fd)) && Listed(s, u) && s.users[u].name == name
  }

  lemma LeavingGoesOn(env: Env, s: State, t: State, u: Ptr, fd: int, name: string)
    requires Core(env, s) && Leaving(s, u, fd, name) && MainStep(s) == Some(t)
    ensures t.main != Select ==> Leaving(t, u, fd, name)
  {
    if AfterBye(s, u, fd) {
      ByeGoesOn(s, t, u, fd, name);
    } else {
      EndGoesOn(s, t, u, fd, name);
    }
  }

  lemma ByeGoesOn(s: State, t: State, u: Ptr, fd: int, name: string)
    requires ListInv(s) && SessionInv(s) && DescriptorInv(s) && MainInv(s)
    requires AfterBye(s, u, fd) && Listed(s, u) && s.users[u].name == name && MainStep(s) == Some(t)
    ensures t.main != Select ==> AfterBye(t, u, fd) && Listed(t, u) && t.users[u].name == name
  {
    if s.main.ByeLookup? {
      OwnerUnique(s, u, t.main.r);
    }
  }

  lemma EndGoesOn(s: State, t: State, u: Ptr, fd: int, name: string)
    requires ListInv(s) && AfterEnd(s, u, fd) && Listed(s, u) && s.users[u].name == name && MainStep(s) == Some(t)
    ensures t.main != Select ==> AfterEnd(t, u, fd) && Listed(t, u) && t.users[u].name == name
  {
    if s.main.CrashLookup? {
      NameUnique(s, u, t.main.r);
    }
  }

  lemma LeavingRests(s: State, t: State, u: Ptr, fd: int, name: string)
    requires Rested(s, t) && Leaving(s, u, fd, name)
    ensures Leaving(t, u, fd, name)
  {
  }

  lemma LeavingStep(env: Env, s: State, e: Event, t: State, u: Ptr, fd: int, name: string)
    requires Core(env, s) && Leaving(s, u, fd, name) && Step(env, s, e, t) && t.main != Select
    ensures Leaving(t, u, fd, name)
  {
    if OfThread(e) {
      ThreadRests(env, s, e, t);
      LeavingRests(s, t, u, fd, name);
    } else {
      LeavingGoesOn(env, s, t, u, fd, name);
    }
  }

  /** The command is BYE, or there is none any more. */
  predicate Leaves(frame: string) {
    frame == "" || Token(Tokens(frame), 0) == "BYE"
  }

  lemma LeavingBegins(env: Env, s: State, p: Ptr, fd: int, frame: string, seconds: string, t: State)
    requires Core(env, s) && s.main == Command(p) && Online(s, p, fd) && ServeStep(s, frame, seconds) == Some(t) && Leaves(frame)
    ensures Leaving(t, p, fd, s.users[p].name)
  {
  }

  lemma LeavingAt(env: Env, states: seq<State>, events: seq<Event>, i: nat, u: Ptr, fd: int, name: string)
    requires QuietRun(env, states, events) && i < |events| && Leaving(states[i], u, fd, name) && states[i + 1].main != Select
    ensures Leaving(states[i + 1], u, fd, name)
  {
    RunInv(env, states, events, i);
    assert StepAt(env, states, events, i);
    LeavingStep(env, states[i], events[i], states[i + 1], u, fd, name);
  }

  lemma BeginsAt(env: Env, states: seq<State>, events: seq<Event>, i: nat, p: Ptr, fd: int, frame: string, seconds: string)
    requires QuietRun(env, states, events) && i < |events| && events[i] == ServeRead(frame, seconds) && Leaves(frame)
    requires states[i].main == Command(p) && Online(states[i], p, fd)
    ensures Leaving(states[i + 1], p, fd, states[i].users[p].name)
  {
    RunInv(env, states, events, i);
    assert StepAt(env, states, events, i);
    LeavingBegins(env, states[i], p, fd, frame, seconds, states[i + 1]);
  }

  lemma {:induction false} StillLeaving(env: Env, states: seq<State>, events: seq<Event>, i: nat, k: nat, p: Ptr, fd: int, name: string)
    requires QuietRun(env, states, events) && i <= k <= |events| && Leaving(states[i], p, fd, name)
    requires forall m | i <= m <= k :: states[m].main != Select
    ensures Leaving(states[k], p, fd, name)
    decreases k
  {
    if i < k {
      StillLeaving(env, states, events, i, k - 1, p, fd, name);
      LeavingAt(env, states, events, k - 1, p, fd, name);
    }
  }

  /** What each step of the accept/select thread does for a session that leaves. */
  ghost predicate LeaveServed(s: State, u: Ptr, fd: int, name: string, t: State) {
    match s.main
    case ByeLookup(_, _) => t == s.(main := ByeDisconnect(u, fd))
    case ByeDisconnect(_, _) => LogsOut(s, t, name, fd) && t.out == s.out && t.open == s.open && t.main == ByeCast(u, fd)
    case ByeCast(_, _) => Told(s, t, Uoff(name)) && t.open == s.open && t.main == ByeClose(fd)
    case ByeClose(_) => t.open == s.open - {fd} && t.out == s.out - {fd} && t.main == Select
    case CrashLookup(_) => t == s.(main := CrashDisconnect(u))
    case CrashDisconnect(_) => LogsOut(s, t, name, fd) && t.out == s.out && t.open == s.open && t.main == CrashClose(u)
    case CrashClose(_) => t.open == s.open && t.out == s.out && t.main == CrashCast(u)
    case CrashCast(_) => Told(s, t, Uoff(name)) && t.open == s.open && t.main == Select
    case _ => false
  }

  lemma ServesLeave(env: Env, s: State, t: State, u: Ptr, fd: int, name: string)
    requires Core(env, s) && Leaving(s, u, fd, name) && MainStep(s) == Some(t) && Undisturbed(s, MainGo)
    ensures LeaveServed(s, u, fd, name, t)
  {
    match s.main {
      case ByeLookup(_, _) => OwnerUnique(s, u, t.main.r);
      case CrashLookup(_) => NameUnique(s, u, t.main.r);
      case ByeDisconnect(_, _) => DisconnectLogsOut(env, s, t, u);
      case CrashDisconnect(_) => DisconnectLogsOut(env, s, t, u);
      case ByeCast(_, _) => UoffStep(env, s, MainGo, t);
      case CrashCast(_) => UoffStep(env, s, MainGo, t);
      case _ =>
    }
  }

  /** From the BYE of a session, or the end of its input, until the accept/select thread turns to
      other things, each of its steps serves that leave: the account logs out from its descriptor,
      everybody connected is told its name, and after a BYE its descriptor and no other is closed. */
  lemma LeaveIsServed(env: Env, states: seq<State>, events: seq<Event>, i: nat, k: nat, p: Ptr, fd: int, frame: string, seconds: string)
    requires QuietRun(env, states, events) && i < k < |events| && events[i] == ServeRead(frame, seconds) && Leaves(frame) && events[k] == MainGo
    requires states[i].main == Command(p) && Online(states[i], p, fd)
    requires forall m | i < m <= k :: states[m].main != Select
    ensures LeaveServed(states[k], p, fd, states[i].users[p].name, states[k + 1])
  {
    var name := states[i].users[p].name;
    BeginsAt(env, states, events, i, p, fd, frame, seconds);
    StillLeaving(env, states, events, i + 1, k, p, fd, name);
    RunInv(env, states, events, k);
    assert StepAt(env, states, events, k);
    ServesLeave(env, states[k], states[k + 1], p, fd, name);
  }

  // ---------- the mutex ----------

  /** Something the mutex protects changes: queue, list, the mutex itself, or a record that exists. */
  ghost predicate Protected(s: State, t: State) {
    t.queue != s.queue || t.list != s.list || t.owner != s.owner || exists p: Ptr :: p < |s.users| && (p < |t.users| ==> t.users[p] != s.users[p])
  }

  /** It changes only by a thread that has the mutex, or takes it while it is free. */
  lemma MutexProtects(env: Env, s: State, e: Event, t: State)
    requires Core(env, s) && Next(env, s, e) == Some(t) && Protected(s, t)
    ensures match e
            case MainGo => s.owner == None
            case ThreadGo(k) => MayLock(s, k)
            case ThreadRead(k, _, _) => s.owner == Some(k)
            case _ => false
  {
    match e {
      case ThreadGo(k) =>
        if !MayLock(s, k) {
          GoProtects(env, s, k, t);
        }
      case ThreadRead(k, frame, salt) =>
        assert Holds(s.logins[k]) <==> s.owner == Some(k);
        ReadProtects(env, s, k, frame, salt, t);
      case MainGo =>
        if s.owner.Some? {
          MainProtects(s, t);
        }
      case ServeRead(frame, seconds) => ServeProtects(s, frame, seconds, t);
      case _ =>
    }
  }

  lemma MainProtects(s: State, t: State)
    requires MainStep(s) == Some(t) && s.owner.Some?
    ensures t.queue == s.queue && t.list == s.list && t.owner == s.owner && t.users == s.users
  {
  }

  lemma ServeProtects(s: State, frame: string, seconds: string, t: State)
    requires ServeStep(s, frame, seconds) == Some(t)
    ensures t.queue == s.queue && t.list == s.list && t.owner == s.owner && t.users == s.users
  {
  }

  lemma GoProtects(env: Env, s: State, k: nat, t: State)
    requires ThreadInv(env, s) && k < |s.logins| && ThreadStep(env, s, k) == Some(t) && !MayLock(s, k)
    ensures t.queue == s.queue && t.list == s.list && t.owner == s.owner && t.users == s.users
  {
    assert Holds(s.logins[k]) <==> s.owner == Some(k);
  }

  lemma ReadProtects(env: Env, s: State, k: nat, frame: string, salt: string, t: State)
    requires k < |s.logins| && ReadStep(env, s, k, frame, salt) == Some(t)
    ensures t.queue == s.queue && t.list == s.list && t.owner == s.owner
    ensures !s.logins[k].AwaitNewPass? ==> t.users == s.users
  {
  }
}

/** Both ends of a login agree on its outcome, and neither waits for the other in vain. */
module HandshakeTheorems {
  import opened Wrappers
  import opened Sequences
  import opened Accounts
  import opened Text
  import opened Wire
  import opened LoginServer
  import opened LoginSafety
  import opened LoginSteps
  import opened LoginRuns
  import opened LoginClient
  import opened Handshake
  import opened HandshakeFrames
  import opened HandshakeSteps

  /** Server and client are in step. */
  ghost predicate InStep(env: Env, d: Duo) {
    Inv(env, d.server) && Talk(d.server, d.fd, d.client) && Typed(d.client)
  }

  lemma StartTalks(env: Env, motd: string, states: seq<State>, events: seq<Event>, ds: seq<Duo>, es: seq<DuoEvent>)
    requires DuoRun(env, motd, states, events, ds, es)
    ensures InStep(env, ds[0])
  {
    var d, n := ds[0], |events|;
    RunInv(env, states, events, n);
    RunInv(env, states, events, n - 1);
    assert StepAt(env, states, events, n - 1);
    AcceptedTalks(env, states[n - 1], d);
  }

  lemma AcceptedTalks(env: Env, s: State, d: Duo)
    requires AcceptStep(env, s, d.fd) == Some(d.server) && d.client.pc == SendHello && d.client.sent == "" && d.client.got == 0
    ensures Talk(d.server, d.fd, d.client)
  {
  }

  lemma DuoStepKeeps(env: Env, motd: string, d: Duo, e: DuoEvent, n: Duo)
    requires InStep(env, d) && DuoStep(env, motd, d, e, n)
    ensures InStep(env, n)
  {
    if e.ServerDoes? {
      StepKeepsInv(env, d.server, e.e, n.server);
    }
    StepTalks(env, motd, d, e, n);
    StillTyped(env, motd, d, e, n);
  }

  lemma StepsTalk(env: Env, motd: string, ds: seq<Duo>, es: seq<DuoEvent>, i: nat)
    requires DuoSteps(env, motd, ds, es) && InStep(env, ds[0]) && i <= |es|
    ensures InStep(env, ds[i])
  {
    var next := (d: Duo, e: DuoEvent, n: Duo) => DuoStep(env, motd, d, e, n);
    var inv := (d: Duo) => InStep(env, d);
    forall d, e, n | inv(d) && next(d, e, n) ensures inv(n) {
      DuoStepKeeps(env, motd, d, e, n);
    }
    HoldsThroughout(next, inv, ds, es, i);
  }

  lemma DuoTalks(env: Env, motd: string, states: seq<State>, events: seq<Event>, ds: seq<Duo>, es: seq<DuoEvent>, i: nat)
    requires DuoRun(env, motd, states, events, ds, es) && i <= |es|
    ensures InStep(env, ds[i])
  {
    StartTalks(env, motd, states, events, ds, es);
    StepsTalk(env, motd, ds, es, i);
  }

  lemma StillTyped(env: Env, motd: string, d: Duo, e: DuoEvent, n: Duo)
    requires Typed(d.client) && DuoStep(env, motd, d, e, n)
    ensures n.client.name == d.client.name && n.client.password == d.client.password && n.client.isNew == d.client.isNew
    ensures Typed(n.client)
  {
  }

  // ---------- agreement ----------

  /** Account a is connected on fd, and its name is what was typed, blanks around it aside. */
  ghost predicate LoggedInAs(s: State, a: Ptr, fd: int, typed: string) {
    Online(s, a, fd) && Tokens(typed) == [s.users[a].name] && (IsWord(typed) ==> s.users[a].name == typed)
  }

  lemma InSessionOnline(s: State, fd: int, c: Client) returns (a: Ptr)
    requires Talk(s, fd, c) && c.pc.InSession?
    ensures LoggedInAs(s, a, fd, c.name) && fd in s.book.claim && s.book.claim[fd] == Session(a)
  {
    assert s.book.claim[fd].Session?;
    a := s.book.claim[fd].a;
    if IsWord(c.name) {
      TokensOfWord(c.name);
    }
  }

  /** In every reachable state in which the client has left the dialogue, it is in its session if
      and only if the server has an account connected on its descriptor under the name it gave;
      otherwise it has read ERR and then BYE, and nobody is connected on its descriptor. */
  lemma Agreement(env: Env, motd: string, states: seq<State>, events: seq<Event>, ds: seq<Duo>, es: seq<DuoEvent>, i: nat)
    requires DuoRun(env, motd, states, events, ds, es) && i <= |es|
    ensures var s, c, fd := ds[i].server, ds[i].client, ds[i].fd;
      && (Finished(c.pc) ==> (c.pc.InSession? <==> exists a: Ptr :: LoggedInAs(s, a, fd, c.name)))
      && (c.pc.LoggedOut? ==> c.pc.error.Err? && c.pc.bye == Bye && forall a: Ptr :: !Online(s, a, fd))
  {
    var s, c, fd := ds[i].server, ds[i].client, ds[i].fd;
    DuoTalks(env, motd, states, events, ds, es, i);
    if c.pc.InSession? {
      var a := InSessionOnline(s, fd, c);
      assert LoggedInAs(s, a, fd, c.name);
    } else if c.pc.LoggedOut? {
      LoggedOutAlone(s, fd, c);
    }
  }

  lemma LoggedOutAlone(s: State, fd: int, c: Client)
    requires ListInv(s) && SessionInv(s) && Talk(s, fd, c) && c.pc.LoggedOut?
    ensures c.pc.error.Err? && c.pc.bye == Bye && forall a: Ptr :: !Online(s, a, fd)
  {
    assert !s.book.claim[fd].Session?;
  }

  // ---------- what was said ----------

  /** All that has been written to the client: the beginning of the dialogue that lets it in, among
      it at most what other sessions cause, or a dialogue that ends in ERR and BYE. */
  ghost predicate Spoken(c: Client, t: seq<Msg>) {
    || t <= [Eiflow]
    || (NameFits(c) && Own(t) <= Script(c, Tokens(c.name)[0]))
    || (|t| >= 3 && t[|t| - 2].Err? && t[|t| - 1] == Bye && Begun(t[..|t| - 2], c))
  }

  /** The server has welcomed the client as account a, but for what is still owed. */
  ghost predicate Welcomed(s: State, a: Ptr, fd: int, c: Client) {
    && LoggedInAs(s, a, fd, c.name) && fd in s.out
    && Owed(s, a) <= 2 && Own(s.out[fd]) == Script(c, s.users[a].name)[..5 - Owed(s, a)]
  }

  /** The two messages the client has read as its refusal are the last ones of the dialogue. */
  ghost predicate Dismissed(t: seq<Msg>, c: Client)
    requires c.pc.LoggedOut?
  {
    exists b :: Begun(b, c) && t == b + [c.pc.error, c.pc.bye]
  }

  lemma ScriptSpoken(t: seq<Msg>, c: Client, n: string, k: nat)
    requires Named(c, n) && k <= 5 && t == Script(c, n)[..k]
    ensures Spoken(c, t)
  {
    OwnWithout(t);
  }

  lemma OursSpoken(pc: Pc, t: seq<Msg>, c: Client)
    requires Ours(pc, t, c)
    ensures Spoken(c, t)
  {
    match pc {
      case AwaitNewPass(_, n) => ScriptSpoken(t, c, n, 2);
      case AwaitPass(_, _, n) => ScriptSpoken(t, c, n, 2);
      case AddAccount(_, n, _) => ScriptSpoken(t, c, n, 3);
      case Grant(_, _, n, _) => ScriptSpoken(t, c, n, 4);
      case Refuse(_, _, _) => BegunSpoken(t, c);
      case RefuseOpen(_) => BegunSpoken(t, c);
      case _ =>
    }
  }

  lemma BegunSpoken(t: seq<Msg>, c: Client)
    requires Begun(t, c)
    ensures Spoken(c, t)
  {
    if t != [Eiflow] {
      ScriptSpoken(t, c, Tokens(c.name)[0], 2);
    }
  }

  lemma TalkSpoken(s: State, fd: int, c: Client)
    requires Talk(s, fd, c)
    ensures fd in s.out && Spoken(c, s.out[fd])
  {
    match s.book.claim[fd] {
      case InLogin(k) => OursSpoken(s.logins[k], s.out[fd], c);
      case _ =>
    }
  }

  lemma SessionSpoken(s: State, fd: int, c: Client)
    requires Talk(s, fd, c) && c.pc.InSession?
    ensures exists a: Ptr :: Welcomed(s, a, fd, c)
  {
    var a := InSessionOnline(s, fd, c);
    assert Welcomed(s, a, fd, c);
  }

  lemma AwaySpoken(s: State, fd: int, c: Client)
    requires Talk(s, fd, c) && c.pc.LoggedOut?
    ensures Dismissed(s.out[fd], c)
  {
    var t := s.out[fd];
    assert Begun(t[..|t| - 2], c) && t == t[..|t| - 2] + [c.pc.error, c.pc.bye];
  }

  /** The server says to a client what its kind of login asks for, in this order and nothing twice:
      a client in its session has been told all of it, but for what a thread that greets it has yet
      to write; one that was sent away has been told ERR and BYE last. */
  lemma DialogueExact(env: Env, motd: string, states: seq<State>, events: seq<Event>, ds: seq<Duo>, es: seq<DuoEvent>, i: nat)
    requires DuoRun(env, motd, states, events, ds, es) && i <= |es|
    ensures var s, c, fd := ds[i].server, ds[i].client, ds[i].fd;
      && fd in s.out && Spoken(c, s.out[fd])
      && (c.pc.InSession? ==> exists a: Ptr :: Welcomed(s, a, fd, c))
      && (c.pc.LoggedOut? ==> Dismissed(s.out[fd], c))
  {
    var s, c, fd := ds[i].server, ds[i].client, ds[i].fd;
    DuoTalks(env, motd, states, events, ds, es, i);
    TalkSpoken(s, fd, c);
    if c.pc.InSession? {
      SessionSpoken(s, fd, c);
    } else if c.pc.LoggedOut? {
      AwaySpoken(s, fd, c);
    }
  }

  // ---------- descriptors nobody closes ----------

  ghost predicate IsLeaked(s: State, fd: int) {
    fd in s.open && fd in s.out && fd in s.book.claim && s.book.claim[fd] == Leaked
  }

  lemma MainLeaves(s: State, t: State, fd: int)
    requires ListInv(s) && SessionInv(s) && DescriptorInv(s) && MainInv(s)
    requires IsLeaked(s, fd) && MainStep(s) == Some(t) && Undisturbed(s, MainGo)
    ensures fd in t.book.claim && t.book.claim[fd] == Leaked
  {
    if s.main.ByeDisconnect? || s.main.CrashDisconnect? {
      assert Listed(s, s.main.r) && s.book.claim[s.users[s.main.r].fd] == Session(s.main.r);
    }
  }

  lemma StepLeaves(env: Env, s: State, e: Event, t: State, fd: int)
    requires Core(env, s) && IsLeaked(s, fd) && Next(env, s, e) == Some(t) && Undisturbed(s, e)
    ensures fd in t.book.claim && t.book.claim[fd] == Leaked
  {
    match e {
      case MainGo => MainLeaves(s, t, fd);
      case ThreadGo(k) => ThreadUntouched(env, s, k, t, fd);
      case ThreadRead(k, frame, salt) => ReadUntouched(env, s, k, frame, salt, t, fd);
      case ServeRead(frame, seconds) => ServeEffect(s, frame, seconds, t);
      case _ =>
    }
  }

  lemma LeakedStep(env: Env, states: seq<State>, events: seq<Event>, i: nat, fd: int)
    requires QuietRun(env, states, events) && i < |events| && IsLeaked(states[i], fd)
    ensures IsLeaked(states[i + 1], fd)
  {
    RunInv(env, states, events, i);
    RunInv(env, states, events, i + 1);
    assert StepAt(env, states, events, i);
    StepLeaves(env, states[i], events[i], states[i + 1], fd);
    ClaimedOpen(env, states[i + 1], fd);
  }

  lemma ClaimedOpen(env: Env, s: State, fd: int)
    requires Inv(env, s) && fd in s.book.claim
    ensures fd in s.open && fd in s.out
  {
  }

  lemma {:induction false} StaysLeaked(env: Env, states: seq<State>, events: seq<Event>, i: nat, j: nat, fd: int)
    requires QuietRun(env, states, events) && i <= j <= |events| && IsLeaked(states[i], fd)
    ensures IsLeaked(states[j], fd)
    decreases j
  {
    if i < j {
      StaysLeaked(env, states, events, i, j - 1, fd);
      LeakedStep(env, states, events, j - 1, fd);
    }
  }

  /** The descriptor with which a step has to do for the last time: at the end of a refused login,
      or when a client vanished, during its login or its session. */
  function GivesUp(s: State, e: Event): Option<int> {
    match e
    case ThreadGo(k) =>
      if k < |s.logins| && (s.logins[k].Cleanup? || s.logins[k].Drop?) then Some(UserAt(s, s.logins[k].u).fd) else None
    case MainGo => if s.main.CrashDisconnect? then Some(UserAt(s, s.main.r).fd) else None
    case _ => None
  }

  lemma GivenUp(env: Env, s: State, e: Event, t: State)
    requires Core(env, s) && Next(env, s, e) == Some(t) && GivesUp(s, e).Some?
    ensures GivesUp(s, e).value in t.book.claim && t.book.claim[GivesUp(s, e).value] == Leaked
  {
    if e.MainGo? {
      DisconnectEffect(s, t);
    } else {
      assert PcOk(env, s, e.k, s.logins[e.k]);
      if s.logins[e.k].Cleanup? {
        CleanupEffect(env, s, e.k, t);
      } else {
        DropEffect(env, s, e.k, t);
      }
    }
  }

  /** The descriptor of a connection that was refused or has vanished is open ever after. */
  lemma LeakedForGood(env: Env, states: seq<State>, events: seq<Event>, i: nat, j: nat)
    requires QuietRun(env, states, events) && i < j <= |events| && GivesUp(states[i], events[i]).Some?
    ensures GivesUp(states[i], events[i]).value in states[j].open
  {
    var fd := GivesUp(states[i], events[i]).value;
    GivenUpAt(env, states, events, i);
    StaysLeaked(env, states, events, i + 1, j, fd);
  }

  lemma GivenUpAt(env: Env, states: seq<State>, events: seq<Event>, i: nat)
    requires QuietRun(env, states, events) && i < |events| && GivesUp(states[i], events[i]).Some?
    ensures IsLeaked(states[i + 1], GivesUp(states[i], events[i]).value)
  {
    RunInv(env, states, events, i);
    RunInv(env, states, events, i + 1);
    assert StepAt(env, states, events, i);
    GivenUp(env, states[i], events[i], states[i + 1]);
    ClaimedOpen(env, states[i + 1], GivesUp(states[i], events[i]).value);
  }

  lemma RefusedIsLeaked(env: Env, s: State, fd: int, c: Client)
    requires Inv(env, s) && Talk(s, fd, c) && c.pc.LoggedOut? && forall k: nat :: !ReadsFrom(s, k, fd)
    ensures IsLeaked(s, fd)
  {
    ClaimedOpen(env, s, fd);
  }

  lemma DuoLeavesLeak(env: Env, motd: string, d: Duo, e: DuoEvent, n: Duo)
    requires InStep(env, d) && InStep(env, n) && DuoStep(env, motd, d, e, n) && IsLeaked(d.server, d.fd)
    ensures n.fd == d.fd && IsLeaked(n.server, n.fd)
  {
    if e.ServerDoes? {
      StepLeaves(env, d.server, e.e, n.server, d.fd);
    }
    ClaimedOpen(env, n.server, n.fd);
  }

  /** A client that was sent away leaves an open descriptor behind at the server: once no login
      thread serves it any more, it is never closed. */
  lemma RefusedLeaks(env: Env, motd: string, states: seq<State>, events: seq<Event>, ds: seq<Duo>, es: seq<DuoEvent>, i: nat, j: nat)
    requires DuoRun(env, motd, states, events, ds, es) && i <= j <= |es| && ds[i].client.pc.LoggedOut?
    requires forall k: nat :: !ReadsFrom(ds[i].server, k, ds[i].fd)
    ensures ds[i].fd in ds[j].server.open
  {
    DuoTalks(env, motd, states, events, ds, es, i);
    RefusedIsLeaked(env, ds[i].server, ds[i].fd, ds[i].client);
    LeakStays(env, motd, ds[i..], es[i..], j - i);
  }

  lemma LeakStays(env: Env, motd: string, ds: seq<Duo>, es: seq<DuoEvent>, i: nat)
    requires DuoSteps(env, motd, ds, es) && i <= |es| && InStep(env, ds[0]) && IsLeaked(ds[0].server, ds[0].fd)
    ensures ds[i].fd == ds[0].fd && IsLeaked(ds[i].server, ds[i].fd)
  {
    var fd := ds[0].fd;
    var next := (d: Duo, e: DuoEvent, n: Duo) => DuoStep(env, motd, d, e, n);
    var inv := (d: Duo) => InStep(env, d) && d.fd == fd && IsLeaked(d.server, d.fd);
    forall d, e, n | inv(d) && next(d, e, n) ensures inv(n) {
      DuoStepKeeps(env, motd, d, e, n);
      DuoLeavesLeak(env, motd, d, e, n);
    }
    HoldsThroughout(next, inv, ds, es, i);
  }
}

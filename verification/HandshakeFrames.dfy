/** Steps that serve other connections leave a dialogue where it is. */
module HandshakeFrames {
  import opened Wrappers
  import opened Accounts
  import opened Wire
  import opened LoginServer
  import opened LoginSafety
  import opened LoginSteps
  import opened LoginTheorems
  import opened LoginClient
  import opened Handshake

  /** Only what other sessions may cause is added to t. */
  predicate OnlyChatter(t: seq<Msg>, n: seq<Msg>) {
    t <= n && forall i | |t| <= i < |n| :: Noise(n[i])
  }

  /** The claim on fd, its records and its output are as they were, but for chatter in a session. */
  ghost predicate Untouched(s: State, t: State, fd: int) {
    && fd in s.book.claim && fd in t.book.claim && t.book.claim[fd] == s.book.claim[fd]
    && fd in s.out && fd in t.out
    && (if s.book.claim[fd].Session? then OnlyChatter(s.out[fd], t.out[fd]) else t.out[fd] == s.out[fd])
    && s.list <= t.list
    && |s.users| <= |t.users|
    && forall p: Ptr | p < |s.users| && s.users[p].fd == fd :: t.users[p] == s.users[p]
  }

  /** Thread k serves fd, or greets the account on it. */
  predicate Serves(s: State, k: nat, fd: int) {
    && k < |s.logins| && fd in s.book.claim
    && (s.book.claim[fd] == InLogin(k) || (s.book.claim[fd].Session? && Greeting(s.logins[k], s.book.claim[fd].a)))
  }

  lemma UntouchedTalks(env: Env, s: State, t: State, fd: int, c: Client)
    requires Talk(s, fd, c) && Untouched(s, t, fd) && MainAway(t, fd)
    requires ThreadInv(env, s) && ThreadInv(env, t) && |s.logins| <= |t.logins|
    requires forall k: nat | k < |s.logins| && Serves(s, k, fd) :: t.logins[k] == s.logins[k]
    requires s.book.claim[fd].Entering? ==> t.main == s.main
    requires s.book.claim[fd].Waiting? ==> s.book.claim[fd].u in t.queue && s.book.claim[fd].u < |s.users|
    requires s.book.claim[fd].Entering? ==> s.book.claim[fd].u < |s.users|
    requires forall k: nat | s.book.claim[fd] == InLogin(k) && ReadsFrom(s, k, fd) :: Serving(s.logins[k]).value < |s.users|
    requires s.book.claim[fd].Session? ==> Owed(t, s.book.claim[fd].a) <= Owed(s, s.book.claim[fd].a)
    ensures Talk(t, fd, c)
  {
    match s.book.claim[fd] {
      case Session(a) =>
        assert Owed(s, a) > 0 ==> Serves(s, s.owner.value, fd);
        assert Owed(t, a) == Owed(s, a);
        OwnSkips(s.out[fd], t.out[fd]);
      case InLogin(k) => assert Serves(s, k, fd);
      case _ =>
    }
  }

  // ---------- login threads ----------

  lemma PassingUntouched(env: Env, s: State, j: nat, t: State, fd: int)
    requires j < |s.logins| && ThreadStep(env, s, j) == Some(t) && fd in s.out && fd in s.book.claim
    requires match s.logins[j]
             case Idle => true
             case WantNew(_, _) => true
             case WantIam(_, _) => true
             case Release(_, _) => true
             case _ => false
    ensures Untouched(s, t, fd)
  {
    assert t.out == s.out && t.users == s.users && t.list == s.list && t.book.claim == s.book.claim;
  }

  lemma WritingUntouched(s: State, t: State, f: int, ms: seq<Msg>, fd: int)
    requires fd in s.out && fd in s.book.claim && f != fd
    requires t.out == WriteTo(s.out, f, ms) && t.users == s.users && t.list == s.list && t.book.claim == s.book.claim
    ensures Untouched(s, t, fd)
  {
  }

  lemma CheckUntouched(env: Env, s: State, j: nat, t: State, fd: int)
    requires j < |s.logins| && PcOk(env, s, j, s.logins[j]) && ThreadStep(env, s, j) == Some(t)
    requires fd in s.out && fd in s.book.claim && !Serves(s, j, fd)
    requires s.logins[j].CheckNew? || s.logins[j].CheckIam?
    ensures Untouched(s, t, fd)
  {
    var f := s.users[s.logins[j].u].fd;
    if t.out != s.out {
      var name := s.logins[j].name;
      WritingUntouched(s, t, f, if s.logins[j].CheckNew? then [Hinew(name)] else [Auth(name)], fd);
    }
  }

  lemma GreetUntouched(env: Env, s: State, j: nat, t: State, fd: int)
    requires ListInv(s) && SessionInv(s)
    requires j < |s.logins| && PcOk(env, s, j, s.logins[j]) && ThreadStep(env, s, j) == Some(t)
    requires fd in s.out && fd in s.book.claim && !Serves(s, j, fd)
    requires s.logins[j].GreetNew? || s.logins[j].SendMotd?
    ensures Untouched(s, t, fd)
  {
    var a := if s.logins[j].GreetNew? then s.logins[j].u else s.logins[j].a;
    assert Listed(s, a) && s.book.claim[s.users[a].fd] == Session(a);
    WritingUntouched(s, t, s.users[a].fd, if s.logins[j].GreetNew? then [HiNew] else [Motd], fd);
  }

  lemma RefuseUntouched(env: Env, s: State, j: nat, t: State, fd: int)
    requires ListInv(s) && SessionInv(s) && DescriptorInv(s)
    requires j < |s.logins| && PcOk(env, s, j, s.logins[j]) && ThreadStep(env, s, j) == Some(t)
    requires fd in s.out && fd in s.book.claim && !Serves(s, j, fd)
    requires s.logins[j].Refuse? || s.logins[j].RefuseOpen?
    ensures Untouched(s, t, fd)
  {
    var u := s.logins[j].u;
    PendingAlone(s, u, InLogin(j));
    WritingUntouched(s, t, s.users[u].fd, [Err(if s.logins[j].Refuse? then s.logins[j].code else 100), Bye], fd);
  }

  lemma TouchedElsewhere(s: State, j: nat, t: State, x: Ptr, f: int, fd: int)
    requires Touches(s, t, j, x, f) && s.list <= t.list
    requires fd in s.out && fd in s.book.claim && f != fd && s.users[x].fd != fd
    ensures Untouched(s, t, fd)
  {
  }

  lemma DecidingUntouched(env: Env, s: State, j: nat, t: State, fd: int)
    requires ListInv(s) && SessionInv(s) && DescriptorInv(s)
    requires j < |s.logins| && PcOk(env, s, j, s.logins[j]) && ThreadStep(env, s, j) == Some(t)
    requires fd in s.out && fd in s.book.claim && !Serves(s, j, fd)
    requires s.logins[j].AddAccount? || s.logins[j].Grant? || s.logins[j].Drop?
    ensures Untouched(s, t, fd)
  {
    var u := s.logins[j].u;
    match s.logins[j] {
      case AddAccount(_, _, _) =>
        AddAccountEffect(env, s, j, t);
        TouchedElsewhere(s, j, t, u, s.users[u].fd, fd);
      case Grant(_, a, _, _) =>
        GrantEffect(env, s, j, t);
        assert s.users[a].fd == -1;
        TouchedElsewhere(s, j, t, a, s.users[u].fd, fd);
      case Drop(_, _) =>
        DropEffect(env, s, j, t);
        TouchedElsewhere(s, j, t, u, s.users[u].fd, fd);
    }
  }

  lemma CleanupUntouched(env: Env, s: State, j: nat, t: State, fd: int)
    requires ListInv(s) && SessionInv(s) && DescriptorInv(s)
    requires j < |s.logins| && PcOk(env, s, j, s.logins[j]) && ThreadStep(env, s, j) == Some(t)
    requires fd in s.out && fd in s.book.claim && !Serves(s, j, fd)
    requires s.logins[j].Cleanup?
    ensures Untouched(s, t, fd)
  {
    PendingAlone(s, s.logins[j].u, InLogin(j));
  }

  lemma GotUntouched(env: Env, s: State, j: nat, t: State, fd: int)
    requires QueueInv(s)
    requires j < |s.logins| && ThreadStep(env, s, j) == Some(t)
    requires fd in s.out && fd in s.book.claim
    requires s.logins[j].Got? && (s.queue != [] ==> s.book.claim[fd] != Waiting(s.queue[0]))
    ensures Untouched(s, t, fd)
  {
    if s.queue != [] {
      assert Pending(s, s.queue[0], Waiting(s.queue[0]));
    }
  }

  lemma {:induction false} BroadcastAt(o: map<int, seq<Msg>>, fds: seq<int>, m: Msg, fd: int)
    requires fd in o && Noise(m)
    ensures var n := WriteEach(o, fds, m);
            fd in n && OnlyChatter(o[fd], n[fd]) && (fd !in fds ==> n[fd] == o[fd])
    decreases |fds|
  {
    if fds != [] {
      var w := WriteTo(o, fds[0], [m]);
      BroadcastAt(w, fds[1..], m, fd);
    }
  }

  /** A broadcast reaches sessions only. */
  lemma CastUntouched(s: State, t: State, m: Msg, fd: int)
    requires ListInv(s) && SessionInv(s) && fd in s.out && fd in s.book.claim && Noise(m)
    requires t.out == Broadcast(s, m).out && t.users == s.users && t.list == s.list && t.book.claim == s.book.claim
    ensures Untouched(s, t, fd)
  {
    var fds := ConnectedFds(View(s));
    BroadcastAt(s.out, fds, m, fd);
    if fd in fds {
      var i :| 0 <= i < |View(s)| && View(s)[i].connected && View(s)[i].fd == fd && fd != -1;
      assert s.list[i] < |s.users|;
    }
  }

  lemma ThreadUntouched(env: Env, s: State, j: nat, t: State, fd: int)
    requires Core(env, s) && j < |s.logins| && ThreadStep(env, s, j) == Some(t)
    requires fd in s.out && fd in s.book.claim && !Serves(s, j, fd)
    requires s.logins[j].Got? && s.queue != [] ==> s.book.claim[fd] != Waiting(s.queue[0])
    ensures Untouched(s, t, fd)
  {
    assert PcOk(env, s, j, s.logins[j]);
    match s.logins[j] {
      case Got => GotUntouched(env, s, j, t, fd);
      case CheckNew(_, _) => CheckUntouched(env, s, j, t, fd);
      case CheckIam(_, _) => CheckUntouched(env, s, j, t, fd);
      case GreetNew(_) => GreetUntouched(env, s, j, t, fd);
      case SendMotd(_, _) => GreetUntouched(env, s, j, t, fd);
      case Refuse(_, _, _) => RefuseUntouched(env, s, j, t, fd);
      case RefuseOpen(_) => RefuseUntouched(env, s, j, t, fd);
      case AddAccount(_, _, _) => DecidingUntouched(env, s, j, t, fd);
      case Grant(_, _, _, _) => DecidingUntouched(env, s, j, t, fd);
      case Drop(_, _) => DecidingUntouched(env, s, j, t, fd);
      case Cleanup(_) => CleanupUntouched(env, s, j, t, fd);
      case DropCast(r, _) => CastUntouched(s, t, Uoff(UserAt(s, r).name), fd);
      case _ => PassingUntouched(env, s, j, t, fd);
    }
  }

  lemma ReadUntouched(env: Env, s: State, j: nat, frame: string, salt: string, t: State, fd: int)
    requires ThreadInv(env, s) && j < |s.logins| && ReadStep(env, s, j, frame, salt) == Some(t)
    requires fd in s.out && fd in s.book.claim && !Serves(s, j, fd)
    ensures Untouched(s, t, fd)
  {
    assert PcOk(env, s, j, s.logins[j]);
  }

  // ---------- the accept/select thread ----------

  lemma AcceptUntouched(env: Env, s: State, f: int, t: State, fd: int)
    requires DescriptorInv(s) && AcceptStep(env, s, f) == Some(t) && fd in s.out && fd in s.book.claim
    ensures Untouched(s, t, fd)
  {
    assert fd in s.open;
  }

  lemma ServeUntouched(s: State, frame: string, seconds: string, t: State, fd: int)
    requires ServeStep(s, frame, seconds) == Some(t) && fd in s.out && fd in s.book.claim
    requires MainAway(s, fd)
    ensures Untouched(s, t, fd) && MainAway(t, fd)
  {
  }

  lemma RelayUntouched(s: State, t: State, fd: int)
    requires ListInv(s) && SessionInv(s) && MainInv(s) && s.main.RelayMsg? && MainStep(s) == Some(t)
    requires MainAway(s, fd) && fd in s.out && fd in s.book.claim
    ensures Untouched(s, t, fd)
  {
    var RelayMsg(f, to, from, text) := s.main;
    if to == None || from == None || !UserAt(s, to.value).connected || !UserAt(s, from.value).connected {
      WritingUntouched(s, t, f, [Err(1)], fd);
    } else {
      assert Listed(s, to.value) && Listed(s, from.value);
      assert s.book.claim[s.users[to.value].fd] == Session(to.value);
      assert s.book.claim[s.users[from.value].fd] == Session(from.value);
    }
  }

  lemma DisconnectUntouched(s: State, t: State, fd: int)
    requires ListInv(s) && SessionInv(s) && MainInv(s)
    requires (s.main.ByeDisconnect? || s.main.CrashDisconnect?) && MainStep(s) == Some(t)
    requires MainAway(s, fd) && fd in s.out && fd in s.book.claim
    ensures Untouched(s, t, fd) && MainAway(t, fd)
  {
    DisconnectEffect(s, t);
  }

  lemma MainUntouched(s: State, t: State, fd: int)
    requires ListInv(s) && SessionInv(s) && DescriptorInv(s) && MainInv(s) && MainStep(s) == Some(t) && Undisturbed(s, MainGo)
    requires MainAway(s, fd) && fd in s.out && fd in s.book.claim
    requires s.main.Accepted? ==> s.book.claim[fd] != Entering(s.main.u)
    ensures Untouched(s, t, fd) && MainAway(t, fd)
  {
    match s.main {
      case RelayMsg(_, _, _, _) => RelayUntouched(s, t, fd);
      case ByeDisconnect(_, _) => DisconnectUntouched(s, t, fd);
      case CrashDisconnect(_) => DisconnectUntouched(s, t, fd);
      case ByeCast(r, _) => CastUntouched(s, t, Uoff(UserAt(s, r).name), fd);
      case CrashCast(r) => CastUntouched(s, t, Uoff(UserAt(s, r).name), fd);
      case CrashLookup(u) => NameUnique(s, u, t.main.r);
      case _ =>
    }
  }
}

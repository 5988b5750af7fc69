/** What holds of the login server in every run in which no session is closed by mistake
    (LoginServer.QuietRun), read off the invariant. */
module LoginTheorems {
  import opened Wrappers
  import opened Accounts
  import opened AtomicAccounts
  import opened Text
  import opened Wire
  import opened LoginServer
  import opened LoginSafety
  import opened LoginSteps
  import opened LoginRuns

  // ---------- ownership ----------

  /** The connection a login thread serves that has not logged in yet. */
  function Serving(pc: Pc): Option<Ptr> {
    match pc
    case Wolfie(u) => Some(u)
    case Iam(u) => Some(u)
    case WantNew(u, _) => Some(u)
    case CheckNew(u, _) => Some(u)
    case AwaitNewPass(u, _) => Some(u)
    case AddAccount(u, _, _) => Some(u)
    case WantIam(u, _) => Some(u)
    case CheckIam(u, _) => Some(u)
    case AwaitPass(u, _, _) => Some(u)
    case Grant(u, _, _, _) => Some(u)
    case Refuse(u, _, _) => Some(u)
    case RefuseOpen(u) => Some(u)
    case Cleanup(u) => Some(u)
    case Drop(u, _) => Some(u)
    case Release(u, granted) => if granted then None else Some(u)
    case _ => None
  }

  lemma ServedPending(env: Env, s: State, k: nat)
    requires ThreadInv(env, s) && k < |s.logins| && Serving(s.logins[k]).Some?
    ensures Pending(s, Serving(s.logins[k]).value, InLogin(k))
  {
    assert PcOk(env, s, k, s.logins[k]);
  }

  /** In every reachable state: account names are distinct; an account is connected just when it
      has a descriptor; that descriptor is its own, no queued connection's and no connection's
      still logging in; and looking it up finds the account. */
  lemma Ownership(env: Env, states: seq<State>, events: seq<Event>, i: nat)
    requires QuietRun(env, states, events) && i <= |events|
    ensures var s := states[i];
      && DistinctNames(View(s))
      && (forall p: Ptr | p in s.list :: UserAt(s, p).connected <==> UserAt(s, p).fd != -1)
      && (forall p: Ptr, q: Ptr | p in s.list && q in s.list && UserAt(s, p).connected && UserAt(s, q).fd == UserAt(s, p).fd :: p == q)
      && (forall p: Ptr, u: Ptr | p in s.list && UserAt(s, p).connected && u in s.queue :: UserAt(s, u).fd != UserAt(s, p).fd)
      && (forall p: Ptr, k: nat | p in s.list && UserAt(s, p).connected && k < |s.logins| && Serving(s.logins[k]).Some? ::
            UserAt(s, Serving(s.logins[k]).value).fd != UserAt(s, p).fd)
      && (forall p: Ptr | p in s.list && UserAt(s, p).connected :: LookupFd(s, UserAt(s, p).fd) == Some(p))
  {
    var s := states[i];
    RunInv(env, states, events, i);
    forall p: Ptr, k: nat | p in s.list && UserAt(s, p).connected && k < |s.logins| && Serving(s.logins[k]).Some?
      ensures UserAt(s, Serving(s.logins[k]).value).fd != UserAt(s, p).fd
    {
      ServedPending(env, s, k);
      assert Listed(s, p);
    }
    forall p: Ptr | p in s.list && UserAt(s, p).connected
      ensures LookupFd(s, UserAt(s, p).fd) == Some(p)
    {
      assert Listed(s, p);
      if LookupFd(s, UserAt(s, p).fd).Some? {
        OwnerUnique(s, p, LookupFd(s, UserAt(s, p).fd).value);
      }
    }
  }

  /** The lookup by descriptor on the way to a logout never yields null. */
  lemma LogoutFindsUser(env: Env, states: seq<State>, events: seq<Event>, i: nat)
    requires QuietRun(env, states, events) && i <= |events| && states[i].main.ByeLookup?
    ensures LookupFd(states[i], states[i].main.fd) == Some(states[i].main.u)
  {
    Ownership(env, states, events, i);
    RunInv(env, states, events, i);
  }

  // ---------- accounts are never lost ----------

  /** The list and the history of t extend those of s. */
  ghost predicate Extends(s: State, t: State) {
    s.list <= t.list && s.book.history <= t.book.history && s.book.base == t.book.base
  }

  lemma PurgeExtends(env: Env, s: State, k: nat, t: State)
    requires ListInv(s) && SessionInv(s) && DescriptorInv(s)
    requires k < |s.logins| && PcOk(env, s, k, s.logins[k]) && ThreadStep(env, s, k) == Some(t)
    requires s.logins[k].Refuse? || s.logins[k].Cleanup? || s.logins[k].Grant?
    ensures Extends(s, t)
  {
    PendingAlone(s, s.logins[k].u, InLogin(k));
  }

  lemma CheckExtends(env: Env, s: State, k: nat, t: State)
    requires k < |s.logins| && ThreadStep(env, s, k) == Some(t)
    requires s.logins[k].CheckNew? || s.logins[k].CheckIam?
    ensures Extends(s, t)
  {
  }

  lemma DecidingExtends(env: Env, s: State, k: nat, t: State)
    requires k < |s.logins| && ThreadStep(env, s, k) == Some(t)
    requires s.logins[k].AddAccount? || s.logins[k].Drop?
    ensures Extends(s, t)
  {
  }

  lemma PassingExtends(env: Env, s: State, k: nat, t: State)
    requires k < |s.logins| && ThreadStep(env, s, k) == Some(t)
    requires match s.logins[k]
             case Idle => true
             case Got => true
             case WantNew(_, _) => true
             case WantIam(_, _) => true
             case GreetNew(_) => true
             case SendMotd(_, _) => true
             case Release(_, _) => true
             case RefuseOpen(_) => true
             case DropCast(_, _) => true
             case _ => false
    ensures Extends(s, t)
  {
    assert t.list == s.list && t.book.history == s.book.history && t.book.base == s.book.base;
  }

  lemma ThreadExtends(env: Env, s: State, k: nat, t: State)
    requires ListInv(s) && SessionInv(s) && DescriptorInv(s)
    requires k < |s.logins| && PcOk(env, s, k, s.logins[k]) && ThreadStep(env, s, k) == Some(t)
    ensures Extends(s, t)
  {
    var pc := s.logins[k];
    if pc.Refuse? || pc.Cleanup? || pc.Grant? {
      PurgeExtends(env, s, k, t);
    } else if pc.CheckNew? || pc.CheckIam? {
      CheckExtends(env, s, k, t);
    } else if pc.AddAccount? || pc.Drop? {
      DecidingExtends(env, s, k, t);
    } else {
      PassingExtends(env, s, k, t);
    }
  }

  lemma ReadExtends(env: Env, s: State, k: nat, frame: string, salt: string, t: State)
    requires k < |s.logins| && ReadStep(env, s, k, frame, salt) == Some(t)
    ensures Extends(s, t)
  {
  }

  lemma LogoutExtends(s: State, t: State)
    requires MainStep(s) == Some(t) && (s.main.ByeDisconnect? || s.main.CrashDisconnect?)
    ensures Extends(s, t)
  {
    assert t.list == s.list;
  }

  lemma MainExtends(s: State, t: State)
    requires MainStep(s) == Some(t)
    ensures Extends(s, t)
  {
    if s.main.ByeDisconnect? || s.main.CrashDisconnect? {
      LogoutExtends(s, t);
    } else {
      assert t.list == s.list && t.book.history == s.book.history && t.book.base == s.book.base;
    }
  }

  lemma ServeExtends(s: State, frame: string, seconds: string, t: State)
    requires ServeStep(s, frame, seconds) == Some(t)
    ensures Extends(s, t)
  {
  }

  lemma StepExtends(env: Env, s: State, e: Event, t: State)
    requires ListInv(s) && SessionInv(s) && DescriptorInv(s) && ThreadInv(env, s) && Step(env, s, e, t)
    ensures Extends(s, t)
  {
    match e {
      case Accept(fd) =>
      case Readable(fd) =>
      case ServeRead(frame, seconds) => ServeExtends(s, frame, seconds, t);
      case MainGo => MainExtends(s, t);
      case ThreadRead(k, frame, salt) => ReadExtends(env, s, k, frame, salt, t);
      case ThreadGo(k) => ThreadExtends(env, s, k, t);
    }
  }

  lemma ExtendsAt(env: Env, states: seq<State>, events: seq<Event>, i: nat)
    requires QuietRun(env, states, events) && i < |events|
    ensures Extends(states[i], states[i + 1])
  {
    RunInv(env, states, events, i);
    assert StepAt(env, states, events, i);
    StepExtends(env, states[i], events[i], states[i + 1]);
  }

  lemma ExtendsTransitive(s: State, t: State, u: State)
    requires Extends(s, t) && Extends(t, u)
    ensures Extends(s, u)
  {
  }

  lemma {:induction false} RecordsGrow(env: Env, states: seq<State>, events: seq<Event>, i: nat, j: nat)
    requires QuietRun(env, states, events) && i <= j <= |events|
    ensures Extends(states[i], states[j])
    decreases j
  {
    if i < j {
      RecordsGrow(env, states, events, i, j - 1);
      ExtendsAt(env, states, events, j - 1);
      ExtendsTransitive(states[i], states[j - 1], states[j]);
    }
  }

  lemma ReplayAt(env: Env, states: seq<State>, events: seq<Event>, i: nat)
    requires QuietRun(env, states, events) && i <= |events|
    ensures Replay(env, states[i].book.base, states[i].book.history) == Some(TableOf(View(states[i])))
    ensures states[i].book.log == Actors(states[i].book.history) + OpenRegion(states[i])
  {
    RunInv(env, states, events, i);
  }

  /** The account list only grows, at its end, and no account's name, password or salt changes. */
  lemma AccountsKept(env: Env, states: seq<State>, events: seq<Event>, i: nat, j: nat, name: string)
    requires QuietRun(env, states, events) && i <= j <= |events|
    requires name in TableOf(View(states[i]))
    ensures states[i].list <= states[j].list
    ensures var t, u := TableOf(View(states[i])), TableOf(View(states[j]));
            name in u && u[name].password == t[name].password && u[name].salt == t[name].salt
  {
    RecordsGrow(env, states, events, i, j);
    ReplayAt(env, states, events, i);
    ReplayAt(env, states, events, j);
    HistoryKeepsName(env, states[j].book.base, states[i].book.history, states[j].book.history, name);
  }

  lemma HistoryKeepsName(env: Env, base: Table, h: seq<Entry>, g: seq<Entry>, name: string)
    requires h <= g && Replay(env, base, h).Some? && Replay(env, base, g).Some? && name in Replay(env, base, h).value
    ensures var t, u := Replay(env, base, h).value, Replay(env, base, g).value;
            name in u && u[name].password == t[name].password && u[name].salt == t[name].salt
  {
    assert g[..|h|] == h;
    CredentialsPermanent(env, base, g, |h|, name);
  }

  // ---------- the queue ----------

  lemma {:induction false} SomebodyTaking(pcs: seq<Pc>, k: nat)
    requires k < |pcs| && pcs[k] == Got
    ensures Taking(pcs) > 0
  {
    TakingUpdate(pcs, k, Idle);
  }

  /** Queue length, semaphore and threads in between always balance; a thread that passed
      sem_wait finds a connection; connections are taken up in the order of their arrival, and
      none by two threads. */
  lemma QueueBalance(env: Env, states: seq<State>, events: seq<Event>, i: nat)
    requires QuietRun(env, states, events) && i <= |events|
    ensures var s := states[i];
      && |s.queue| == s.sem + (if s.main == Posting then 1 else 0) + Taking(s.logins)
      && (Got in s.logins ==> s.queue != [])
      && s.book.served <= s.book.accepted
      && (forall a, b | 0 <= a < b < |s.book.accepted| :: s.book.accepted[a] != s.book.accepted[b])
  {
    var s := states[i];
    RunInv(env, states, events, i);
    if Got in s.logins {
      var k :| 0 <= k < |s.logins| && s.logins[k] == Got;
      SomebodyTaking(s.logins, k);
    }
  }

  // ---------- linearizability ----------

  /** Every interleaving is a run of the atomic table: the accounts in memory are what the
      recorded operations make of the initial table, each operation was legal when its turn
      came, and they stand in the order in which their regions took the mutex, one for each. */
  lemma Linearizable(env: Env, states: seq<State>, events: seq<Event>, i: nat)
    requires QuietRun(env, states, events) && i <= |events|
    ensures var s := states[i];
      && Replay(env, TableOf(View(states[0])), s.book.history) == Some(TableOf(View(s)))
      && s.book.log == Actors(s.book.history) + OpenRegion(s)
  {
    ReplayAt(env, states, events, i);
    RecordsGrow(env, states, events, 0, i);
    assert View(states[0]) == states[0].users;
  }

  /** Whoever registered with a password can log in with it: in no run is it refused later. */
  lemma RegisteredCanLogIn(env: Env, states: seq<State>, events: seq<Event>, i: nat, a: nat, b: nat)
    requires QuietRun(env, states, events) && i <= |events| && a < b < |states[i].book.history|
    requires states[i].book.history[a].op.Register?
    ensures var h := states[i].book.history; h[b].op != RefusePassword(h[a].op.name, h[a].op.password)
  {
    Linearizable(env, states, events, i);
    var h := states[i].book.history;
    if h[b].op == RefusePassword(h[a].op.name, h[a].op.password) {
      RegisteredPasswordHolds(env, TableOf(View(states[0])), h, a, b);
    }
  }

  /** Nobody gets into a registered account but with a password that hashes like the registered one. */
  lemma OnlyRegisteredPassword(env: Env, states: seq<State>, events: seq<Event>, i: nat, a: nat, b: nat)
    requires QuietRun(env, states, events) && i <= |events| && a < b < |states[i].book.history|
    requires var h := states[i].book.history; h[a].op.Register? && h[b].op.Login? && h[b].op.name == h[a].op.name
    ensures var h := states[i].book.history;
      env.hash(h[b].op.password + h[a].op.salt) == env.hash(h[a].op.password + h[a].op.salt)
  {
    Linearizable(env, states, events, i);
    LoginProved(env, TableOf(View(states[0])), states[i].book.history, a, b);
  }

  // ---------- threads lost to vanished clients ----------

  /** Thread k serves nobody any more. */
  predicate Lost(s: State, k: nat) {
    k < |s.logins| && (s.logins[k].DropCast? || s.logins[k].Exited?)
  }

  predicate Abandoned(s: State, k: nat) {
    Entry(LoginThread(k), Abandon) in s.book.history
  }

  /** Thread j alone has moved; it is lost, and that is recorded, just when its client has vanished. */
  ghost predicate Moves(s: State, j: nat, t: State, vanished: bool) {
    && j < |s.logins| == |t.logins| && (forall k | 0 <= k < |s.logins| && k != j :: t.logins[k] == s.logins[k])
    && (Lost(t, j) <==> Lost(s, j) || vanished)
    && (|| (t.book.history == s.book.history && !vanished)
        || exists op: Op :: t.book.history == s.book.history + [Entry(LoginThread(j), op)] && (op == Abandon <==> vanished))
  }

  lemma MovesKeeps(s: State, j: nat, t: State, vanished: bool, k: nat)
    requires Moves(s, j, t, vanished) && k < |s.logins| && (Lost(s, k) <==> Abandoned(s, k))
    ensures Lost(t, k) <==> Abandoned(t, k)
  {
  }

  lemma CheckerMoves(env: Env, s: State, j: nat, t: State)
    requires j < |s.logins| && ThreadStep(env, s, j) == Some(t) && (s.logins[j].CheckNew? || s.logins[j].CheckIam?)
    ensures Moves(s, j, t, false) && !Queueing(t.logins[j])
  {
  }

  lemma DecidingMoves(env: Env, s: State, j: nat, t: State)
    requires j < |s.logins| && ThreadStep(env, s, j) == Some(t) && (s.logins[j].AddAccount? || s.logins[j].Grant? || s.logins[j].Drop?)
    ensures Moves(s, j, t, s.logins[j].Drop?) && !Queueing(t.logins[j])
  {
  }

  lemma QueueMoves(env: Env, s: State, j: nat, t: State)
    requires j < |s.logins| && ThreadStep(env, s, j) == Some(t)
    requires var pc := s.logins[j]; pc.Idle? || pc.Got? || pc.WantNew? || pc.WantIam?
    ensures Moves(s, j, t, false)
  {
    assert t.book.history == s.book.history;
  }

  lemma PassingMoves(env: Env, s: State, j: nat, t: State)
    requires env.pool && j < |s.logins| && ThreadStep(env, s, j) == Some(t) && !Holds(s.logins[j])
    requires var pc := s.logins[j]; !pc.Drop? && !pc.Idle? && !pc.Got? && !pc.WantNew? && !pc.WantIam?
    ensures Moves(s, j, t, false)
  {
    assert t.book.history == s.book.history;
  }

  lemma HoldingMoves(env: Env, s: State, j: nat, t: State)
    requires env.pool && j < |s.logins| && ThreadStep(env, s, j) == Some(t) && Holds(s.logins[j]) && !Undecided(s.logins[j])
    ensures Moves(s, j, t, false)
  {
    assert t.book.history == s.book.history;
  }

  lemma ThreadLoses(env: Env, s: State, j: nat, t: State)
    requires env.pool && j < |s.logins| && ThreadStep(env, s, j) == Some(t)
    ensures Moves(s, j, t, s.logins[j].Drop?)
  {
    var pc := s.logins[j];
    if pc.CheckNew? || pc.CheckIam? {
      CheckerMoves(env, s, j, t);
    } else if pc.AddAccount? || pc.Grant? || pc.Drop? {
      DecidingMoves(env, s, j, t);
    } else if Holds(pc) {
      HoldingMoves(env, s, j, t);
    } else if pc.Idle? || pc.Got? || pc.WantNew? || pc.WantIam? {
      QueueMoves(env, s, j, t);
    } else {
      PassingMoves(env, s, j, t);
    }
  }

  lemma ReaderLoses(env: Env, s: State, j: nat, frame: string, salt: string, t: State)
    requires j < |s.logins| && ReadStep(env, s, j, frame, salt) == Some(t)
    ensures Moves(s, j, t, false)
  {
    ReaderAlone(env, s, j, frame, salt, t);
    ReaderRecords(env, s, j, frame, salt, t);
  }

  lemma ReaderRecords(env: Env, s: State, j: nat, frame: string, salt: string, t: State)
    requires j < |s.logins| == |t.logins| && ReadStep(env, s, j, frame, salt) == Some(t)
    ensures !Lost(s, j) && !Lost(t, j)
    ensures t.book.history == s.book.history || exists op: Op :: t.book.history == s.book.history + [Entry(LoginThread(j), op)] && op != Abandon
  {
  }

  /** The accept/select thread touches no login thread of a pool, and records nothing in its name. */
  lemma MainLoses(env: Env, s: State, e: Event, t: State)
    requires env.pool && Next(env, s, e) == Some(t) && !e.ThreadGo? && !e.ThreadRead?
    ensures t.logins == s.logins && forall k: nat :: Abandoned(t, k) <==> Abandoned(s, k)
  {
    match e {
      case MainGo => LogoutRecorded(s, t);
      case ServeRead(frame, seconds) => assert t.logins == s.logins && t.book.history == s.book.history;
      case _ =>
    }
  }

  lemma LogoutRecorded(s: State, t: State)
    requires MainStep(s) == Some(t)
    ensures t.logins == s.logins && forall k: nat :: Abandoned(t, k) <==> Abandoned(s, k)
  {
    if s.main.ByeDisconnect? || s.main.CrashDisconnect? {
      assert t.logins == s.logins && exists op: Op :: t.book.history == s.book.history + [Entry(Main, op)];
    } else {
      assert t.logins == s.logins && t.book.history == s.book.history;
    }
  }

  lemma StepLoses(env: Env, s: State, e: Event, t: State, k: nat)
    requires env.pool && Next(env, s, e) == Some(t) && k < |s.logins| && (Lost(s, k) <==> Abandoned(s, k))
    ensures |t.logins| == |s.logins| && (Lost(t, k) <==> Abandoned(t, k))
  {
    match e {
      case ThreadGo(j) =>
        ThreadLoses(env, s, j, t);
        MovesKeeps(s, j, t, s.logins[j].Drop?, k);
      case ThreadRead(j, frame, salt) =>
        ReaderLoses(env, s, j, frame, salt, t);
        MovesKeeps(s, j, t, false, k);
      case _ => MainLoses(env, s, e, t);
    }
  }

  /** A thread of the pool is lost if and only if a client it served has vanished; every other
      thread goes back to the queue once it is done. */
  lemma {:induction false} PoolLosses(env: Env, states: seq<State>, events: seq<Event>, i: nat, k: nat)
    requires Run(env, states, events) && i <= |events| && env.pool && k < |states[0].logins|
    ensures |states[i].logins| == |states[0].logins| && (Lost(states[i], k) <==> Abandoned(states[i], k))
  {
    if i > 0 {
      PoolLosses(env, states, events, i - 1, k);
      assert StepAt(env, states, events, i - 1);
      StepLoses(env, states[i - 1], events[i - 1], states[i], k);
    }
  }

  /** The thread takes connections from the queue. */
  predicate Queueing(pc: Pc) {
    pc == Idle || pc == Got
  }

  lemma StepServesOne(env: Env, s: State, e: Event, t: State)
    requires !env.pool && Next(env, s, e) == Some(t) && forall k | 0 <= k < |s.logins| :: !Queueing(s.logins[k])
    ensures forall k | 0 <= k < |t.logins| :: !Queueing(t.logins[k])
  {
    match e {
      case ThreadGo(j) => ThreadAlone(env, s, j, t);
      case ThreadRead(j, frame, salt) =>
        ReaderAlone(env, s, j, frame, salt, t);
        ReaderServes(env, s, j, frame, salt, t);
      case MainGo => MainAlone(s, t);
      case ServeRead(frame, seconds) => assert t.logins == s.logins;
      case _ =>
    }
  }

  lemma ReaderServes(env: Env, s: State, j: nat, frame: string, salt: string, t: State)
    requires j < |s.logins| == |t.logins| && ReadStep(env, s, j, frame, salt) == Some(t)
    ensures !Queueing(t.logins[j])
  {
  }

  /** Without a pool every thread serves the one client it was made for. */
  lemma {:induction false} OneClientEach(env: Env, states: seq<State>, events: seq<Event>, i: nat)
    requires Run(env, states, events) && i <= |events| && !env.pool
    ensures forall k | 0 <= k < |states[i].logins| :: !Queueing(states[i].logins[k])
  {
    if i > 0 {
      OneClientEach(env, states, events, i - 1);
      assert StepAt(env, states, events, i - 1);
      StepServesOne(env, states[i - 1], events[i - 1], states[i]);
    }
  }

  // ---------- outputs ----------

  /** On no connection is a UOFF written before its MOTD. */
  lemma MotdBeforeUoff(env: Env, states: seq<State>, events: seq<Event>, i: nat, fd: int, n: nat)
    requires QuietRun(env, states, events) && i <= |events|
    requires fd in states[i].out && n < |states[i].out[fd]| && states[i].out[fd][n].Uoff?
    ensures exists m :: 0 <= m < n && states[i].out[fd][m] == Motd
  {
    RunInv(env, states, events, i);
    assert MotdFirst(states[i].out[fd]);
    var t := states[i].out[fd];
    assert Motd in t[..n];
    var m :| 0 <= m < n && t[..n][m] == Motd;
    assert t[m] == Motd;
  }

  /** A message is clean, or a relayed MSG. */
  ghost predicate MsgOk(motd: string, m: Msg) {
    if m.Relay? then Token(Tokens(m.text), 0) == "MSG" else CleanMsg(motd, m)
  }

  ghost predicate OutOk(motd: string, o: map<int, seq<Msg>>) {
    forall fd, i | fd in o && 0 <= i < |o[fd]| :: MsgOk(motd, o[fd][i])
  }

  lemma WriteOk(motd: string, o: map<int, seq<Msg>>, fd: int, ms: seq<Msg>)
    requires OutOk(motd, o) && forall i | 0 <= i < |ms| :: MsgOk(motd, ms[i])
    ensures OutOk(motd, WriteTo(o, fd, ms))
  {
  }

  lemma {:induction false} WriteEachOk(motd: string, o: map<int, seq<Msg>>, fds: seq<int>, m: Msg)
    requires OutOk(motd, o) && MsgOk(motd, m)
    ensures OutOk(motd, WriteEach(o, fds, m))
    decreases |fds|
  {
    if fds != [] {
      WriteOk(motd, o, fds[0], [m]);
      WriteEachOk(motd, WriteTo(o, fds[0], [m]), fds[1..], m);
    }
  }

  lemma {:induction false} ConnectedClean(v: seq<User>)
    requires forall i | 0 <= i < |v| :: CleanName(v[i].name)
    ensures forall i | 0 <= i < |ConnectedNames(v)| :: CleanName(ConnectedNames(v)[i])
  {
    if v != [] {
      ConnectedClean(v[1..]);
    }
  }

  lemma CheckOutOk(env: Env, motd: string, s: State, k: nat, t: State)
    requires k < |s.logins| && PcOk(env, s, k, s.logins[k]) && ThreadStep(env, s, k) == Some(t)
    requires OutOk(motd, s.out) && (s.logins[k].CheckNew? || s.logins[k].CheckIam?)
    ensures OutOk(motd, t.out)
  {
    var u, name := s.logins[k].u, s.logins[k].name;
    WriteOk(motd, s.out, UserAt(s, u).fd, [Hinew(name)]);
    WriteOk(motd, s.out, UserAt(s, u).fd, [Auth(name)]);
  }

  lemma OwnOutOk(env: Env, motd: string, s: State, k: nat, t: State)
    requires k < |s.logins| && ThreadStep(env, s, k) == Some(t) && OutOk(motd, s.out) && Unterminated(motd)
    requires s.logins[k].GreetNew? || s.logins[k].SendMotd? || s.logins[k].Refuse? || s.logins[k].RefuseOpen?
    ensures OutOk(motd, t.out)
  {
    var fd := UserAt(s, s.logins[k].u).fd;
    if s.logins[k].GreetNew? {
      WriteOk(motd, s.out, fd, [HiNew]);
    } else if s.logins[k].SendMotd? {
      WriteOk(motd, s.out, fd, [Motd]);
    } else if s.logins[k].Refuse? {
      WriteOk(motd, s.out, fd, [Err(s.logins[k].code), Bye]);
    } else {
      WriteOk(motd, s.out, fd, [Err(100), Bye]);
    }
  }

  lemma NoOutput(env: Env, s: State, k: nat, t: State)
    requires k < |s.logins| && ThreadStep(env, s, k) == Some(t)
    requires match s.logins[k]
             case Idle => true
             case Got => true
             case WantNew(_, _) => true
             case WantIam(_, _) => true
             case AddAccount(_, _, _) => true
             case Grant(_, _, _, _) => true
             case Release(_, _) => true
             case Cleanup(_) => true
             case Drop(_, _) => true
             case _ => false
    ensures t.out == s.out
  {
  }

  lemma ThreadOutOk(env: Env, motd: string, s: State, k: nat, t: State)
    requires ListInv(s) && k < |s.logins| && PcOk(env, s, k, s.logins[k]) && ThreadStep(env, s, k) == Some(t)
    requires OutOk(motd, s.out) && Unterminated(motd)
    ensures OutOk(motd, t.out)
  {
    var pc := s.logins[k];
    if pc.DropCast? {
      WriteEachOk(motd, s.out, ConnectedFds(View(s)), Uoff(s.users[pc.u].name));
    } else if pc.CheckNew? || pc.CheckIam? {
      CheckOutOk(env, motd, s, k, t);
    } else if pc.GreetNew? || pc.SendMotd? || pc.Refuse? || pc.RefuseOpen? {
      OwnOutOk(env, motd, s, k, t);
    } else {
      NoOutput(env, s, k, t);
    }
  }

  lemma ReadOutOk(env: Env, motd: string, s: State, k: nat, frame: string, salt: string, t: State)
    requires ThreadInv(env, s) && k < |s.logins| && ReadStep(env, s, k, frame, salt) == Some(t) && OutOk(motd, s.out)
    ensures OutOk(motd, t.out)
  {
    assert PcOk(env, s, k, s.logins[k]);
    match s.logins[k] {
      case Wolfie(u) => WriteOk(motd, s.out, UserAt(s, u).fd, [Eiflow]);
      case AwaitNewPass(u, _) => WriteOk(motd, s.out, UserAt(s, u).fd, [Ssapwen]);
      case AwaitPass(u, _, name) => WriteOk(motd, s.out, UserAt(s, u).fd, [Ssap, Hi(name)]);
      case _ =>
    }
  }

  lemma MainOutOk(motd: string, s: State, t: State)
    requires ListInv(s) && MainInv(s) && MainStep(s) == Some(t) && OutOk(motd, s.out)
    ensures OutOk(motd, t.out)
  {
    match s.main {
      case RelayMsg(fd, to, from, text) =>
        WriteOk(motd, s.out, fd, [Err(1)]);
        if to.Some? && from.Some? {
          var fd1 := UserAt(s, to.value).fd;
          WriteOk(motd, s.out, fd1, [Relay(text)]);
          WriteOk(motd, WriteTo(s.out, fd1, [Relay(text)]), UserAt(s, from.value).fd, [Relay(text)]);
        }
      case ByeCast(r, _) => WriteEachOk(motd, s.out, ConnectedFds(View(s)), Uoff(s.users[r].name));
      case CrashCast(r) => WriteEachOk(motd, s.out, ConnectedFds(View(s)), Uoff(s.users[r].name));
      case _ =>
    }
  }

  lemma ServeOutOk(motd: string, s: State, frame: string, seconds: string, t: State)
    requires ListInv(s) && ServeStep(s, frame, seconds) == Some(t) && OutOk(motd, s.out) && CleanName(seconds)
    ensures OutOk(motd, t.out)
  {
    var fd := UserAt(s, s.main.u).fd;
    ConnectedClean(View(s));
    WriteOk(motd, s.out, fd, [Emit(seconds)]);
    WriteOk(motd, s.out, fd, [Utsil(ConnectedNames(View(s)))]);
    WriteOk(motd, s.out, fd, [Bye]);
  }

  lemma StepOutOk(env: Env, motd: string, s: State, e: Event, t: State)
    requires Inv(env, s) && Step(env, s, e, t) && OutOk(motd, s.out) && Unterminated(motd)
    ensures OutOk(motd, t.out)
  {
    match e {
      case Accept(fd) =>
      case Readable(fd) =>
      case ServeRead(frame, seconds) => ServeOutOk(motd, s, frame, seconds, t);
      case MainGo => MainOutOk(motd, s, t);
      case ThreadRead(k, frame, salt) => ReadOutOk(env, motd, s, k, frame, salt, t);
      case ThreadGo(k) => ThreadOutOk(env, motd, s, k, t);
    }
  }

  /** Message hygiene over whole runs: each message the server itself makes up carries the
      terminator once, at its end, and only relayed MSG messages are passed on as they came. */
  lemma {:induction false} OutputsClean(env: Env, motd: string, states: seq<State>, events: seq<Event>, i: nat)
    requires QuietRun(env, states, events) && i <= |events| && Unterminated(motd)
    ensures forall fd, n | fd in states[i].out && 0 <= n < |states[i].out[fd]| ::
      var m := states[i].out[fd][n];
      if m.Relay? then Token(Tokens(m.text), 0) == "MSG"
      else Terminated(Render(motd, m)) && EndsOnce(Render(motd, m))
  {
    OutputsOk(env, motd, states, events, i);
    forall fd, n | fd in states[i].out && 0 <= n < |states[i].out[fd]| && !states[i].out[fd][n].Relay?
      ensures var m := states[i].out[fd][n]; Terminated(Render(motd, m)) && EndsOnce(Render(motd, m))
    {
      assert MsgOk(motd, states[i].out[fd][n]);
      MessageEndsOnce(motd, states[i].out[fd][n]);
    }
  }

  lemma {:induction false} OutputsOk(env: Env, motd: string, states: seq<State>, events: seq<Event>, i: nat)
    requires QuietRun(env, states, events) && i <= |events| && Unterminated(motd)
    ensures OutOk(motd, states[i].out)
  {
    if i > 0 {
      OutputsOk(env, motd, states, events, i - 1);
      RunInv(env, states, events, i - 1);
      assert StepAt(env, states, events, i - 1);
      StepOutOk(env, motd, states[i - 1], events[i - 1], states[i]);
    }
  }

  // ---------- the mutex ----------

  /** The thread holds the mutex and will exit with it. */
  predicate Doomed(pc: Pc) {
    pc == Exited(true) || (pc.Drop? && pc.held) || (pc.DropCast? && pc.held)
  }

  /** A login thread that reads the end of its input while it has the mutex takes it along: nobody
      else ever has it again. */
  lemma {:induction false} MutexLost(env: Env, states: seq<State>, events: seq<Event>, i: nat, j: nat, k: nat, salt: string)
    requires QuietRun(env, states, events) && i < j <= |events|
    requires events[i] == ThreadRead(k, "", salt) && states[i].owner == Some(k)
    ensures states[j].owner == Some(k) && k < |states[j].logins| && Doomed(states[j].logins[k])
    decreases j
  {
    if i < j - 1 {
      MutexLost(env, states, events, i, j - 1, k, salt);
      DoomedAt(env, states, events, j - 1, k);
    } else {
      DoomedFrom(env, states, events, i, k, salt);
    }
  }

  lemma DoomedFrom(env: Env, states: seq<State>, events: seq<Event>, i: nat, k: nat, salt: string)
    requires QuietRun(env, states, events) && i < |events| && events[i] == ThreadRead(k, "", salt) && states[i].owner == Some(k)
    ensures k < |states[i + 1].logins| && Doomed(states[i + 1].logins[k]) && states[i + 1].owner == Some(k)
  {
    RunInv(env, states, events, i);
    assert StepAt(env, states, events, i);
    BecomesDoomed(env, states[i], k, salt, states[i + 1]);
  }

  lemma DoomedAt(env: Env, states: seq<State>, events: seq<Event>, i: nat, k: nat)
    requires QuietRun(env, states, events) && i < |events| && k < |states[i].logins| && Doomed(states[i].logins[k])
    ensures k < |states[i + 1].logins| && Doomed(states[i + 1].logins[k]) && states[i + 1].owner == Some(k)
  {
    RunInv(env, states, events, i + 1);
    assert StepAt(env, states, events, i);
    StaysDoomed(env, states[i], events[i], states[i + 1], k);
    DoomedOwns(env, states[i + 1], k);
  }

  lemma BecomesDoomed(env: Env, s: State, k: nat, salt: string, t: State)
    requires ThreadInv(env, s) && k < |s.logins| && s.owner == Some(k) && Next(env, s, ThreadRead(k, "", salt)) == Some(t)
    ensures k < |t.logins| && Doomed(t.logins[k]) && t.owner == Some(k)
  {
    assert Holds(s.logins[k]);
  }

  lemma DoomedOwns(env: Env, s: State, k: nat)
    requires ThreadInv(env, s) && k < |s.logins| && Doomed(s.logins[k])
    ensures s.owner == Some(k)
  {
    assert Holds(s.logins[k]);
  }

  lemma StaysDoomed(env: Env, s: State, e: Event, t: State, k: nat)
    requires Next(env, s, e) == Some(t) && k < |s.logins| && Doomed(s.logins[k])
    ensures k < |t.logins| && Doomed(t.logins[k])
  {
    match e {
      case ThreadGo(j) =>
        if j == k {
          DoomedGoes(env, s, k, t);
        } else {
          ThreadAlone(env, s, j, t);
        }
      case ThreadRead(j, frame, salt) => ReaderAlone(env, s, j, frame, salt, t);
      case MainGo => MainAlone(s, t);
      case ServeRead(frame, seconds) => assert t.logins == s.logins;
      case _ =>
    }
  }

  lemma DoomedGoes(env: Env, s: State, k: nat, t: State)
    requires k < |s.logins| && ThreadStep(env, s, k) == Some(t) && Doomed(s.logins[k])
    ensures k < |t.logins| && Doomed(t.logins[k])
  {
  }

  lemma MainAlone(s: State, t: State)
    requires MainStep(s) == Some(t)
    ensures t.logins == s.logins
  {
  }

  lemma ReaderAlone(env: Env, s: State, j: nat, frame: string, salt: string, t: State)
    requires j < |s.logins| && ReadStep(env, s, j, frame, salt) == Some(t)
    ensures |t.logins| == |s.logins| && !Doomed(s.logins[j]) && forall k | 0 <= k < |s.logins| && k != j :: t.logins[k] == s.logins[k]
  {
  }

  lemma ThreadAlone(env: Env, s: State, j: nat, t: State)
    requires j < |s.logins| && ThreadStep(env, s, j) == Some(t)
    ensures |t.logins| == |s.logins| && forall k | 0 <= k < |s.logins| && k != j :: t.logins[k] == s.logins[k]
    ensures Queueing(t.logins[j]) ==> env.pool || Queueing(s.logins[j])
  {
    var pc := s.logins[j];
    if pc.CheckNew? || pc.CheckIam? {
      CheckerMoves(env, s, j, t);
    } else if pc.AddAccount? || pc.Grant? || pc.Drop? {
      DecidingMoves(env, s, j, t);
    } else if Holds(pc) {
      HolderAlone(env, s, j, t);
    } else {
      PasserAlone(env, s, j, t);
    }
  }

  lemma HolderAlone(env: Env, s: State, j: nat, t: State)
    requires j < |s.logins| && ThreadStep(env, s, j) == Some(t) && Holds(s.logins[j]) && !Undecided(s.logins[j])
    ensures |t.logins| == |s.logins| && forall k | 0 <= k < |s.logins| && k != j :: t.logins[k] == s.logins[k]
    ensures Queueing(t.logins[j]) ==> env.pool || Queueing(s.logins[j])
  {
  }

  lemma PasserAlone(env: Env, s: State, j: nat, t: State)
    requires j < |s.logins| && ThreadStep(env, s, j) == Some(t) && !Holds(s.logins[j]) && !s.logins[j].Drop?
    ensures |t.logins| == |s.logins| && forall k | 0 <= k < |s.logins| && k != j :: t.logins[k] == s.logins[k]
    ensures Queueing(t.logins[j]) ==> env.pool || Queueing(s.logins[j])
  {
  }
}

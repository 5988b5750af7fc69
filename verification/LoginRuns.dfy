/** The login server over whole runs. */
module LoginRuns {
  import opened Wrappers
  import opened Sequences
  import opened Accounts
  import opened AtomicAccounts
  import opened LoginServer
  import opened LoginSafety
  import opened LoginSteps
  import opened LoginHistory

  // ---------- every step keeps the invariant ----------

  lemma GotCore(env: Env, s: State, k: nat, t: State)
    requires Core(env, s) && k < |s.logins| && s.logins[k].Got? && ThreadStep(env, s, k) == Some(t)
    ensures Core(env, t)
  {
    TakingUpdate(s.logins, k, Idle);
    GotThreads(env, s, k, t);
    GotEffect(env, s, k, t);
    GotShared(s, k, t);
  }

  lemma AddAccountCore(env: Env, s: State, k: nat, t: State)
    requires Core(env, s) && k < |s.logins| && s.logins[k].AddAccount? && ThreadStep(env, s, k) == Some(t)
    ensures Core(env, t)
  {
    var AddAccount(u, name, _) := s.logins[k];
    AddAccountThreads(env, s, k, t);
    AddAccountEffect(env, s, k, t);
    AddAccountShared(s, k, u, name, t);
  }

  lemma GrantCore(env: Env, s: State, k: nat, t: State)
    requires Core(env, s) && k < |s.logins| && s.logins[k].Grant? && ThreadStep(env, s, k) == Some(t)
    ensures Core(env, t)
  {
    var Grant(u, a, name, _) := s.logins[k];
    GrantThreads(env, s, k, t);
    GrantEffect(env, s, k, t);
    GrantShared(s, k, u, a, name, t);
  }

  lemma CleanupCore(env: Env, s: State, k: nat, t: State)
    requires Core(env, s) && k < |s.logins| && s.logins[k].Cleanup? && ThreadStep(env, s, k) == Some(t)
    ensures Core(env, t)
  {
    CleanupThreads(env, s, k, t);
    CleanupEffect(env, s, k, t);
    CleanupShared(s, k, s.logins[k].u, t);
  }

  lemma DropCore(env: Env, s: State, k: nat, t: State)
    requires Core(env, s) && k < |s.logins| && s.logins[k].Drop? && ThreadStep(env, s, k) == Some(t)
    ensures Core(env, t)
  {
    var Drop(u, held) := s.logins[k];
    DropThreads(env, s, k, t);
    DropEffect(env, s, k, t);
    DropShared(s, k, u, held, t);
  }

  lemma GrantStepHistory(env: Env, s: State, k: nat, t: State)
    requires Inv(env, s) && k < |s.logins| && s.logins[k].Grant? && ThreadStep(env, s, k) == Some(t)
    ensures HistoryInv(env, t)
  {
    var Grant(u, a, name, password) := s.logins[k];
    GrantEffect(env, s, k, t);
    GrantDecides(env, s, k, t);
    GrantHistory(env, s, k, u, a, name, password, t);
  }

  lemma RefusingStepHistory(env: Env, s: State, k: nat, t: State)
    requires Inv(env, s) && k < |s.logins| && ThreadStep(env, s, k) == Some(t)
    requires s.logins[k].CheckNew? || s.logins[k].CheckIam? || s.logins[k].Drop?
    ensures HistoryInv(env, t)
  {
    var op := Abandon;
    if s.logins[k].Drop? {
      DropHistory(env, TableOf(View(s)), s, k, t);
    } else {
      TableFits(s, s.logins[k].name);
      if s.logins[k].CheckNew? {
        op := CheckNewHistory(env, TableOf(View(s)), s, k, t);
      } else {
        op := CheckIamHistory(env, TableOf(View(s)), s, k, t);
      }
    }
    RefusesKeeps(env, s, t, k, op);
  }

  lemma ThreadStepCore(env: Env, s: State, k: nat, t: State)
    requires Core(env, s) && k < |s.logins| && ThreadStep(env, s, k) == Some(t)
    ensures Core(env, t)
  {
    match s.logins[k] {
      case Idle => IdleKeeps(env, s, k, t);
      case Got => GotCore(env, s, k, t);
      case WantNew(_, _) => WantKeeps(env, s, k, t);
      case CheckNew(_, _) => CheckNewKeeps(env, s, k, t);
      case AddAccount(_, _, _) => AddAccountCore(env, s, k, t);
      case GreetNew(_) => GreetNewKeeps(env, s, k, t);
      case WantIam(_, _) => WantKeeps(env, s, k, t);
      case CheckIam(_, _) => CheckIamKeeps(env, s, k, t);
      case Grant(_, _, _, _) => GrantCore(env, s, k, t);
      case SendMotd(_, _) => SendMotdKeeps(env, s, k, t);
      case Refuse(_, _, _) => RefuseKeeps(env, s, k, t);
      case Release(_, _) => ReleaseKeeps(env, s, k, t);
      case RefuseOpen(_) => RefuseKeeps(env, s, k, t);
      case Cleanup(_) => CleanupCore(env, s, k, t);
      case Drop(_, _) => DropCore(env, s, k, t);
      case DropCast(_, _) => DropCastKeeps(env, s, k, t);
      case _ =>
    }
  }

  lemma SilentStepHistory(env: Env, s: State, k: nat, t: State)
    requires Inv(env, s) && k < |s.logins| && ThreadStep(env, s, k) == Some(t) && DecidesNothing(s.logins[k])
    ensures HistoryInv(env, t)
  {
    SilentThread(env, s, k, t);
    SilentKeeps(env, s, t);
  }

  lemma ThreadStepHistory(env: Env, s: State, k: nat, t: State)
    requires Inv(env, s) && k < |s.logins| && ThreadStep(env, s, k) == Some(t)
    ensures HistoryInv(env, t)
  {
    match s.logins[k] {
      case WantNew(_, _) => WantHistory(env, s, k, t);
      case WantIam(_, _) => WantHistory(env, s, k, t);
      case CheckNew(_, _) => RefusingStepHistory(env, s, k, t);
      case CheckIam(_, _) => RefusingStepHistory(env, s, k, t);
      case AddAccount(_, _, _) => RegisterHistory(env, s, k, t);
      case Grant(_, _, _, _) => GrantStepHistory(env, s, k, t);
      case Drop(_, _) => RefusingStepHistory(env, s, k, t);
      case _ => SilentStepHistory(env, s, k, t);
    }
  }

  lemma ReadStepCore(env: Env, s: State, k: nat, frame: string, salt: string, t: State)
    requires Core(env, s) && k < |s.logins| && Receivable(frame) && |salt| == SALT_LENGTH && ReadStep(env, s, k, frame, salt) == Some(t)
    ensures Core(env, t)
  {
    match s.logins[k] {
      case Wolfie(_) => WolfieKeeps(env, s, k, frame, salt, t);
      case Iam(_) => IamKeeps(env, s, k, frame, salt, t);
      case AwaitNewPass(_, _) =>
        AwaitNewPassEffect(env, s, k, frame, salt, t);
        AwaitNewPassKeeps(env, s, k, t, salt);
      case AwaitPass(_, _, _) =>
        AwaitPassEffect(env, s, k, frame, salt, t);
        AwaitPassKeeps(env, s, k, t);
      case _ =>
    }
  }

  lemma ReadStepHistory(env: Env, s: State, k: nat, frame: string, salt: string, t: State)
    requires Inv(env, s) && k < |s.logins| && ReadStep(env, s, k, frame, salt) == Some(t)
    ensures HistoryInv(env, t)
  {
    match s.logins[k] {
      case AwaitNewPass(_, name) =>
        TableFits(s, name);
        var op := AwaitNewPassHistory(env, TableOf(View(s)), s, k, frame, salt, t);
        RefusesKeeps(env, s, t, k, op);
      case AwaitPass(_, _, name) =>
        TableFits(s, name);
        var op := AwaitPassHistory(env, TableOf(View(s)), s, k, frame, salt, t);
        RefusesKeeps(env, s, t, k, op);
      case _ =>
        SilentRead(env, s, k, frame, salt, t);
        SilentKeeps(env, s, t);
    }
  }

  lemma MainStepCore(env: Env, s: State, t: State)
    requires Core(env, s) && Undisturbed(s, MainGo) && MainStep(s) == Some(t)
    ensures Core(env, t)
  {
    match s.main {
      case Accepted(_) => AcceptedKeeps(env, s, t);
      case Posting => LookupKeeps(env, s, t);
      case RelayMsg(_, _, _, _) => RelayKeeps(env, s, t);
      case ByeLookup(_, _) => LookupKeeps(env, s, t);
      case ByeDisconnect(r, _) =>
        DisconnectEffect(s, t);
        DisconnectThreads(env, s, t, r);
        DisconnectShared(s, t, r);
      case ByeCast(_, _) => CastKeeps(env, s, t);
      case ByeClose(_) =>
        ByeCloseThreads(env, s, t);
        ByeCloseShared(s, t);
      case CrashLookup(_) => LookupKeeps(env, s, t);
      case CrashDisconnect(r) =>
        DisconnectEffect(s, t);
        DisconnectThreads(env, s, t, r);
        DisconnectShared(s, t, r);
      case CrashClose(_) => CrashCloseKeeps(env, s, t);
      case CrashCast(_) => CastKeeps(env, s, t);
      case _ =>
    }
  }

  lemma MainStepHistory(env: Env, s: State, t: State)
    requires Inv(env, s) && MainStep(s) == Some(t)
    ensures HistoryInv(env, t)
  {
    if s.main.ByeDisconnect? || s.main.CrashDisconnect? {
      LogoutHistory(env, s, t);
    } else {
      SilentMain(s, t);
      SilentKeeps(env, s, t);
    }
  }

  lemma AcceptInv(env: Env, s: State, fd: int, t: State)
    requires Inv(env, s) && AcceptStep(env, s, fd) == Some(t)
    ensures Inv(env, t)
  {
    AcceptThreads(env, s, fd, t);
    AcceptShared(env, s, fd, t);
    SilentAccept(env, s, fd, t);
    SilentKeeps(env, s, t);
  }

  lemma ReadableInv(env: Env, s: State, fd: int, t: State)
    requires Inv(env, s) && ReadableStep(s, fd) == Some(t)
    ensures Inv(env, t)
  {
    if t != s {
      QuietMainStep(env, s, t);
      assert View(t) == View(s);
      SilentKeeps(env, s, t);
    }
  }

  lemma StepKeepsInv(env: Env, s: State, e: Event, t: State)
    requires Inv(env, s) && Step(env, s, e, t) && Undisturbed(s, e)
    ensures Inv(env, t)
  {
    match e {
      case Accept(fd) => AcceptInv(env, s, fd, t);
      case Readable(fd) => ReadableInv(env, s, fd, t);
      case ServeRead(frame, seconds) =>
        ServeKeeps(env, s, frame, seconds, t);
        SilentServe(s, frame, seconds, t);
        SilentKeeps(env, s, t);
      case MainGo =>
        MainStepCore(env, s, t);
        MainStepHistory(env, s, t);
      case ThreadRead(k, frame, salt) =>
        ReadStepCore(env, s, k, frame, salt, t);
        ReadStepHistory(env, s, k, frame, salt, t);
      case ThreadGo(k) =>
        ThreadStepCore(env, s, k, t);
        ThreadStepHistory(env, s, k, t);
    }
  }

  /** Closing a descriptor by reading the record once more keeps the invariant exactly when the
      account has not been logged in again since it was disconnected. */
  lemma CrashCloseExact(env: Env, s: State, t: State)
    requires Inv(env, s) && s.main.CrashClose? && Step(env, s, MainGo, t)
    ensures Inv(env, t) <==> Undisturbed(s, MainGo)
  {
    if Undisturbed(s, MainGo) {
      StepKeepsInv(env, s, MainGo, t);
    } else {
      var r := s.main.r;
      var p := ListedAt(s, r);
      assert t.list[p] == r && t.users[r].connected && t.users[r].fd !in t.open;
    }
  }

  lemma InitInv(env: Env, s: State)
    requires Init(env, s)
    ensures Inv(env, s)
  {
    if env.pool {
      NobodyTaking(s.logins);
    }
    assert View(s) == s.users;
  }

  lemma RunInv(env: Env, states: seq<State>, events: seq<Event>, i: nat)
    requires QuietRun(env, states, events) && i <= |events|
    ensures Inv(env, states[i])
  {
    var next := (s: State, e: Event, t: State) => Step(env, s, e, t) && Undisturbed(s, e);
    var inv := (s: State) => Inv(env, s);
    InitInv(env, states[0]);
    forall s, e, t | inv(s) && next(s, e, t) ensures inv(t) {
      StepKeepsInv(env, s, e, t);
    }
    forall k | 0 <= k < |events| ensures next(states[k], events[k], states[k + 1]) {
      assert StepAt(env, states, events, k);
    }
    HoldsThroughout(next, inv, states, events, i);
  }
}

/** Whatever becomes of a client, the account table justified it at that moment. */
module HandshakeReasons {
  import opened Wrappers
  import opened Accounts
  import opened AtomicAccounts
  import opened Text
  import opened Wire
  import opened LoginServer
  import opened LoginSafety
  import opened LoginSteps
  import opened LoginTheorems
  import opened LoginClient
  import opened Handshake
  import opened HandshakeFrames
  import opened HandshakeSteps
  import opened HandshakeTheorems

  /** How a dialogue ends: with ERR and a code, or in a session. */
  datatype Verdict = SentAway(code: nat) | LetIn

  /** The operation settles what becomes of what this client has typed, with this verdict. */
  predicate Settles(op: Op, c: Client, v: Verdict) {
    match op
    case Register(n, pw, _, _, _) => c.isNew && Named(c, n) && Proved(c, pw) && v == LetIn
    case Login(n, pw, _) => !c.isNew && Named(c, n) && Proved(c, pw) && v == LetIn
    case RefuseTaken(n) => c.isNew && Named(c, n) && v == SentAway(0)
    case RefuseBusy(n) => !c.isNew && Named(c, n) && v == SentAway(0)
    case RefuseUnknown(n) => !c.isNew && Named(c, n) && v == SentAway(1)
    case RefusePassword(n, pw) => !c.isNew && Named(c, n) && Proved(c, pw) && v == SentAway(2)
    case RefuseNewPassword(n, pw) => c.isNew && Named(c, n) && Proved(c, pw) && v == SentAway(2)
    case _ => false
  }

  /** What speaks for the verdict: such an operation, recorded after the first `from` operations;
      for code 100, a wrong message, that what was typed cannot be read as one. */
  ghost predicate Grounds(s: State, c: Client, v: Verdict, from: nat) {
    if v == SentAway(100) then !NameFits(c) || !PasswordFits(c)
    else exists h :: from <= h < |s.book.history| && Settles(s.book.history[h].op, c, v)
  }

  /** The thread that serves fd is about to write ERR with this code. */
  predicate AboutToTell(s: State, fd: int, code: nat) {
    && fd in s.book.claim && s.book.claim[fd].InLogin? && s.book.claim[fd].k < |s.logins|
    && var pc := s.logins[s.book.claim[fd].k];
    (pc.Refuse? && pc.code == code) || (pc.RefuseOpen? && code == 100)
  }

  predicate HasTold(s: State, fd: int, code: nat) {
    fd in s.out && Err(code) in s.out[fd]
  }

  /** The verdict has been passed. */
  predicate Ruled(s: State, fd: int, v: Verdict) {
    match v
    case SentAway(code) => AboutToTell(s, fd, code) || HasTold(s, fd, code)
    case LetIn => fd in s.book.claim && s.book.claim[fd].Session?
  }

  ghost predicate Reasoned(s: State, fd: int, c: Client, v: Verdict, from: nat) {
    Ruled(s, fd, v) ==> Grounds(s, c, v, from)
  }

  lemma GroundsKept(s: State, t: State, c: Client, n: Client, v: Verdict, from: nat)
    requires Grounds(s, c, v, from) && s.book.history <= t.book.history
    requires n.name == c.name && n.password == c.password && n.isNew == c.isNew
    ensures Grounds(t, n, v, from)
  {
    if v != SentAway(100) {
      var h :| from <= h < |s.book.history| && Settles(s.book.history[h].op, c, v);
      assert t.book.history[h] == s.book.history[h];
    }
  }

  // ---------- the thread that serves the client ----------

  /** A refusal after a read, other than of a wrong message, is recorded with the password that was read. */
  lemma RefusalRecorded(env: Env, s: State, k: nat, frame: string, salt: string, t: State)
    requires k < |s.logins| && ReadStep(env, s, k, frame, salt) == Some(t)
    requires k < |t.logins| && t.logins[k].Refuse? && t.logins[k].code != 100
    ensures t.logins[k].code == 2 && (s.logins[k].AwaitNewPass? || s.logins[k].AwaitPass?)
    ensures var isNew, ts := s.logins[k].AwaitNewPass?, Tokens(frame);
      && Carries(ts, PassVerb(isNew))
      && t.book.history == s.book.history + [Entry(LoginThread(k),
           if isNew then RefuseNewPassword(s.logins[k].name, ts[1]) else RefusePassword(s.logins[k].name, ts[1]))]
  {
  }

  lemma ReadTells(env: Env, s: State, k: nat, frame: string, salt: string, t: State, fd: int, c: Client, code: nat, from: nat)
    requires Talk(s, fd, c) && s.book.claim[fd] == InLogin(k) && Delivers(c.sent, frame) && Typed(c)
    requires k < |s.logins| && ReadStep(env, s, k, frame, salt) == Some(t) && from <= |s.book.history|
    requires k < |t.logins| && t.logins[k].Refuse? && t.logins[k].code == code != 100
    ensures Grounds(t, c, SentAway(code), from)
  {
    RefusalRecorded(env, s, k, frame, salt, t);
    ProvingSent(s.logins[k], s.out[fd], c, frame);
    ProvingHeard(s.out[fd], c, s.logins[k].name, frame);
    assert Settles(t.book.history[|s.book.history|].op, c, SentAway(code));
  }

  /** What was read is no message of the expected kind. */
  lemma WrongMessageRead(env: Env, s: State, k: nat, frame: string, salt: string, t: State)
    requires k < |s.logins| && ReadStep(env, s, k, frame, salt) == Some(t) && frame != ""
    requires k < |t.logins| && (t.logins[k].RefuseOpen? || (t.logins[k].Refuse? && t.logins[k].code == 100))
    ensures match s.logins[k]
            case Iam(_) => !Carries(Tokens(frame), "IAMNEW") && !Carries(Tokens(frame), "IAM")
            case AwaitNewPass(_, _) => !Carries(Tokens(frame), "NEWPASS")
            case AwaitPass(_, _, _) => !Carries(Tokens(frame), "PASS")
            case _ => false
  {
  }

  lemma ReadMalformed(env: Env, s: State, k: nat, frame: string, salt: string, t: State, fd: int, c: Client)
    requires Talk(s, fd, c) && s.book.claim[fd] == InLogin(k) && Delivers(c.sent, frame) && Typed(c)
    requires k < |s.logins| && ReadStep(env, s, k, frame, salt) == Some(t)
    requires k < |t.logins| && (t.logins[k].RefuseOpen? || (t.logins[k].Refuse? && t.logins[k].code == 100))
    ensures !NameFits(c) || !PasswordFits(c)
  {
    WrongMessageRead(env, s, k, frame, salt, t);
    if s.logins[k].Iam? {
      NamingHeard(s.out[fd], c, frame);
    } else {
      ProvingSent(s.logins[k], s.out[fd], c, frame);
      ProvingHeard(s.out[fd], c, s.logins[k].name, frame);
    }
  }

  lemma ProvingSent(pc: Pc, t: seq<Msg>, c: Client, frame: string)
    requires Ours(pc, t, c) && (pc.AwaitNewPass? || pc.AwaitPass?) && Delivers(c.sent, frame)
    ensures Named(c, pc.name) && c.isNew == pc.AwaitNewPass?
  {
  }

  lemma ReadKeepsClaim(env: Env, s: State, k: nat, frame: string, salt: string, t: State)
    requires k < |s.logins| && ReadStep(env, s, k, frame, salt) == Some(t)
    ensures t.book.claim == s.book.claim
  {
  }

  lemma ReadWritesNoError(env: Env, s: State, k: nat, frame: string, salt: string, t: State, fd: int, code: nat)
    requires fd in s.out && k < |s.logins| && ReadStep(env, s, k, frame, salt) == Some(t)
    ensures HasTold(t, fd, code) ==> HasTold(s, fd, code)
  {
  }

  lemma OwnReadReasoned(env: Env, s: State, k: nat, frame: string, salt: string, t: State, fd: int, c: Client, v: Verdict, from: nat)
    requires Talk(s, fd, c) && s.book.claim[fd] == InLogin(k) && Delivers(c.sent, frame) && Typed(c)
    requires k < |s.logins| && ReadStep(env, s, k, frame, salt) == Some(t) && from <= |s.book.history|
    requires !Ruled(s, fd, v)
    ensures Reasoned(t, fd, c, v, from)
  {
    ReadKeepsClaim(env, s, k, frame, salt, t);
    if v.SentAway? {
      ReadWritesNoError(env, s, k, frame, salt, t, fd, v.code);
      if AboutToTell(t, fd, v.code) {
        if v.code == 100 {
          ReadMalformed(env, s, k, frame, salt, t, fd, c);
        } else {
          ReadTells(env, s, k, frame, salt, t, fd, c, v.code, from);
        }
      }
    }
  }

  /** A name that was read is never too long for the buffer. */
  lemma NamedFits(c: Client, n: string)
    requires Named(c, n)
    ensures |n| <= MAX_INPUT
  {
    TokensLength(c.name);
    MessageLength(NameVerb(c.isNew), c.name);
    assert TotalLength([n]) == |n|;
  }

  lemma CheckNewRecorded(env: Env, s: State, k: nat, t: State)
    requires k < |s.logins| && s.logins[k].CheckNew? && ThreadStep(env, s, k) == Some(t)
    ensures t.book.claim == s.book.claim
    ensures k < |t.logins| ==> !t.logins[k].RefuseOpen? && (t.logins[k].Refuse? && t.logins[k].code == 100 ==> |s.logins[k].name| > MAX_INPUT)
    ensures k < |t.logins| && t.logins[k].Refuse? && t.logins[k].code != 100 ==>
      t.book.history == s.book.history + [Entry(LoginThread(k), RefuseTaken(s.logins[k].name))] && t.logins[k].code == 0
  {
  }

  lemma CheckIamRecorded(env: Env, s: State, k: nat, t: State)
    requires k < |s.logins| && s.logins[k].CheckIam? && ThreadStep(env, s, k) == Some(t)
    ensures t.book.claim == s.book.claim
    ensures k < |t.logins| ==> !t.logins[k].RefuseOpen? && (t.logins[k].Refuse? && t.logins[k].code == 100 ==> |s.logins[k].name| > MAX_INPUT)
    ensures k < |t.logins| && t.logins[k].Refuse? && t.logins[k].code != 100 ==>
      && |t.book.history| == |s.book.history| + 1 && t.logins[k].code <= 1
      && t.book.history[|s.book.history|].op ==
         if t.logins[k].code == 0 then RefuseBusy(s.logins[k].name) else RefuseUnknown(s.logins[k].name)
  {
  }

  lemma CheckWrites(env: Env, s: State, k: nat, t: State, fd: int, code: nat)
    requires fd in s.out && k < |s.logins| && (s.logins[k].CheckNew? || s.logins[k].CheckIam?) && ThreadStep(env, s, k) == Some(t)
    ensures HasTold(t, fd, code) ==> HasTold(s, fd, code)
  {
  }

  lemma CheckReasoned(env: Env, s: State, k: nat, t: State, fd: int, c: Client, v: Verdict, from: nat)
    requires Talk(s, fd, c) && s.book.claim[fd] == InLogin(k) && (s.logins[k].CheckNew? || s.logins[k].CheckIam?)
    requires k < |s.logins| && ThreadStep(env, s, k) == Some(t) && from <= |s.book.history|
    requires !Ruled(s, fd, v)
    ensures Reasoned(t, fd, c, v, from)
  {
    if s.logins[k].CheckNew? {
      CheckNewRecorded(env, s, k, t);
    } else {
      CheckIamRecorded(env, s, k, t);
    }
    if v.SentAway? {
      CheckWrites(env, s, k, t, fd, v.code);
      NamedFits(c, s.logins[k].name);
      if AboutToTell(t, fd, v.code) {
        assert Settles(t.book.history[|s.book.history|].op, c, v);
      }
    }
  }

  /** An account connects with the password that was typed. */
  lemma EntryRecorded(env: Env, s: State, k: nat, t: State)
    requires k < |s.logins| && (s.logins[k].AddAccount? || s.logins[k].Grant?) && ThreadStep(env, s, k) == Some(t)
    ensures |t.book.history| == |s.book.history| + 1
    ensures var pc, op := s.logins[k], t.book.history[|s.book.history|].op;
      if pc.AddAccount? then op.Register? && op.name == pc.name && op.password == pc.password
      else op.Login? && op.name == pc.name && op.password == pc.password
  {
  }

  /** Such a step writes nothing and leaves the descriptor to a session. */
  lemma EntryQuiet(env: Env, s: State, k: nat, t: State)
    requires ListInv(s) && SessionInv(s) && DescriptorInv(s)
    requires k < |s.logins| && PcOk(env, s, k, s.logins[k]) && (s.logins[k].AddAccount? || s.logins[k].Grant?)
    requires ThreadStep(env, s, k) == Some(t)
    ensures t.out == s.out && s.users[s.logins[k].u].fd in t.book.claim && t.book.claim[s.users[s.logins[k].u].fd].Session?
  {
    if s.logins[k].AddAccount? {
      AddAccountEffect(env, s, k, t);
    } else {
      GrantEffect(env, s, k, t);
    }
  }

  lemma EntryReasoned(env: Env, s: State, k: nat, t: State, fd: int, c: Client, v: Verdict, from: nat)
    requires ListInv(s) && SessionInv(s) && DescriptorInv(s) && Talk(s, fd, c) && s.book.claim[fd] == InLogin(k)
    requires k < |s.logins| && PcOk(env, s, k, s.logins[k]) && ThreadStep(env, s, k) == Some(t) && from <= |s.book.history|
    requires (s.logins[k].AddAccount? || s.logins[k].Grant?) && !Ruled(s, fd, v)
    ensures Reasoned(t, fd, c, v, from)
  {
    EntryRecorded(env, s, k, t);
    EntryQuiet(env, s, k, t);
    if v.LetIn? {
      assert Settles(t.book.history[|s.book.history|].op, c, v);
    }
  }

  lemma OwnWrites(env: Env, s: State, k: nat, t: State, fd: int, c: Client, v: Verdict)
    requires Talk(s, fd, c) && s.book.claim[fd] == InLogin(k)
    requires k < |s.logins| && ThreadStep(env, s, k) == Some(t)
    requires s.logins[k].WantNew? || s.logins[k].WantIam? || s.logins[k].Refuse? || s.logins[k].RefuseOpen? || s.logins[k].Release?
    ensures Ruled(t, fd, v) ==> Ruled(s, fd, v)
  {
  }

  lemma OwnReasoned(env: Env, s: State, k: nat, t: State, fd: int, c: Client, v: Verdict, from: nat)
    requires Core(env, s) && Talk(s, fd, c) && s.book.claim[fd] == InLogin(k)
    requires k < |s.logins| && ThreadStep(env, s, k) == Some(t) && from <= |s.book.history|
    requires !Ruled(s, fd, v)
    ensures Reasoned(t, fd, c, v, from)
  {
    assert PcOk(env, s, k, s.logins[k]);
    if s.logins[k].AddAccount? || s.logins[k].Grant? {
      EntryReasoned(env, s, k, t, fd, c, v, from);
    } else if s.logins[k].Cleanup? {
      CleanupEffect(env, s, k, t);
    } else if s.logins[k].CheckNew? || s.logins[k].CheckIam? {
      CheckReasoned(env, s, k, t, fd, c, v, from);
    } else {
      OwnWrites(env, s, k, t, fd, c, v);
    }
  }

  // ---------- steps that serve others ----------

  lemma QuietTells(s: State, t: State, fd: int, v: Verdict)
    requires Untouched(s, t, fd)
    requires s.book.claim[fd].InLogin? && s.book.claim[fd].k < |t.logins| ==>
      s.book.claim[fd].k < |s.logins| && t.logins[s.book.claim[fd].k] == s.logins[s.book.claim[fd].k]
    ensures Ruled(t, fd, v) ==> Ruled(s, fd, v)
  {
    if v.SentAway? && HasTold(t, fd, v.code) {
      var i :| 0 <= i < |t.out[fd]| && t.out[fd][i] == Err(v.code);
      assert !Noise(Err(v.code));
    }
  }

  lemma GreetingTells(env: Env, s: State, k: nat, t: State, fd: int, v: Verdict)
    requires k < |s.logins| && (s.logins[k].GreetNew? || s.logins[k].SendMotd?) && ThreadStep(env, s, k) == Some(t)
    requires fd in s.book.claim && s.book.claim[fd].Session? && fd in s.out
    ensures Ruled(t, fd, v) ==> Ruled(s, fd, v)
  {
  }

  lemma ThreadTells(env: Env, s: State, k: nat, t: State, fd: int, c: Client, v: Verdict)
    requires Inv(env, s) && Talk(s, fd, c) && k < |s.logins| && ThreadStep(env, s, k) == Some(t) && s.book.claim[fd] != InLogin(k)
    ensures Ruled(t, fd, v) ==> Ruled(s, fd, v)
  {
    if Serves(s, k, fd) {
      GreetingTells(env, s, k, t, fd, v);
    } else if s.logins[k] == Got && s.queue != [] && s.book.claim[fd] == Waiting(s.queue[0]) {
      GotEffect(env, s, k, t);
    } else {
      ThreadUntouched(env, s, k, t, fd);
      ThreadMoves(env, s, k, t);
      QuietTells(s, t, fd, v);
    }
  }

  lemma OtherReadTells(env: Env, s: State, k: nat, frame: string, salt: string, t: State, fd: int, c: Client, v: Verdict)
    requires Inv(env, s) && Talk(s, fd, c) && !ReadsFrom(s, k, fd)
    requires k < |s.logins| && ReadStep(env, s, k, frame, salt) == Some(t)
    ensures Ruled(t, fd, v) ==> Ruled(s, fd, v)
  {
    ReadUntouched(env, s, k, frame, salt, t, fd);
    ReadersStay(env, s, k, frame, salt, t);
    QuietTells(s, t, fd, v);
  }

  lemma MainTells(env: Env, s: State, t: State, fd: int, c: Client, v: Verdict)
    requires Inv(env, s) && Talk(s, fd, c) && MainStep(s) == Some(t) && Undisturbed(s, MainGo)
    ensures Ruled(t, fd, v) ==> Ruled(s, fd, v)
  {
    if s.main.Accepted? && s.book.claim[fd] == Entering(s.main.u) {
      assert t.out == s.out;
    } else {
      MainUntouched(s, t, fd);
      MainMoves(s, t);
      QuietTells(s, t, fd, v);
    }
  }

  lemma OtherTells(env: Env, s: State, e: Event, t: State, fd: int, c: Client, v: Verdict)
    requires Inv(env, s) && Talk(s, fd, c) && Next(env, s, e) == Some(t) && Undisturbed(s, e)
    requires e.ThreadRead? ==> !ReadsFrom(s, e.k, fd)
    requires e.ThreadGo? ==> s.book.claim[fd] != InLogin(e.k)
    ensures Ruled(t, fd, v) ==> Ruled(s, fd, v)
  {
    match e {
      case Accept(f) =>
        AcceptUntouched(env, s, f, t, fd);
        assert s.book.claim[fd].InLogin? ==> ReadsFrom(s, s.book.claim[fd].k, fd);
        QuietTells(s, t, fd, v);
      case Readable(f) => assert t.out == s.out && t.logins == s.logins && t.book == s.book;
      case ServeRead(frame, seconds) =>
        ServeUntouched(s, frame, seconds, t, fd);
        ServeEffect(s, frame, seconds, t);
        QuietTells(s, t, fd, v);
      case MainGo => MainTells(env, s, t, fd, c, v);
      case ThreadGo(k) => ThreadTells(env, s, k, t, fd, c, v);
      case ThreadRead(k, frame, salt) => OtherReadTells(env, s, k, frame, salt, t, fd, c, v);
    }
  }

  // ---------- every step ----------

  lemma ServerReasoned(env: Env, d: Duo, e: Event, n: Duo, v: Verdict, from: nat)
    requires InStep(env, d) && Step(env, d.server, e, n.server) && Undisturbed(d.server, e) && Channel(d, e, n.client) && n.fd == d.fd
    requires from <= |d.server.book.history| && !Ruled(d.server, d.fd, v)
    ensures Reasoned(n.server, d.fd, d.client, v, from)
  {
    var s, t, fd := d.server, n.server, d.fd;
    if e.ThreadRead? && ReadsFrom(s, e.k, fd) {
      ReaderClaims(env, s, e.k, fd);
      OwnReadReasoned(env, s, e.k, e.frame, e.salt, t, fd, d.client, v, from);
    } else if e.ThreadGo? && s.book.claim[fd] == InLogin(e.k) {
      OwnReasoned(env, s, e.k, t, fd, d.client, v, from);
    } else {
      OtherTells(env, s, e, t, fd, d.client, v);
    }
  }

  lemma StepReasoned(env: Env, motd: string, d: Duo, e: DuoEvent, n: Duo, v: Verdict, from: nat)
    requires InStep(env, d) && DuoStep(env, motd, d, e, n) && from <= |d.server.book.history|
    requires Reasoned(d.server, d.fd, d.client, v, from)
    ensures Reasoned(n.server, n.fd, n.client, v, from) && d.server.book.history <= n.server.book.history && d.server.book.base == n.server.book.base
  {
    StillTyped(env, motd, d, e, n);
    if e.ServerDoes? {
      StepExtends(env, d.server, e.e, n.server);
    }
    if Ruled(d.server, d.fd, v) {
      GroundsKept(d.server, n.server, d.client, n.client, v, from);
    } else if e.ServerDoes? {
      ServerReasoned(env, d, e.e, n, v, from);
      if Ruled(n.server, n.fd, v) {
        GroundsKept(n.server, n.server, d.client, n.client, v, from);
      }
    }
  }

  // ---------- whole runs ----------

  /** What a client typed does not change, and the history only grows. */
  ghost predicate Later(d: Duo, n: Duo) {
    && n.client.name == d.client.name && n.client.password == d.client.password && n.client.isNew == d.client.isNew
    && d.server.book.history <= n.server.book.history && d.server.book.base == n.server.book.base
  }

  lemma {:induction false} DuoReasoned(env: Env, motd: string, states: seq<State>, events: seq<Event>, ds: seq<Duo>, es: seq<DuoEvent>, i: nat, v: Verdict)
    requires DuoRun(env, motd, states, events, ds, es) && i <= |es|
    ensures Later(ds[0], ds[i]) && Reasoned(ds[i].server, ds[i].fd, ds[i].client, v, |ds[0].server.book.history|)
  {
    if i == 0 {
      DuoTalks(env, motd, states, events, ds, es, 0);
      NothingTold(ds[0].server, ds[0].fd, ds[0].client, v);
    } else {
      DuoReasoned(env, motd, states, events, ds, es, i - 1, v);
      ReasonedAt(env, motd, states, events, ds, es, i, v, |ds[0].server.book.history|);
    }
  }

  lemma NothingTold(s: State, fd: int, c: Client, v: Verdict)
    requires Talk(s, fd, c) && c.pc == SendHello
    ensures !Ruled(s, fd, v)
  {
  }

  lemma ReasonedAt(env: Env, motd: string, states: seq<State>, events: seq<Event>, ds: seq<Duo>, es: seq<DuoEvent>, i: nat, v: Verdict, from: nat)
    requires DuoRun(env, motd, states, events, ds, es) && 0 < i <= |es| && from <= |ds[i - 1].server.book.history|
    requires Reasoned(ds[i - 1].server, ds[i - 1].fd, ds[i - 1].client, v, from)
    ensures Reasoned(ds[i].server, ds[i].fd, ds[i].client, v, from) && Later(ds[i - 1], ds[i])
  {
    DuoTalks(env, motd, states, events, ds, es, i - 1);
    StepReasoned(env, motd, ds[i - 1], es[i - 1], ds[i], v, from);
    StillTyped(env, motd, ds[i - 1], es[i - 1], ds[i]);
  }

  /** How the client's dialogue ended. */
  ghost predicate Ended(c: Client, v: Verdict) {
    match v
    case SentAway(code) => c.pc.LoggedOut? && c.pc.error == Err(code)
    case LetIn => c.pc.InSession?
  }

  lemma VerdictSeen(s: State, fd: int, c: Client, v: Verdict)
    requires Talk(s, fd, c)
    requires Ended(c, v)
    ensures Ruled(s, fd, v)
  {
    var t := s.out[fd];
    if v.SentAway? {
      assert t[|t| - 2] == Err(v.code);
    }
  }

  lemma VerdictOnRecord(env: Env, motd: string, states: seq<State>, events: seq<Event>, ds: seq<Duo>, es: seq<DuoEvent>, i: nat, v: Verdict)
    requires DuoRun(env, motd, states, events, ds, es) && i <= |es| && Ended(ds[i].client, v)
    ensures Grounds(ds[i].server, ds[i].client, v, |ds[0].server.book.history|)
    ensures Later(ds[0], ds[i]) && Replay(env, ds[i].server.book.base, ds[i].server.book.history).Some?
  {
    DuoTalks(env, motd, states, events, ds, es, i);
    DuoReasoned(env, motd, states, events, ds, es, i, v);
    VerdictSeen(ds[i].server, ds[i].fd, ds[i].client, v);
  }

  /** What the account table must be like for this verdict. Sent away with 00: the name is taken or
      in use; 01: there is no such account; 02: the password breaks the rule or does not match.
      Let in: the name is free and the password keeps the rule, or the account is idle and the
      password matches. */
  ghost predicate Justifies(env: Env, tbl: Table, c: Client, v: Verdict, name: string, password: string) {
    && Named(c, name)
    && (v.LetIn? || v == SentAway(2) ==> Proved(c, password))
    && match v
       case SentAway(code) =>
         && code <= 2
         && if code == 0 then name in tbl && (!c.isNew ==> tbl[name].session.Some?)
            else if code == 1 then !c.isNew && name !in tbl
            else if c.isNew then name !in tbl && !env.valid(password)
            else name in tbl && tbl[name].session == None && !Accepts(env, tbl[name], password)
       case LetIn =>
         if c.isNew then name !in tbl && env.valid(password)
         else name in tbl && tbl[name].session == None && Accepts(env, tbl[name], password)
  }

  lemma LegalJustifies(env: Env, tbl: Table, c: Client, v: Verdict, op: Op) returns (password: string)
    requires Legal(env, tbl, op) && Settles(op, c, v)
    ensures Justifies(env, tbl, c, v, op.name, password)
  {
    password := if op.Register? || op.Login? || op.RefusePassword? || op.RefuseNewPassword? then op.password else "";
  }

  /** At some moment since the first `from` operations the account table justified the verdict. */
  ghost predicate JustifiedSince(env: Env, b: Book, from: nat, c: Client, v: Verdict) {
    exists h: nat, name, password :: from <= h < |b.history| && Replay(env, b.base, b.history[..h]).Some?
      && Justifies(env, Replay(env, b.base, b.history[..h]).value, c, v, name, password)
  }

  /** Whether a client is let in or sent away, and with whatever error, there was a reason. It is
      told of a wrong message only if its name or its password is not one token or does not fit
      the buffer; any other verdict was justified by the account table at some moment of its
      dialogue: for its name, its password and its kind of login. */
  lemma VerdictJustified(env: Env, motd: string, states: seq<State>, events: seq<Event>, ds: seq<Duo>, es: seq<DuoEvent>, i: nat, v: Verdict)
    requires DuoRun(env, motd, states, events, ds, es) && i <= |es| && Ended(ds[i].client, v)
    ensures if v == SentAway(100) then !NameFits(ds[i].client) || !PasswordFits(ds[i].client)
            else JustifiedSince(env, ds[i].server.book, |ds[0].server.book.history|, ds[i].client, v)
  {
    var b, from := ds[i].server.book, |ds[0].server.book.history|;
    VerdictOnRecord(env, motd, states, events, ds, es, i, v);
    if v != SentAway(100) {
      var h :| from <= h < |b.history| && Settles(b.history[h].op, ds[i].client, v);
      EntryLegal(env, b.base, b.history, h);
      var password := LegalJustifies(env, Replay(env, b.base, b.history[..h]).value, ds[i].client, v, b.history[h].op);
    }
  }

  /** Exactly who is told of a wrong message: whoever's name cannot be read as one word, and whoever's
      password cannot, unless the name was refused before it was asked for. */
  lemma WrongMessageExact(env: Env, motd: string, states: seq<State>, events: seq<Event>, ds: seq<Duo>, es: seq<DuoEvent>, i: nat, v: Verdict)
    requires DuoRun(env, motd, states, events, ds, es) && i <= |es| && Ended(ds[i].client, v)
    ensures v == SentAway(100) <==> !NameFits(ds[i].client) || (!PasswordFits(ds[i].client) && v != SentAway(0) && v != SentAway(1))
  {
    VerdictJustified(env, motd, states, events, ds, es, i, v);
  }

  // ---------- logins that succeed ----------

  /** A client that has left its dialogue has got one verdict. */
  lemma EndsSomehow(env: Env, motd: string, states: seq<State>, events: seq<Event>, ds: seq<Duo>, es: seq<DuoEvent>, i: nat) returns (v: Verdict)
    requires DuoRun(env, motd, states, events, ds, es) && i <= |es| && Finished(ds[i].client.pc)
    ensures Ended(ds[i].client, v)
  {
    Agreement(env, motd, states, events, ds, es, i);
    v := if ds[i].client.pc.InSession? then LetIn else SentAway(ds[i].client.pc.error.code);
  }

  /** What the accounts were when the client connected, they still are, but for sessions. */
  lemma AccountsSince(env: Env, motd: string, states: seq<State>, events: seq<Event>, ds: seq<Duo>, es: seq<DuoEvent>, i: nat, h: nat, name: string)
    requires DuoRun(env, motd, states, events, ds, es) && i <= |es|
    requires |ds[0].server.book.history| <= h <= |ds[i].server.book.history|
    requires name in TableOf(View(ds[0].server))
    ensures var b := ds[i].server.book;
      && Replay(env, b.base, b.history[..h]).Some?
      && var t, u := TableOf(View(ds[0].server)), Replay(env, b.base, b.history[..h]).value;
      name in u && u[name].password == t[name].password && u[name].salt == t[name].salt
  {
    DuoReplays(env, motd, states, events, ds, es, 0);
    DuoReplays(env, motd, states, events, ds, es, i);
    DuoReasoned(env, motd, states, events, ds, es, i, LetIn);
    RecordsSince(env, ds[0].server.book, ds[i].server.book, h, name);
  }

  lemma DuoReplays(env: Env, motd: string, states: seq<State>, events: seq<Event>, ds: seq<Duo>, es: seq<DuoEvent>, i: nat)
    requires DuoRun(env, motd, states, events, ds, es) && i <= |es|
    ensures var s := ds[i].server; Replay(env, s.book.base, s.book.history) == Some(TableOf(View(s)))
  {
    DuoTalks(env, motd, states, events, ds, es, i);
  }

  lemma RecordsSince(env: Env, b0: Book, b: Book, h: nat, name: string)
    requires b0.base == b.base && b0.history <= b.history && |b0.history| <= h <= |b.history|
    requires Replay(env, b0.base, b0.history).Some? && name in Replay(env, b0.base, b0.history).value
    requires Replay(env, b.base, b.history).Some?
    ensures Replay(env, b.base, b.history[..h]).Some?
    ensures var t, u := Replay(env, b0.base, b0.history).value, Replay(env, b.base, b.history[..h]).value;
      name in u && u[name].password == t[name].password && u[name].salt == t[name].salt
  {
    ReplayPrefix(env, b.base, b.history, h);
    HistoryKeepsName(env, b.base, b0.history, b.history[..h], name);
  }

  /** An old user who types the name of an account and a password it accepts gets into its session,
      or is told 00 because the account was in use at some moment of the dialogue. */
  lemma LoginSucceeds(env: Env, motd: string, states: seq<State>, events: seq<Event>, ds: seq<Duo>, es: seq<DuoEvent>, i: nat, name: string, password: string)
    requires DuoRun(env, motd, states, events, ds, es) && i <= |es| && Finished(ds[i].client.pc)
    requires !ds[i].client.isNew && Named(ds[i].client, name) && Proved(ds[i].client, password)
    requires var tbl := TableOf(View(ds[0].server)); name in tbl && Accepts(env, tbl[name], password)
    ensures Ended(ds[i].client, LetIn) ||
      (Ended(ds[i].client, SentAway(0)) && JustifiedSince(env, ds[i].server.book, |ds[0].server.book.history|, ds[i].client, SentAway(0)))
  {
    var b, c, from := ds[i].server.book, ds[i].client, |ds[0].server.book.history|;
    var v := EndsSomehow(env, motd, states, events, ds, es, i);
    VerdictJustified(env, motd, states, events, ds, es, i, v);
    var h: nat, n, pw :| from <= h < |b.history| && Replay(env, b.base, b.history[..h]).Some?
      && Justifies(env, Replay(env, b.base, b.history[..h]).value, c, v, n, pw);
    AccountsSince(env, motd, states, events, ds, es, i, h, name);
    OnlyBusy(env, Replay(env, b.base, b.history[..h]).value, c, v, n, pw, name, password);
  }

  /** A table in which the account accepts the password justifies no other refusal than that it is in use. */
  lemma OnlyBusy(env: Env, tbl: Table, c: Client, v: Verdict, n: string, pw: string, name: string, password: string)
    requires !c.isNew && Named(c, name) && Proved(c, password) && Justifies(env, tbl, c, v, n, pw)
    requires name in tbl && Accepts(env, tbl[name], password)
    ensures v == LetIn || v == SentAway(0)
  {
    NamedOnce(c, n, name);
    if v == SentAway(2) {
      ProvedOnce(c, pw, password);
    }
  }

  lemma NamedOnce(c: Client, m: string, n: string)
    requires Named(c, m) && Named(c, n)
    ensures m == n
  {
    assert [m][0] == [n][0];
  }

  lemma ProvedOnce(c: Client, p: string, q: string)
    requires Proved(c, p) && Proved(c, q)
    ensures p == q
  {
    assert [p][0] == [q][0];
  }

  /** Likewise with the password the name was registered with. */
  lemma ReloginSucceeds(env: Env, motd: string, states: seq<State>, events: seq<Event>, ds: seq<Duo>, es: seq<DuoEvent>, i: nat, a: nat)
    requires DuoRun(env, motd, states, events, ds, es) && i <= |es| && Finished(ds[i].client.pc)
    requires a < |ds[0].server.book.history| && ds[0].server.book.history[a].op.Register?
    requires var op := ds[0].server.book.history[a].op; !ds[i].client.isNew && Named(ds[i].client, op.name) && Proved(ds[i].client, op.password)
    ensures Ended(ds[i].client, LetIn) ||
      (Ended(ds[i].client, SentAway(0)) && JustifiedSince(env, ds[i].server.book, |ds[0].server.book.history|, ds[i].client, SentAway(0)))
  {
    var b, op := ds[0].server.book, ds[0].server.book.history[a].op;
    DuoTalks(env, motd, states, events, ds, es, 0);
    EntryLegal(env, b.base, b.history, a);
    assert b.history[..|b.history|] == b.history;
    CredentialsPermanent(env, b.base, b.history, a + 1, op.name);
    LoginSucceeds(env, motd, states, events, ds, es, i, op.name, op.password);
  }

  /** An old user whose password does not hash to what is stored for its account never gets into a session. */
  lemma WrongPasswordKeptOut(env: Env, motd: string, states: seq<State>, events: seq<Event>, ds: seq<Duo>, es: seq<DuoEvent>, i: nat, name: string, password: string)
    requires DuoRun(env, motd, states, events, ds, es) && i <= |es| && !ds[i].client.isNew
    requires Tokens(ds[i].client.name) == [name] && Tokens(ds[i].client.password) == [password]
    requires var tbl := TableOf(View(ds[0].server)); name in tbl && env.hash(password + tbl[name].salt) != tbl[name].password
    ensures !ds[i].client.pc.InSession?
  {
    if ds[i].client.pc.InSession? {
      var b, c, from := ds[i].server.book, ds[i].client, |ds[0].server.book.history|;
      VerdictJustified(env, motd, states, events, ds, es, i, LetIn);
      var h: nat, n, pw :| from <= h < |b.history| && Replay(env, b.base, b.history[..h]).Some?
        && Justifies(env, Replay(env, b.base, b.history[..h]).value, c, LetIn, n, pw);
      AccountsSince(env, motd, states, events, ds, es, i, h, name);
    }
  }

  /** A new user who types one word each, within the buffer and the password rule, gets into its
      session, or is told 00 because the name was taken at some moment of the dialogue. */
  lemma RegistrationSucceeds(env: Env, motd: string, states: seq<State>, events: seq<Event>, ds: seq<Duo>, es: seq<DuoEvent>, i: nat, name: string, password: string)
    requires DuoRun(env, motd, states, events, ds, es) && i <= |es| && Finished(ds[i].client.pc)
    requires ds[i].client.isNew && Named(ds[i].client, name) && Proved(ds[i].client, password) && env.valid(password)
    ensures Ended(ds[i].client, LetIn) ||
      (Ended(ds[i].client, SentAway(0)) && JustifiedSince(env, ds[i].server.book, |ds[0].server.book.history|, ds[i].client, SentAway(0)))
  {
    var b, c, from := ds[i].server.book, ds[i].client, |ds[0].server.book.history|;
    var v := EndsSomehow(env, motd, states, events, ds, es, i);
    VerdictJustified(env, motd, states, events, ds, es, i, v);
    var h: nat, n, pw :| from <= h < |b.history| && Replay(env, b.base, b.history[..h]).Some?
      && Justifies(env, Replay(env, b.base, b.history[..h]).value, c, v, n, pw);
    if v == SentAway(2) {
      ProvedOnce(c, pw, password);
    }
  }

  /** Nobody who types the password a name was registered with is told 02. */
  lemma PasswordHonoured(env: Env, motd: string, states: seq<State>, events: seq<Event>, ds: seq<Duo>, es: seq<DuoEvent>, i: nat, a: nat)
    requires DuoRun(env, motd, states, events, ds, es) && i <= |es| && !ds[i].client.isNew
    requires a < |ds[0].server.book.history| && ds[0].server.book.history[a].op.Register?
    requires var op := ds[0].server.book.history[a].op; Tokens(ds[i].client.name) == [op.name] && Tokens(ds[i].client.password) == [op.password]
    ensures !Ended(ds[i].client, SentAway(2))
  {
    if Ended(ds[i].client, SentAway(2)) {
      VerdictJustified(env, motd, states, events, ds, es, i, SentAway(2));
      ReloginSucceeds(env, motd, states, events, ds, es, i, a);
    }
  }
}

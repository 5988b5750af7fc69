/** Every step of the server and of the client keeps the dialogue in step. */
module HandshakeSteps {
  import opened Wrappers
  import opened Accounts
  import opened Text
  import opened Wire
  import opened LoginServer
  import opened LoginSafety
  import opened LoginSteps
  import opened LoginTheorems
  import opened LoginClient
  import opened Handshake
  import opened HandshakeFrames

  // ---------- the accept/select thread stays away ----------

  lemma AwayKept(s: State, t: State, fd: int)
    requires MainInv(s) && MainAway(s, fd) && t.main == s.main
    requires forall p: Ptr | p < |s.users| && s.users[p].connected :: p < |t.users| && t.users[p] == s.users[p]
    ensures MainAway(t, fd)
  {
  }

  lemma ThreadAway(env: Env, s: State, j: nat, t: State, fd: int)
    requires Core(env, s) && j < |s.logins| && ThreadStep(env, s, j) == Some(t) && MainAway(s, fd)
    ensures MainAway(t, fd)
  {
    assert PcOk(env, s, j, s.logins[j]);
    match s.logins[j] {
      case AddAccount(_, _, _) => AddAccountEffect(env, s, j, t);
      case Grant(_, _, _, _) => GrantEffect(env, s, j, t);
      case Drop(_, _) => DropEffect(env, s, j, t);
      case _ => SameRecords(env, s, j, t);
    }
    AwayKept(s, t, fd);
  }

  lemma ReadAway(env: Env, s: State, j: nat, frame: string, salt: string, t: State, fd: int)
    requires Core(env, s) && j < |s.logins| && ReadStep(env, s, j, frame, salt) == Some(t) && MainAway(s, fd)
    ensures MainAway(t, fd)
  {
    assert PcOk(env, s, j, s.logins[j]);
    AwayKept(s, t, fd);
  }

  // ---------- the server reads what the client wrote ----------

  /** Thread k serves fd, where the client stands at c. */
  ghost predicate InDialogue(s: State, k: nat, fd: int, c: Client) {
    && fd in s.book.claim && fd in s.out && s.book.claim[fd] == InLogin(k) && ReadsFrom(s, k, fd) && Ours(s.logins[k], s.out[fd], c)
  }

  lemma OpeningHeard(t: seq<Msg>, c: Client, frame: string)
    requires Opening(t, c) && Delivers(c.sent, frame)
    ensures t == [] && c.pc == AwaitEiflow && c.got == 0
    ensures frame != "" && Token(Tokens(frame), 0) == "WOLFIE" && c.sent[|frame|..] == ""
  {
    HelloRead();
  }

  lemma NamingHeard(t: seq<Msg>, c: Client, frame: string)
    requires Naming(t, c) && Delivers(c.sent, frame) && Typed(c)
    ensures t == [Eiflow] && c.pc == AwaitChallenge && c.got == 1 && frame != ""
    ensures Carries(Tokens(frame), "IAMNEW") ==> c.isNew && Named(c, Tokens(frame)[1]) && c.sent[|frame|..] == ""
    ensures Carries(Tokens(frame), "IAM") ==> !c.isNew && Named(c, Tokens(frame)[1]) && c.sent[|frame|..] == ""
    ensures NameFits(c) ==> Carries(Tokens(frame), NameVerb(c.isNew))
  {
    ClientVerbs(c.isNew);
    ServerReads(NameVerb(c.isNew), c.name, frame, "IAMNEW");
    ServerReads(NameVerb(c.isNew), c.name, frame, "IAM");
  }

  lemma ProvingHeard(t: seq<Msg>, c: Client, n: string, frame: string)
    requires Proving(t, c, n) && Delivers(c.sent, frame) && Typed(c)
    ensures t == [Eiflow, Challenge(c, n)] && c.pc == AwaitGrant && c.got == 2 && frame != ""
    ensures Carries(Tokens(frame), PassVerb(c.isNew)) ==> c.sent[|frame|..] == "" && Proved(c, Tokens(frame)[1])
    ensures PasswordFits(c) ==> Carries(Tokens(frame), PassVerb(c.isNew))
  {
    ClientVerbs(c.isNew);
    var verb := PassVerb(c.isNew);
    ServerReads(verb, c.password, frame, verb);
  }

  lemma WolfieReads(env: Env, s: State, k: nat, frame: string, salt: string, t: State, fd: int, c: Client)
    requires InDialogue(s, k, fd, c) && s.logins[k].Wolfie? && Delivers(c.sent, frame)
    requires ReadStep(env, s, k, frame, salt) == Some(t)
    ensures InDialogue(t, k, fd, c.(sent := c.sent[|frame|..]))
  {
    OpeningHeard(s.out[fd], c, frame);
    assert t == To(Write(s, fd, [Eiflow]), k, Iam(s.logins[k].u));
  }

  /** A login thread asked for a name goes on with it, or refuses. */
  ghost predicate NameRead(u: Ptr, frame: string, pc: Pc) {
    match pc
    case WantNew(v, n) => v == u && Carries(Tokens(frame), "IAMNEW") && n == Tokens(frame)[1]
    case WantIam(v, n) => v == u && Carries(Tokens(frame), "IAM") && n == Tokens(frame)[1]
    case RefuseOpen(v) => v == u
    case _ => false
  }

  lemma IamEffect(env: Env, s: State, k: nat, frame: string, salt: string, t: State) returns (pc: Pc)
    requires k < |s.logins| && s.logins[k].Iam? && frame != "" && ReadStep(env, s, k, frame, salt) == Some(t)
    ensures t == To(s, k, pc) && NameRead(s.logins[k].u, frame, pc)
  {
    pc := t.logins[k];
  }

  lemma NameReadOurs(t: seq<Msg>, u: Ptr, c: Client, frame: string, pc: Pc)
    requires Naming(t, c) && Delivers(c.sent, frame) && Typed(c) && NameRead(u, frame, pc)
    ensures Ours(pc, t, c.(sent := c.sent[|frame|..])) && Serving(pc) == Some(u)
  {
    NamingHeard(t, c, frame);
  }

  lemma IamReads(env: Env, s: State, k: nat, frame: string, salt: string, t: State, fd: int, c: Client)
    requires InDialogue(s, k, fd, c) && s.logins[k].Iam? && Delivers(c.sent, frame) && Typed(c)
    requires ReadStep(env, s, k, frame, salt) == Some(t)
    ensures InDialogue(t, k, fd, c.(sent := c.sent[|frame|..]))
  {
    NamingHeard(s.out[fd], c, frame);
    var pc := IamEffect(env, s, k, frame, salt, t);
    NameReadOurs(s.out[fd], s.logins[k].u, c, frame, pc);
  }

  lemma PasswordEffect(env: Env, s: State, k: nat, frame: string, salt: string, t: State)
    requires k < |s.logins| && PcOk(env, s, k, s.logins[k]) && frame != "" && ReadStep(env, s, k, frame, salt) == Some(t)
    requires s.logins[k].AwaitNewPass? || s.logins[k].AwaitPass?
    ensures PasswordRead(s, k, frame, t)
  {
  }

  /** The password was refused, or granted with the messages that go with it. */
  ghost predicate PasswordRead(s: State, k: nat, frame: string, t: State) {
    && k < |s.logins| && |t.logins| == |s.logins| && t.book.claim == s.book.claim
    && (s.logins[k].AwaitNewPass? || s.logins[k].AwaitPass?)
    && var pc := s.logins[k];
    && UserAt(t, pc.u).fd == UserAt(s, pc.u).fd
    && (|| (t.logins[k].Refuse? && t.logins[k].u == pc.u && t.out == s.out)
        || (pc.AwaitNewPass? && t.logins[k].AddAccount? && t.logins[k].u == pc.u && t.logins[k].name == pc.name
            && t.out == WriteTo(s.out, UserAt(s, pc.u).fd, [Ssapwen])
            && Carries(Tokens(frame), "NEWPASS") && t.logins[k].password == Tokens(frame)[1])
        || (pc.AwaitPass? && t.logins[k].Grant? && t.logins[k].u == pc.u && t.logins[k].name == pc.name
            && t.out == WriteTo(s.out, UserAt(s, pc.u).fd, [Ssap, Hi(pc.name)])
            && Carries(Tokens(frame), "PASS") && t.logins[k].password == Tokens(frame)[1]))
  }

  lemma PasswordReads(s: State, k: nat, frame: string, t: State, fd: int, c: Client)
    requires InDialogue(s, k, fd, c) && Delivers(c.sent, frame) && Typed(c) && PasswordRead(s, k, frame, t)
    ensures InDialogue(t, k, fd, c.(sent := c.sent[|frame|..]))
  {
    ProvingHeard(s.out[fd], c, s.logins[k].name, frame);
    if t.logins[k].Refuse? {
      PasswordRefused(s, k, frame, t, fd, c, c.(sent := c.sent[|frame|..]));
    } else {
      PasswordGrants(s, k, frame, t, fd, c, c.(sent := c.sent[|frame|..]));
    }
  }

  lemma PasswordRefused(s: State, k: nat, frame: string, t: State, fd: int, c: Client, n: Client)
    requires InDialogue(s, k, fd, c) && PasswordRead(s, k, frame, t) && t.logins[k].Refuse?
    requires |s.out[fd]| == 2 && c.pc == AwaitGrant && c.got == 2 && n == c.(sent := n.sent)
    ensures InDialogue(t, k, fd, n)
  {
  }

  lemma PasswordGrants(s: State, k: nat, frame: string, t: State, fd: int, c: Client, n: Client)
    requires InDialogue(s, k, fd, c) && PasswordRead(s, k, frame, t) && !t.logins[k].Refuse?
    requires s.out[fd] == [Eiflow, Challenge(c, s.logins[k].name)] && c.pc == AwaitGrant && c.got == 2
    requires Proved(c, t.logins[k].password)
    requires n == c.(sent := "")
    ensures InDialogue(t, k, fd, n)
  {
    var name := s.logins[k].name;
    assert t.out[fd] == if c.isNew then [Eiflow, Hinew(name), Ssapwen] else [Eiflow, Auth(name), Ssap, Hi(name)];
  }

  lemma OwnRead(env: Env, s: State, k: nat, frame: string, salt: string, t: State, fd: int, c: Client)
    requires Core(env, s) && Talk(s, fd, c) && s.book.claim[fd] == InLogin(k) && Delivers(c.sent, frame) && Typed(c)
    requires k < |s.logins| && ReadStep(env, s, k, frame, salt) == Some(t)
    ensures Talk(t, fd, c.(sent := c.sent[|frame|..]))
  {
    ReadAway(env, s, k, frame, salt, t, fd);
    assert PcOk(env, s, k, s.logins[k]);
    match s.logins[k] {
      case Wolfie(_) => WolfieReads(env, s, k, frame, salt, t, fd, c);
      case Iam(_) => IamReads(env, s, k, frame, salt, t, fd, c);
      case AwaitNewPass(_, _) =>
        PasswordEffect(env, s, k, frame, salt, t);
        PasswordReads(s, k, frame, t, fd, c);
      case AwaitPass(_, _, _) =>
        PasswordEffect(env, s, k, frame, salt, t);
        PasswordReads(s, k, frame, t, fd, c);
      case _ =>
    }
  }

  // ---------- the thread that serves the dialogue ----------

  lemma OwnCheckNew(env: Env, s: State, k: nat, t: State, fd: int, c: Client)
    requires InDialogue(s, k, fd, c) && ThreadStep(env, s, k) == Some(t) && s.logins[k].CheckNew?
    ensures InDialogue(t, k, fd, c)
  {
  }

  lemma OwnCheckIam(env: Env, s: State, k: nat, t: State, fd: int, c: Client)
    requires InDialogue(s, k, fd, c) && ThreadStep(env, s, k) == Some(t) && s.logins[k].CheckIam?
    ensures InDialogue(t, k, fd, c)
  {
  }

  lemma OwnMove(env: Env, s: State, k: nat, t: State, fd: int, c: Client)
    requires InDialogue(s, k, fd, c) && PcOk(env, s, k, s.logins[k]) && ThreadStep(env, s, k) == Some(t)
    requires s.logins[k].WantNew? || s.logins[k].WantIam? || s.logins[k].Release? || s.logins[k].RefuseOpen?
    ensures InDialogue(t, k, fd, c)
  {
  }

  lemma OwnRefuse(env: Env, s: State, k: nat, t: State, fd: int, c: Client)
    requires ListInv(s) && SessionInv(s) && DescriptorInv(s)
    requires InDialogue(s, k, fd, c) && PcOk(env, s, k, s.logins[k]) && ThreadStep(env, s, k) == Some(t)
    requires s.logins[k].Refuse?
    ensures InDialogue(t, k, fd, c)
  {
    PendingAlone(s, s.logins[k].u, InLogin(k));
  }

  lemma OwnCleanup(env: Env, s: State, k: nat, t: State, fd: int, c: Client)
    requires InDialogue(s, k, fd, c) && ThreadStep(env, s, k) == Some(t) && s.logins[k].Cleanup?
    ensures fd in t.book.claim && t.book.claim[fd] == Leaked && t.out == s.out && Refused(t.out[fd], c)
  {
  }

  lemma OwnRegister(s: State, k: nat, t: State, u: Ptr, fd: int, c: Client)
    requires InDialogue(s, k, fd, c) && s.logins[k].AddAccount? && s.logins[k].u == u && t.owner == Some(k) && MainAway(t, fd)
    requires Touches(s, t, k, u, fd) && t.list == s.list + [u]
    requires t.logins[k] == GreetNew(u) && t.users[u] == s.users[u].(connected := true, name := s.logins[k].name)
    requires t.book.claim[fd] == Session(u)
    ensures Talk(t, fd, c)
  {
    assert t.list[|s.list|] == u;
    assert Owed(t, u) == 2;
    OwnWithout(t.out[fd]);
  }

  lemma OwnGrant(s: State, k: nat, t: State, u: Ptr, a: Ptr, fd: int, c: Client)
    requires InDialogue(s, k, fd, c) && s.logins[k].Grant? && t.owner == Some(k) && MainAway(t, fd)
    requires Offline(s, a, s.logins[k].name) && Touches(s, t, k, a, fd) && t.list == s.list
    requires t.logins[k] == SendMotd(u, a) && t.users[a] == s.users[a].(connected := true, fd := fd)
    requires t.book.claim[fd] == Session(a)
    ensures Talk(t, fd, c)
  {
    assert Owed(t, a) == 1;
    OwnWithout(t.out[fd]);
  }

  lemma OwnStays(env: Env, s: State, k: nat, t: State, fd: int, c: Client)
    requires Core(env, s) && InDialogue(s, k, fd, c) && ThreadStep(env, s, k) == Some(t)
    requires !s.logins[k].Cleanup? && !s.logins[k].AddAccount? && !s.logins[k].Grant?
    ensures InDialogue(t, k, fd, c)
  {
    assert PcOk(env, s, k, s.logins[k]);
    var pc := s.logins[k];
    if pc.CheckNew? {
      OwnCheckNew(env, s, k, t, fd, c);
    } else if pc.CheckIam? {
      OwnCheckIam(env, s, k, t, fd, c);
    } else if pc.Refuse? {
      OwnRefuse(env, s, k, t, fd, c);
    } else if pc.WantNew? || pc.WantIam? || pc.Release? || pc.RefuseOpen? {
      OwnMove(env, s, k, t, fd, c);
    }
  }

  lemma OwnGo(env: Env, s: State, k: nat, t: State, fd: int, c: Client)
    requires Core(env, s) && Talk(s, fd, c) && s.book.claim[fd] == InLogin(k)
    requires k < |s.logins| && ThreadStep(env, s, k) == Some(t)
    ensures Talk(t, fd, c)
  {
    ThreadAway(env, s, k, t, fd);
    assert PcOk(env, s, k, s.logins[k]) && (Holds(s.logins[k]) <==> s.owner == Some(k));
    if s.logins[k].Cleanup? {
      OwnCleanup(env, s, k, t, fd, c);
    } else if s.logins[k].AddAccount? {
      AddAccountEffect(env, s, k, t);
      OwnRegister(s, k, t, s.logins[k].u, fd, c);
    } else if s.logins[k].Grant? {
      GrantEffect(env, s, k, t);
      OwnGrant(s, k, t, s.logins[k].u, s.logins[k].a, fd, c);
    } else {
      OwnStays(env, s, k, t, fd, c);
    }
  }

  lemma Greets(env: Env, s: State, k: nat, t: State, fd: int, c: Client)
    requires Talk(s, fd, c) && s.book.claim[fd].Session? && ThreadInv(env, s)
    requires k < |s.logins| && Greeting(s.logins[k], s.book.claim[fd].a) && ThreadStep(env, s, k) == Some(t) && MainAway(t, fd)
    ensures Talk(t, fd, c)
  {
    assert PcOk(env, s, k, s.logins[k]) && s.owner == Some(k);
    var a := s.book.claim[fd].a;
    var ms := if s.logins[k].GreetNew? then [HiNew] else [Motd];
    assert t.out == WriteTo(s.out, fd, ms) && t.out[fd] == s.out[fd] + ms;
    assert Owed(t, a) + 1 == Owed(s, a);
  }

  lemma TakenUp(env: Env, s: State, k: nat, t: State, fd: int, c: Client)
    requires Talk(s, fd, c) && s.book.claim[fd].Waiting? && QueueInv(s)
    requires k < |s.logins| && s.logins[k] == Got && s.queue != [] && s.book.claim[fd] == Waiting(s.queue[0])
    requires ThreadStep(env, s, k) == Some(t) && MainAway(t, fd)
    ensures Talk(t, fd, c)
  {
    assert Pending(s, s.queue[0], Waiting(s.queue[0]));
  }

  // ---------- every step ----------

  lemma ThreadTalks(env: Env, s: State, k: nat, t: State, fd: int, c: Client)
    requires Inv(env, s) && Inv(env, t) && Talk(s, fd, c) && k < |s.logins| && ThreadStep(env, s, k) == Some(t)
    ensures Talk(t, fd, c)
  {
    ThreadAway(env, s, k, t, fd);
    if s.book.claim[fd] == InLogin(k) {
      OwnGo(env, s, k, t, fd, c);
    } else if Serves(s, k, fd) {
      Greets(env, s, k, t, fd, c);
    } else if s.logins[k] == Got && s.queue != [] && s.book.claim[fd] == Waiting(s.queue[0]) {
      TakenUp(env, s, k, t, fd, c);
    } else {
      ThreadUntouched(env, s, k, t, fd);
      ThreadMoves(env, s, k, t);
      if s.book.claim[fd].Session? {
        assert PcOk(env, s, k, s.logins[k]);
        NoNewGreeting(env, s, k, t, s.book.claim[fd].a);
      }
      OthersTalk(env, s, k, t, fd, c);
    }
  }

  /** Thread k moved; the other threads and the accept/select thread stand where they stood. */
  ghost predicate OnlyMoved(s: State, k: nat, t: State) {
    && |t.logins| == |s.logins| && t.main == s.main
    && forall j | 0 <= j < |s.logins| && j != k :: t.logins[j] == s.logins[j]
  }

  /** A thread begins to greet an account only where it adds or grants one. */
  ghost predicate GreetsOn(s: State, k: nat, t: State) {
    && k < |s.logins| == |t.logins|
    && forall a: Ptr :: Greeting(t.logins[k], a) ==> Greeting(s.logins[k], a) || s.logins[k].AddAccount? || s.logins[k].Grant?
  }

  lemma CheckMoves(env: Env, s: State, k: nat, t: State)
    requires k < |s.logins| && (s.logins[k].CheckNew? || s.logins[k].CheckIam?) && ThreadStep(env, s, k) == Some(t)
    ensures OnlyMoved(s, k, t) && GreetsOn(s, k, t) && t.queue == s.queue
  {
  }

  lemma GrantMoves(env: Env, s: State, k: nat, t: State)
    requires k < |s.logins| && s.logins[k].Grant? && ThreadStep(env, s, k) == Some(t)
    ensures OnlyMoved(s, k, t) && GreetsOn(s, k, t) && t.queue == s.queue
  {
  }

  lemma DeciderMoves(env: Env, s: State, k: nat, t: State)
    requires k < |s.logins| && (s.logins[k].AddAccount? || s.logins[k].Drop?) && ThreadStep(env, s, k) == Some(t)
    ensures OnlyMoved(s, k, t) && GreetsOn(s, k, t) && t.queue == s.queue
  {
  }

  lemma HolderMoves(env: Env, s: State, k: nat, t: State)
    requires k < |s.logins| && Holds(s.logins[k]) && !Undecided(s.logins[k]) && ThreadStep(env, s, k) == Some(t)
    ensures OnlyMoved(s, k, t) && GreetsOn(s, k, t) && t.queue == s.queue
  {
  }

  lemma GotMoves(env: Env, s: State, k: nat, t: State)
    requires k < |s.logins| && s.logins[k] == Got && ThreadStep(env, s, k) == Some(t)
    ensures OnlyMoved(s, k, t) && GreetsOn(s, k, t) && (t.queue == s.queue || (s.queue != [] && t.queue == s.queue[1..]))
  {
  }

  lemma OtherMoves(env: Env, s: State, k: nat, t: State)
    requires k < |s.logins| && !Holds(s.logins[k]) && s.logins[k] != Got && ThreadStep(env, s, k) == Some(t)
    ensures OnlyMoved(s, k, t) && GreetsOn(s, k, t) && t.queue == s.queue
  {
  }

  lemma ThreadMoves(env: Env, s: State, k: nat, t: State)
    requires k < |s.logins| && ThreadStep(env, s, k) == Some(t)
    ensures OnlyMoved(s, k, t) && GreetsOn(s, k, t)
    ensures t.queue == s.queue || (s.logins[k] == Got && s.queue != [] && t.queue == s.queue[1..])
  {
    if s.logins[k].CheckNew? || s.logins[k].CheckIam? {
      CheckMoves(env, s, k, t);
    } else if s.logins[k].Grant? {
      GrantMoves(env, s, k, t);
    } else if s.logins[k].AddAccount? || s.logins[k].Drop? {
      DeciderMoves(env, s, k, t);
    } else if Holds(s.logins[k]) {
      HolderMoves(env, s, k, t);
    } else if s.logins[k] == Got {
      GotMoves(env, s, k, t);
    } else {
      OtherMoves(env, s, k, t);
    }
  }

  lemma OthersTalk(env: Env, s: State, k: nat, t: State, fd: int, c: Client)
    requires Inv(env, s) && Inv(env, t) && Talk(s, fd, c) && k < |s.logins| && !Serves(s, k, fd)
    requires OnlyMoved(s, k, t) && MainAway(t, fd) && Untouched(s, t, fd)
    requires t.queue == s.queue || (s.queue != [] && t.queue == s.queue[1..] && s.book.claim[fd] != Waiting(s.queue[0]))
    requires s.book.claim[fd].Session? ==> !Greeting(t.logins[k], s.book.claim[fd].a)
    ensures Talk(t, fd, c)
  {
    ClaimedRecord(env, s, fd, c);
    if s.book.claim[fd].Session? {
      OwedNotMore(env, s, k, t, s.book.claim[fd].a);
    }
    UntouchedTalks(env, s, t, fd, c);
  }

  lemma OwedNotMore(env: Env, s: State, k: nat, t: State, a: Ptr)
    requires ThreadInv(env, s) && ThreadInv(env, t) && k < |s.logins| && OnlyMoved(s, k, t) && !Greeting(t.logins[k], a)
    ensures Owed(t, a) <= Owed(s, a)
  {
    if Owed(t, a) > 0 {
      var j := t.owner.value;
      assert t.logins[j] == s.logins[j] && Holds(s.logins[j]);
    }
  }

  lemma OwedSame(s: State, t: State, a: Ptr)
    requires t.owner == s.owner && s.logins <= t.logins && (s.owner.Some? ==> s.owner.value < |s.logins|)
    ensures Owed(t, a) == Owed(s, a)
  {
  }

  /** Nobody begins to greet an account that is connected already. */
  lemma NoNewGreeting(env: Env, s: State, k: nat, t: State, a: Ptr)
    requires k < |s.logins| && PcOk(env, s, k, s.logins[k]) && ThreadStep(env, s, k) == Some(t) && |t.logins| == |s.logins|
    requires a < |s.users| && s.users[a].connected && !Greeting(s.logins[k], a)
    ensures !Greeting(t.logins[k], a)
  {
    ThreadMoves(env, s, k, t);
  }

  /** The record behind a claim exists. */
  lemma ClaimedRecord(env: Env, s: State, fd: int, c: Client)
    requires Core(env, s) && Talk(s, fd, c)
    ensures s.book.claim[fd].Entering? || s.book.claim[fd].Waiting? ==> s.book.claim[fd].u < |s.users|
    ensures forall k: nat | s.book.claim[fd] == InLogin(k) && ReadsFrom(s, k, fd) :: Serving(s.logins[k]).value < |s.users|
  {
    match s.book.claim[fd] {
      case Waiting(u) => assert exists i :: 0 <= i < |s.queue| && s.queue[i] == u && Pending(s, s.queue[i], Waiting(s.queue[i]));
      case InLogin(k) => ServedPending(env, s, k);
      case _ =>
    }
  }

  lemma ReadTalks(env: Env, s: State, k: nat, frame: string, salt: string, t: State, fd: int, c: Client)
    requires Inv(env, s) && Inv(env, t) && Talk(s, fd, c) && !ReadsFrom(s, k, fd)
    requires k < |s.logins| && ReadStep(env, s, k, frame, salt) == Some(t)
    ensures Talk(t, fd, c)
  {
    ReadAway(env, s, k, frame, salt, t, fd);
    assert !Serves(s, k, fd);
    ReadUntouched(env, s, k, frame, salt, t, fd);
    ReadersStay(env, s, k, frame, salt, t);
    OthersTalk(env, s, k, t, fd, c);
  }

  lemma ReadersStay(env: Env, s: State, k: nat, frame: string, salt: string, t: State)
    requires k < |s.logins| && ReadStep(env, s, k, frame, salt) == Some(t)
    ensures OnlyMoved(s, k, t) && t.queue == s.queue && forall a: Ptr :: !Greeting(t.logins[k], a)
  {
  }

  /** A thread that reads from fd is the one the descriptor is claimed for. */
  lemma ReaderClaims(env: Env, s: State, k: nat, fd: int)
    requires Core(env, s) && ReadsFrom(s, k, fd)
    ensures fd in s.book.claim && s.book.claim[fd] == InLogin(k)
  {
    ServedPending(env, s, k);
  }

  lemma QueuedTalks(s: State, t: State, fd: int, c: Client)
    requires Talk(s, fd, c) && MainInv(s) && s.main.Accepted? && s.book.claim[fd] == Entering(s.main.u) && MainStep(s) == Some(t)
    ensures Talk(t, fd, c)
  {
    assert t.queue[|s.queue|] == s.main.u;
  }

  lemma MainTalks(env: Env, s: State, t: State, fd: int, c: Client)
    requires Inv(env, s) && Inv(env, t) && Talk(s, fd, c) && MainStep(s) == Some(t) && Undisturbed(s, MainGo)
    ensures Talk(t, fd, c)
  {
    if s.main.Accepted? && s.book.claim[fd] == Entering(s.main.u) {
      QueuedTalks(s, t, fd, c);
    } else {
      MainUntouched(s, t, fd);
      MainMoves(s, t);
      ClaimedRecord(env, s, fd, c);
      if s.book.claim[fd].Session? {
        OwedSame(s, t, s.book.claim[fd].a);
      }
      UntouchedTalks(env, s, t, fd, c);
    }
  }

  lemma MainMoves(s: State, t: State)
    requires MainStep(s) == Some(t)
    ensures s.queue <= t.queue && t.logins == s.logins && t.owner == s.owner
  {
  }

  lemma ServeTalks(env: Env, s: State, frame: string, seconds: string, t: State, fd: int, c: Client)
    requires Inv(env, s) && Inv(env, t) && Talk(s, fd, c) && ServeStep(s, frame, seconds) == Some(t)
    ensures Talk(t, fd, c)
  {
    ServeUntouched(s, frame, seconds, t, fd);
    ServeEffect(s, frame, seconds, t);
    ClaimedRecord(env, s, fd, c);
    if s.book.claim[fd].Session? {
      OwedSame(s, t, s.book.claim[fd].a);
    }
    UntouchedTalks(env, s, t, fd, c);
  }

  lemma ReadableTalks(env: Env, s: State, f: int, t: State, fd: int, c: Client)
    requires Inv(env, s) && Inv(env, t) && Talk(s, fd, c) && ReadableStep(s, f) == Some(t) && (f == fd ==> c.sent != "")
    ensures Talk(t, fd, c)
  {
    if t != s {
      assert Listed(s, t.main.u);
      assert MainAway(t, fd);
      ClaimedRecord(env, s, fd, c);
      if s.book.claim[fd].Session? {
        OwedSame(s, t, s.book.claim[fd].a);
      }
      UntouchedTalks(env, s, t, fd, c);
    }
  }

  lemma AcceptTalks(env: Env, s: State, f: int, t: State, fd: int, c: Client)
    requires Inv(env, s) && Inv(env, t) && Talk(s, fd, c) && AcceptStep(env, s, f) == Some(t)
    ensures Talk(t, fd, c)
  {
    AcceptUntouched(env, s, f, t, fd);
    AcceptAway(env, s, f, t, fd);
    ClaimedRecord(env, s, fd, c);
    if s.book.claim[fd].Session? {
      OwedSame(s, t, s.book.claim[fd].a);
    }
    UntouchedTalks(env, s, t, fd, c);
  }

  lemma AcceptAway(env: Env, s: State, f: int, t: State, fd: int)
    requires AcceptStep(env, s, f) == Some(t)
    ensures MainAway(t, fd) && t.queue == s.queue && s.logins <= t.logins && s.main == Select && t.owner == s.owner
  {
  }

  /** A server step that reads nothing from the client. */
  lemma ServerTalks(env: Env, s: State, e: Event, t: State, fd: int, c: Client)
    requires Inv(env, s) && Inv(env, t) && Talk(s, fd, c) && Next(env, s, e) == Some(t) && Undisturbed(s, e)
    requires e.Readable? && e.fd == fd ==> c.sent != ""
    requires e.ThreadRead? ==> !ReadsFrom(s, e.k, fd)
    ensures Talk(t, fd, c)
  {
    match e {
      case Accept(f) => AcceptTalks(env, s, f, t, fd, c);
      case Readable(f) => ReadableTalks(env, s, f, t, fd, c);
      case ServeRead(frame, seconds) => ServeTalks(env, s, frame, seconds, t, fd, c);
      case MainGo => MainTalks(env, s, t, fd, c);
      case ThreadGo(k) => ThreadTalks(env, s, k, t, fd, c);
      case ThreadRead(k, frame, salt) => ReadTalks(env, s, k, frame, salt, t, fd, c);
    }
  }

  /** Nothing but its own login thread reads what the client sent. */
  lemma ChannelKept(d: Duo, e: Event, c: Client)
    requires Talk(d.server, d.fd, d.client) && Channel(d, e, c) && !(e.ThreadRead? && ReadsFrom(d.server, e.k, d.fd))
    ensures c == d.client && (e.Readable? && e.fd == d.fd ==> c.sent != "")
  {
  }

  lemma StepTalks(env: Env, motd: string, d: Duo, e: DuoEvent, n: Duo)
    requires Inv(env, d.server) && Inv(env, n.server) && Typed(d.client)
    requires Talk(d.server, d.fd, d.client) && DuoStep(env, motd, d, e, n)
    ensures Talk(n.server, n.fd, n.client)
  {
    if e.ClientDoes? {
      ClientTalks(motd, d.server, d.fd, d.client, n.client);
    } else if e.e.ThreadRead? && ReadsFrom(d.server, e.e.k, d.fd) {
      ReaderClaims(env, d.server, e.e.k, d.fd);
      OwnRead(env, d.server, e.e.k, e.e.frame, e.e.salt, n.server, d.fd, d.client);
    } else {
      ChannelKept(d, e.e, n.client);
      ServerTalks(env, d.server, e.e, n.server, d.fd, d.client);
    }
  }
}

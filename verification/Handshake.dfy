/** One client's login dialogue composed with the whole server: whatever all other clients do and
    however the threads interleave, the two sides stay in step. */
module Handshake {
  import opened Wrappers
  import opened Accounts
  import opened Text
  import opened Framing
  import opened Wire
  import opened LoginServer
  import opened LoginSafety
  import opened LoginTheorems
  import opened LoginClient

  /** A server and the client connected to its descriptor fd. */
  datatype Duo = Duo(server: State, client: Client, fd: int)

  datatype DuoEvent = ClientDoes | ServerDoes(e: Event)

  /** The scanner returns frame from these bytes without waiting for more. */
  predicate Delivers(bytes: string, frame: string) {
    frame == NextFrame(bytes) && (Terminated(frame) || |frame| == FRAME_LIMIT)
  }

  /** The login thread k reads from fd. */
  predicate ReadsFrom(s: State, k: nat, fd: int) {
    k < |s.logins| && Serving(s.logins[k]).Some? && UserAt(s, Serving(s.logins[k]).value).fd == fd
  }

  /** A server step as it bears on the client: reads of fd take what the client wrote. */
  predicate Channel(d: Duo, e: Event, c: Client) {
    match e
    case Readable(fd) => (fd == d.fd ==> d.client.sent != "") && c == d.client
    case ServeRead(frame, _) =>
      if d.server.main.Command? && UserAt(d.server, d.server.main.u).fd == d.fd then
        Delivers(d.client.sent, frame) && c == d.client.(sent := d.client.sent[|frame|..])
      else c == d.client
    case ThreadRead(k, frame, _) =>
      if ReadsFrom(d.server, k, d.fd) then
        Delivers(d.client.sent, frame) && c == d.client.(sent := d.client.sent[|frame|..])
      else c == d.client
    case _ => c == d.client
  }

  ghost predicate DuoStep(env: Env, motd: string, d: Duo, e: DuoEvent, n: Duo) {
    n.fd == d.fd &&
    match e
    case ClientDoes =>
      n.server == d.server && d.fd in d.server.out && ClientStep(motd, d.client, d.server.out[d.fd]) == Some(n.client)
    case ServerDoes(se) =>
      Step(env, d.server, se, n.server) && Undisturbed(d.server, se) && Channel(d, se, n.client)
  }

  /** What the user typed does not contain the terminator; blanks are welcome. */
  ghost predicate Typed(c: Client) {
    Unterminated(c.name) && Unterminated(c.password)
  }

  /** The connection has just been accepted and the client has sent nothing. */
  ghost predicate DuoStart(env: Env, states: seq<State>, events: seq<Event>, d: Duo) {
    && QuietRun(env, states, events) && events != [] && events[|events| - 1] == Accept(d.fd)
    && d.server == states[|events|] && Typed(d.client)
    && d.client.pc == SendHello && d.client.sent == "" && d.client.got == 0
  }

  ghost predicate DuoSteps(env: Env, motd: string, ds: seq<Duo>, es: seq<DuoEvent>) {
    |ds| == |es| + 1 && forall i {:trigger es[i]} | 0 <= i < |es| :: DuoStep(env, motd, ds[i], es[i], ds[i + 1])
  }

  /** A run of the server up to the moment the client is accepted, and of both from then on. */
  ghost predicate DuoRun(env: Env, motd: string, states: seq<State>, events: seq<Event>, ds: seq<Duo>, es: seq<DuoEvent>) {
    DuoSteps(env, motd, ds, es) && DuoStart(env, states, events, ds[0])
  }

  // ---------- where the dialogue stands ----------

  function Challenge(c: Client, n: string): Msg {
    if c.isNew then Hinew(n) else Auth(n)
  }

  function Granted(c: Client): Msg {
    if c.isNew then Ssapwen else Ssap
  }

  predicate Opening(t: seq<Msg>, c: Client) {
    t == [] && c.got == 0 && ((c.pc == SendHello && c.sent == "") || (c.pc == AwaitEiflow && c.sent == Message(["WOLFIE"])))
  }

  predicate Naming(t: seq<Msg>, c: Client) {
    && t == [Eiflow]
    && (|| (c.pc == AwaitEiflow && c.got == 0 && c.sent == "")
        || (c.pc == SendName && c.got == 1 && c.sent == "")
        || (c.pc == AwaitChallenge && c.got == 1 && c.sent == NameMessage(c)))
  }

  predicate Checking(t: seq<Msg>, c: Client) {
    t == [Eiflow] && c.pc == AwaitChallenge && c.got == 1 && c.sent == ""
  }

  predicate Proving(t: seq<Msg>, c: Client, n: string) {
    && t == [Eiflow, Challenge(c, n)]
    && (|| (c.pc == AwaitChallenge && c.got == 1 && c.sent == "")
        || (c.pc == SendPass && c.got == 2 && c.sent == "")
        || (c.pc == AwaitGrant && c.got == 2 && c.sent == PassMessage(c)))
  }

  /** What may follow the grant: the greeting, and what other sessions cause. */
  predicate Chatter(m: Msg) {
    match m
    case HiNew => true
    case Hi(_) => true
    case Motd => true
    case Uoff(_) => true
    case Relay(text) => Token(Tokens(text), 0) == "MSG"
    case _ => false
  }

  /** What other sessions cause. */
  predicate Noise(m: Msg) {
    match m
    case Uoff(_) => true
    case Relay(text) => Token(Tokens(text), 0) == "MSG"
    case _ => false
  }

  /** What the server has said itself. */
  function Own(t: seq<Msg>): seq<Msg> {
    if t == [] then [] else Own(t[..|t| - 1]) + if Noise(t[|t| - 1]) then [] else [t[|t| - 1]]
  }

  /** All the server says to a client that it lets in as n. */
  function Script(c: Client, n: string): seq<Msg> {
    if c.isNew then [Eiflow, Hinew(n), Ssapwen, HiNew, Motd] else [Eiflow, Auth(n), Ssap, Hi(n), Motd]
  }

  lemma {:induction false} OwnWithout(t: seq<Msg>)
    requires forall i | 0 <= i < |t| :: !Noise(t[i])
    ensures Own(t) == t
  {
    if t != [] {
      OwnWithout(t[..|t| - 1]);
    }
  }

  lemma {:induction false} OwnSkips(t: seq<Msg>, n: seq<Msg>)
    requires t <= n && forall i | |t| <= i < |n| :: Noise(n[i])
    ensures Own(n) == Own(t)
    decreases |n|
  {
    if |t| < |n| {
      OwnSkips(t, n[..|n| - 1]);
    } else {
      assert t == n;
    }
  }

  predicate Granting(t: seq<Msg>, c: Client) {
    && |t| >= 3 && t[0] == Eiflow && t[2] == Granted(c) && c.sent == ""
    && (forall i | 3 <= i < |t| :: Chatter(t[i]))
    && (c.isNew || (|t| >= 4 && t[3].Hi?))
    && (|| (c.pc == AwaitGrant && c.got == 2)
        || (c.pc == AwaitHi && c.got == 3)
        || (c.pc == AwaitMotd && c.got == 4 && |t| >= 4)
        || (c.pc == InSession && |t| >= if c.isNew then 4 else 5))
  }

  /** About to be refused: the client waits for an answer. */
  predicate Refusing(t: seq<Msg>, c: Client) {
    Begun(t, c) && ((|t| == 1 && c.pc == AwaitChallenge && c.got == 1) || (|t| == 2 && c.pc == AwaitGrant && c.got == 2))
  }

  /** EIFLOW has been said, and for a name that can be one possibly its challenge. */
  predicate Begun(t: seq<Msg>, c: Client) {
    t == [Eiflow] || (NameFits(c) && t == [Eiflow, Challenge(c, Tokens(c.name)[0])])
  }

  /** ERR and BYE have been written and end the dialogue. */
  predicate Refused(t: seq<Msg>, c: Client) {
    && 3 <= |t| <= 4 && t[|t| - 2].Err? && t[|t| - 1] == Bye && Begun(t[..|t| - 2], c)
    && (|| (c.pc == AwaitChallenge && |t| == 3 && c.got == 1)
        || (c.pc == AwaitGrant && |t| == 4 && c.got == 2)
        || (c.pc == AwaitBye(t[|t| - 2]) && c.got == |t| - 1)
        || (c.pc == LoggedOut(t[|t| - 2], Bye) && c.got == |t|))
  }

  /** The name typed is one token and reaches the server in one piece. */
  predicate NameFits(c: Client) {
    |Tokens(c.name)| == 1 && |NameMessage(c)| <= FRAME_LIMIT
  }

  predicate PasswordFits(c: Client) {
    |Tokens(c.password)| == 1 && |PassMessage(c)| <= FRAME_LIMIT
  }

  /** The name the server took from the client's message is all of what was typed but blanks. */
  predicate Named(c: Client, n: string) {
    NameFits(c) && Tokens(c.name) == [n]
  }

  predicate Proved(c: Client, pw: string) {
    PasswordFits(c) && Tokens(c.password) == [pw]
  }

  predicate Ours(pc: Pc, t: seq<Msg>, c: Client) {
    match pc
    case Wolfie(_) => Opening(t, c)
    case Iam(_) => Naming(t, c)
    case WantNew(_, n) => c.isNew && Named(c, n) && Checking(t, c)
    case CheckNew(_, n) => c.isNew && Named(c, n) && Checking(t, c)
    case WantIam(_, n) => !c.isNew && Named(c, n) && Checking(t, c)
    case CheckIam(_, n) => !c.isNew && Named(c, n) && Checking(t, c)
    case AwaitNewPass(_, n) => c.isNew && Named(c, n) && Proving(t, c, n)
    case AwaitPass(_, _, n) => !c.isNew && Named(c, n) && Proving(t, c, n)
    case AddAccount(_, n, pw) => c.isNew && Named(c, n) && Proved(c, pw) && t == Script(c, n)[..3] && Granting(t, c)
    case Grant(_, _, n, pw) => !c.isNew && Named(c, n) && Proved(c, pw) && t == Script(c, n)[..4] && Granting(t, c)
    case Refuse(_, _, _) => Refusing(t, c)
    case RefuseOpen(_) => Refusing(t, c)
    case Release(_, granted) => !granted && Refused(t, c)
    case Cleanup(_) => Refused(t, c)
    case _ => false
  }

  /** Greeting messages a thread in its locked region still owes account a. */
  function Owed(s: State, a: Ptr): nat {
    match s.owner
    case Some(k) =>
      if k >= |s.logins| then 0
      else if s.logins[k] == GreetNew(a) then 2
      else if s.logins[k].SendMotd? && s.logins[k].a == a then 1
      else 0
    case None => 0
  }

  /** The accept/select thread is busy with other connections. */
  predicate MainAway(s: State, fd: int) {
    match s.main
    case Command(u) => UserAt(s, u).fd != fd
    case RelayMsg(f, _, _, _) => f != fd
    case ByeLookup(_, f) => f != fd
    case ByeDisconnect(_, f) => f != fd
    case ByeCast(_, f) => f != fd
    case ByeClose(f) => f != fd
    case CrashLookup(u) => UserAt(s, u).fd != fd
    case CrashDisconnect(r) => UserAt(s, r).fd != fd
    case _ => true
  }

  ghost predicate Talk(s: State, fd: int, c: Client) {
    fd in s.book.claim && fd in s.out && MainAway(s, fd) &&
    var t := s.out[fd];
    match s.book.claim[fd]
    case Entering(u) => s.main == Accepted(u) && UserAt(s, u).fd == fd && Opening(t, c)
    case Waiting(u) => u in s.queue && UserAt(s, u).fd == fd && Opening(t, c)
    case InLogin(k) => ReadsFrom(s, k, fd) && Ours(s.logins[k], t, c)
    case Session(a) =>
      && Online(s, a, fd) && Named(c, s.users[a].name) && Granting(t, c)
      && Own(t) <= Script(c, s.users[a].name) && |Own(t)| + Owed(s, a) == 5 && (c.isNew || |Own(t)| >= 4) && |t| + Owed(s, a) >= 5
    case Closing => false
    case Leaked => Refused(t, c)
  }

  // ---------- steps of the client ----------

  lemma NamingClient(motd: string, t: seq<Msg>, c: Client, n: Client)
    requires Naming(t, c) && ClientStep(motd, c, t) == Some(n)
    ensures Naming(t, n)
  {
  }

  lemma ProvingClient(motd: string, t: seq<Msg>, c: Client, name: string, n: Client)
    requires Proving(t, c, name) && ClientStep(motd, c, t) == Some(n)
    ensures Proving(t, n, name)
  {
    if c.pc == AwaitChallenge {
      HearsExactly(motd, Challenge(c, name), if c.isNew then "HINEW" else "AUTH");
    }
  }

  lemma GrantingClient(motd: string, t: seq<Msg>, c: Client, n: Client)
    requires Granting(t, c) && ClientStep(motd, c, t) == Some(n)
    ensures Granting(t, n)
  {
    if c.pc == AwaitGrant {
      HearsExactly(motd, Granted(c), if c.isNew then "SSAPWEN" else "SSAP");
    } else if c.pc == AwaitHi {
      ChatterNoError(motd, t[3]);
      if !c.isNew {
        HearsExactly(motd, t[3], "HI");
      }
    }
  }

  lemma ChatterNoError(motd: string, m: Msg)
    requires Chatter(m)
    ensures !Hears(motd, m, "ERR")
  {
    if !m.Relay? {
      HearsExactly(motd, m, "ERR");
    }
  }

  lemma RefusedClient(motd: string, t: seq<Msg>, c: Client, n: Client)
    requires Refused(t, c) && ClientStep(motd, c, t) == Some(n)
    ensures Refused(t, n)
  {
    var error := t[|t| - 2];
    assert Words(motd, error)[0] == "ERR";
    if c.pc == AwaitChallenge {
      HearsExactly(motd, error, if c.isNew then "HINEW" else "AUTH");
    } else if c.pc == AwaitGrant {
      HearsExactly(motd, error, if c.isNew then "SSAPWEN" else "SSAP");
    }
  }

  lemma OursClient(motd: string, pc: Pc, t: seq<Msg>, c: Client, n: Client)
    requires Ours(pc, t, c) && ClientStep(motd, c, t) == Some(n)
    ensures Ours(pc, t, n)
  {
    match pc {
      case Iam(_) => NamingClient(motd, t, c, n);
      case AwaitNewPass(_, name) => ProvingClient(motd, t, c, name, n);
      case AwaitPass(_, _, name) => ProvingClient(motd, t, c, name, n);
      case AddAccount(_, _, _) => GrantingClient(motd, t, c, n);
      case Grant(_, _, _, _) => GrantingClient(motd, t, c, n);
      case Release(_, _) => RefusedClient(motd, t, c, n);
      case Cleanup(_) => RefusedClient(motd, t, c, n);
      case _ =>
    }
  }

  lemma ClientTalks(motd: string, s: State, fd: int, c: Client, n: Client)
    requires Talk(s, fd, c) && ClientStep(motd, c, s.out[fd]) == Some(n)
    ensures Talk(s, fd, n)
  {
    match s.book.claim[fd] {
      case InLogin(k) => OursClient(motd, s.logins[k], s.out[fd], c, n);
      case Session(a) => GrantingClient(motd, s.out[fd], c, n);
      case Leaked => RefusedClient(motd, s.out[fd], c, n);
      case _ =>
    }
  }
}

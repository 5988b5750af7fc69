/** The server of server.c as a step machine: the accept/select thread and any number of login
    threads over shared users, account list, login queue, semaphore, mutex and sockets. Each
    step is one stretch of code between two points where another thread can intervene; a
    function that holds the mutex throughout is one step. */
module LoginServer {
  import opened Wrappers
  import opened Accounts
  import opened AtomicAccounts
  import opened Text
  import opened Framing
  import opened Wire

  /** A pointer to a struct user: its index in the heap of all records ever created. */
  type Ptr = nat

  /** Where a login thread stands in loginThreadLimit and loginProtocol. u is currUser, a is
      currUserInList. */
  datatype Pc =
    | Idle                                                  // before sem_wait
    | Got                                                   // after it, before the queue is locked
    | Wolfie(u: Ptr)                                        // first readInput
    | Iam(u: Ptr)                                           // second readInput
    | WantNew(u: Ptr, name: string)                         // IAMNEW: about to lock
    | CheckNew(u: Ptr, name: string)
    | AwaitNewPass(u: Ptr, name: string)                    // HINEW written
    | AddAccount(u: Ptr, name: string, password: string)    // SSAPWEN written
    | GreetNew(u: Ptr)                                      // account added
    | WantIam(u: Ptr, name: string)                         // IAM: about to lock
    | CheckIam(u: Ptr, name: string)
    | AwaitPass(u: Ptr, a: Ptr, name: string)               // AUTH written
    | Grant(u: Ptr, a: Ptr, name: string, password: string) // SSAP and HI written
    | SendMotd(u: Ptr, a: Ptr)
    | Refuse(u: Ptr, code: nat, purge: bool)                // locked; purge: with removeUserListByFD
    | Release(u: Ptr, granted: bool)                        // about to unlock
    | RefuseOpen(u: Ptr)                                    // wrong message, not locked
    | Cleanup(u: Ptr)                                       // removal at the end of loginProtocol
    | Drop(u: Ptr, held: bool)                              // handleClientCrash
    | DropCast(u: Ptr, held: bool)
    | Exited(held: bool)                                    // held: the mutex is never released

  /** Where the accept/select thread stands. */
  datatype MainPc =
    | Select
    | Accepted(u: Ptr)                                      // before addLoginQueue locks
    | Posting                                               // queue unlocked, before sem_post
    | Command(u: Ptr)                                       // handleClientCommands, before readInput
    | RelayMsg(fd: int, to: Option<Ptr>, from: Option<Ptr>, text: string)
    | ByeLookup(u: Ptr, fd: int)
    | ByeDisconnect(r: Ptr, fd: int)
    | ByeCast(r: Ptr, fd: int)
    | ByeClose(fd: int)
    | CrashLookup(u: Ptr)
    | CrashDisconnect(r: Ptr)
    | CrashClose(r: Ptr)
    | CrashCast(r: Ptr)

  /** Auxiliary: who is responsible for an open descriptor. */
  datatype Claim = Entering(u: Ptr) | Waiting(u: Ptr) | InLogin(k: nat) | Session(a: Ptr) | Closing | Leaked

  /** Auxiliary records no step consults: descriptor claims, connections accepted and taken up
      by login threads, mutex acquisitions that decide about accounts, their outcomes, and the
      table at the start. */
  datatype Book = Book(
    claim: map<int, Claim>,
    accepted: seq<Ptr>,
    served: seq<Ptr>,
    log: seq<Who>,
    history: seq<Entry>,
    base: Table)

  datatype State = State(
    users: seq<User>,
    list: seq<Ptr>,
    queue: seq<Ptr>,
    sem: nat,
    owner: Option<nat>,
    open: set<int>,
    out: map<int, seq<Msg>>,
    main: MainPc,
    logins: seq<Pc>,
    book: Book)

  datatype Event =
    | Accept(fd: int)
    | Readable(fd: int)
    | ServeRead(frame: string, seconds: string)
    | MainGo
    | ThreadRead(k: nat, frame: string, salt: string)
    | ThreadGo(k: nat)

  const NO_USER := User(false, "", -1, "", "")

  function UserAt(s: State, p: Ptr): User {
    if p < |s.users| then s.users[p] else NO_USER
  }

  /** The account list as records. */
  function View(s: State): (v: seq<User>)
    ensures |v| == |s.list| && forall i | 0 <= i < |v| :: v[i] == UserAt(s, s.list[i])
  {
    seq(|s.list|, i requires 0 <= i < |s.list| => UserAt(s, s.list[i]))
  }

  function Lookup(s: State, name: string): (r: Option<Ptr>)
    ensures r.Some? ==> r.value in s.list && UserAt(s, r.value).name == name
    ensures r.None? ==> forall i | 0 <= i < |s.list| :: UserAt(s, s.list[i]).name != name
  {
    match FindByName(View(s), name)
    case None => None
    case Some(i) => Some(s.list[i])
  }

  function LookupFd(s: State, fd: int): (r: Option<Ptr>)
    ensures r.Some? ==> r.value in s.list && UserAt(s, r.value).fd == fd
    ensures r.None? ==> forall i | 0 <= i < |s.list| :: UserAt(s, s.list[i]).fd != fd
  {
    match FindByFd(View(s), fd)
    case None => None
    case Some(i) => Some(s.list[i])
  }

  // ---------- effects ----------

  /** write(): bytes written to a descriptor that is not open go nowhere. */
  function WriteTo(out: map<int, seq<Msg>>, fd: int, ms: seq<Msg>): map<int, seq<Msg>> {
    if fd in out then out[fd := out[fd] + ms] else out
  }

  function WriteEach(out: map<int, seq<Msg>>, fds: seq<int>, m: Msg): map<int, seq<Msg>> {
    if fds == [] then out else WriteEach(WriteTo(out, fds[0], [m]), fds[1..], m)
  }

  function Write(s: State, fd: int, ms: seq<Msg>): State {
    s.(out := WriteTo(s.out, fd, ms))
  }

  function Broadcast(s: State, m: Msg): State {
    s.(out := WriteEach(s.out, ConnectedFds(View(s)), m))
  }

  function SetUser(s: State, p: Ptr, u: User): State {
    if p < |s.users| then s.(users := s.users[p := u]) else s
  }

  /** free(removeUserListByFD(fd)) */
  function RemoveByFd(s: State, fd: int): State {
    s.(list := Without(s.list, FindByFd(View(s), fd)))
  }

  function Disconnect(s: State, p: Ptr): State {
    SetUser(s, p, UserAt(s, p).(connected := false, fd := -1))
  }

  function Close(s: State, fd: int): State {
    s.(open := s.open - {fd}, out := s.out - {fd}, book := s.book.(claim := s.book.claim - {fd}))
  }

  function To(s: State, k: nat, pc: Pc): State
    requires k < |s.logins|
  {
    s.(logins := s.logins[k := pc])
  }

  function Claimed(s: State, fd: int, c: Claim): State {
    if fd in s.book.claim then s.(book := s.book.(claim := s.book.claim[fd := c])) else s
  }

  function Record(s: State, who: Who, op: Op): State {
    s.(book := s.book.(history := s.book.history + [Entry(who, op)]))
  }

  function Logged(s: State, who: Who): State {
    s.(book := s.book.(log := s.book.log + [who]))
  }

  predicate MayLock(s: State, k: nat) {
    s.owner == None || s.owner == Some(k)
  }

  // ---------- the accept/select thread ----------

  function AcceptStep(env: Env, s: State, fd: int): Option<State> {
    if s.main != Select || fd < 0 || fd in s.open then None
    else
      var u := |s.users|;
      var s1 := s.(users := s.users + [NO_USER.(fd := fd)], open := s.open + {fd}, out := s.out[fd := []]);
      if env.pool then
        Some(s1.(main := Accepted(u),
                 book := s.book.(claim := s.book.claim[fd := Entering(u)], accepted := s.book.accepted + [u])))
      else
        Some(s1.(logins := s.logins + [Wolfie(u)],
                 book := s.book.(claim := s.book.claim[fd := InLogin(|s.logins|)],
                                 accepted := s.book.accepted + [u], served := s.book.served + [u])))
  }

  function ReadableStep(s: State, fd: int): Option<State> {
    if s.main != Select || fd < 0 || s.owner.Some? then None
    else match LookupFd(s, fd)
      case None => Some(s)
      case Some(p) => Some(s.(main := Command(p)))
  }

  function Token(ts: seq<string>, i: nat): string {
    if i < |ts| then ts[i] else ""
  }

  /** handleClientCommands once readInput has returned frame. */
  function ServeStep(s: State, frame: string, seconds: string): Option<State> {
    if !s.main.Command? then None
    else
      var fd := UserAt(s, s.main.u).fd;
      var ts := Tokens(frame);
      if frame == "" then Some(s.(main := CrashLookup(s.main.u)))
      else if Token(ts, 0) == "TIME" then Some(Write(s, fd, [Emit(seconds)]).(main := Select))
      else if Token(ts, 0) == "LISTU" then
        if s.owner.Some? then None
        else Some(Write(s, fd, [Utsil(ConnectedNames(View(s)))]).(main := Select))
      else if Token(ts, 0) == "BYE" then Some(Write(s, fd, [Bye]).(main := ByeLookup(s.main.u, fd)))
      else if Token(ts, 0) == "MSG" then
        if s.owner.Some? then None
        else Some(s.(main := RelayMsg(fd, Lookup(s, Token(ts, 1)), Lookup(s, Token(ts, 2)), frame)))
      else Some(s.(main := Select))
  }

  function MainStep(s: State): Option<State> {
    match s.main
    case Accepted(u) =>
      if s.owner.Some? then None
      else Some(Claimed(s.(queue := s.queue + [u], main := Posting), UserAt(s, u).fd, Waiting(u)))
    case Posting => Some(s.(sem := s.sem + 1, main := Select))
    case RelayMsg(fd, to, from, text) =>
      if to == None || from == None || !UserAt(s, to.value).connected || !UserAt(s, from.value).connected then
        Some(Write(s, fd, [Err(1)]).(main := Select))
      else
        Some(Write(Write(s, UserAt(s, to.value).fd, [Relay(text)]), UserAt(s, from.value).fd, [Relay(text)]).(main := Select))
    case ByeLookup(u, fd) =>
      if s.owner.Some? then None
      else (match LookupFd(s, fd)
            case None => None
            case Some(r) => Some(s.(main := ByeDisconnect(r, fd))))
    case ByeDisconnect(r, fd) =>
      if s.owner.Some? then None
      else Some(Claimed(Record(Logged(Disconnect(s, r), Main), Main, Logout(UserAt(s, r).name, UserAt(s, r).fd)), UserAt(s, r).fd, Closing)
                .(main := ByeCast(r, fd)))
    case ByeCast(r, fd) =>
      if s.owner.Some? then None
      else Some(Broadcast(s, Uoff(UserAt(s, r).name)).(main := ByeClose(fd)))
    case ByeClose(fd) => Some(Close(s, fd).(main := Select))
    case CrashLookup(u) =>
      if s.owner.Some? then None
      else Some(s.(main := CrashDisconnect(match Lookup(s, UserAt(s, u).name) case None => u case Some(r) => r)))
    case CrashDisconnect(r) =>
      if s.owner.Some? then None
      else Some(Claimed(Record(Logged(Disconnect(s, r), Main), Main, Logout(UserAt(s, r).name, UserAt(s, r).fd)), UserAt(s, r).fd, Leaked)
                .(main := CrashClose(r)))
    case CrashClose(r) =>
      // The record is read again, without the mutex, after it was disconnected.
      Some(Close(s, UserAt(s, r).fd).(main := CrashCast(r)))
    case CrashCast(r) =>
      if s.owner.Some? then None
      else Some(Broadcast(s, Uoff(UserAt(s, r).name)).(main := Select))
    case Select => None
    case Command(_) => None
  }

  // ---------- a login thread ----------

  function After(env: Env): Pc {
    if env.pool then Idle else Exited(false)
  }

  /** A login thread once readInput has returned frame; salt is what generateSalt would draw. */
  function ReadStep(env: Env, s: State, k: nat, frame: string, salt: string): Option<State>
    requires k < |s.logins|
  {
    var ts := Tokens(frame);
    match s.logins[k]
    case Wolfie(u) =>
      if frame == "" then Some(To(s, k, Drop(u, false)))
      else Some(To(if Token(ts, 0) == "WOLFIE" then Write(s, UserAt(s, u).fd, [Eiflow]) else s, k, Iam(u)))
    case Iam(u) =>
      if frame == "" then Some(To(s, k, Drop(u, false)))
      else if Carries(ts, "IAMNEW") then Some(To(s, k, WantNew(u, ts[1])))
      else if Carries(ts, "IAM") then Some(To(s, k, WantIam(u, ts[1])))
      else Some(To(s, k, RefuseOpen(u)))
    case AwaitNewPass(u, name) =>
      if frame == "" then Some(To(s, k, Drop(u, true)))
      else if !Carries(ts, "NEWPASS") then
        Some(Record(To(s, k, Refuse(u, 100, true)), LoginThread(k), RefuseNewProtocol(name)))
      else if !env.valid(ts[1]) then
        Some(Record(To(s, k, Refuse(u, 2, true)), LoginThread(k), RefuseNewPassword(name, ts[1])))
      else
        Some(To(Write(SetUser(s, u, StorePassword(env, UserAt(s, u), ts[1], salt)), UserAt(s, u).fd, [Ssapwen]),
                k, AddAccount(u, name, ts[1])))
    case AwaitPass(u, a, name) =>
      if frame == "" then Some(To(s, k, Drop(u, true)))
      else if !Carries(ts, "PASS") then
        Some(Record(To(s, k, Refuse(u, 100, false)), LoginThread(k), RefuseProtocol(name)))
      else if !CorrectPassword(env, UserAt(s, a), ts[1]) then
        Some(Record(To(s, k, Refuse(u, 2, false)), LoginThread(k), RefusePassword(name, ts[1])))
      else
        Some(To(Write(s, UserAt(s, u).fd, [Ssap, Hi(name)]), k, Grant(u, a, name, ts[1])))
    case _ => None
  }

  function ThreadStep(env: Env, s: State, k: nat): Option<State>
    requires k < |s.logins|
  {
    match s.logins[k]
    case Idle => if s.sem == 0 then None else Some(To(s.(sem := s.sem - 1), k, Got))
    case Got =>
      if !MayLock(s, k) then None
      else if s.queue == [] then Some(To(s, k, Idle))
      else
        Some(Claimed(To(s.(queue := s.queue[1..], book := s.book.(served := s.book.served + [s.queue[0]])), k, Wolfie(s.queue[0])),
                     UserAt(s, s.queue[0]).fd, InLogin(k)))
    case WantNew(u, name) =>
      if s.owner.Some? then None
      else Some(Logged(To(s.(owner := Some(k)), k, CheckNew(u, name)), LoginThread(k)))
    case CheckNew(u, name) =>
      if Lookup(s, name).Some? then Some(Record(To(s, k, Refuse(u, 0, true)), LoginThread(k), RefuseTaken(name)))
      else if |name| > MAX_INPUT then Some(Record(To(s, k, Refuse(u, 100, true)), LoginThread(k), RefuseLong(name)))
      else Some(To(Write(s, UserAt(s, u).fd, [Hinew(name)]), k, AwaitNewPass(u, name)))
    case AddAccount(u, name, password) =>
      var r := UserAt(s, u);
      var s1 := SetUser(s, u, r.(connected := true, name := name));
      Some(Claimed(Record(To(s1.(list := s1.list + [u]), k, GreetNew(u)), LoginThread(k), Register(name, password, r.password, r.salt, r.fd)),
                   r.fd, Session(u)))
    case GreetNew(u) => Some(To(Write(s, UserAt(s, u).fd, [HiNew]), k, SendMotd(u, u)))
    case WantIam(u, name) =>
      if s.owner.Some? then None
      else Some(Logged(To(s.(owner := Some(k)), k, CheckIam(u, name)), LoginThread(k)))
    case CheckIam(u, name) =>
      (match Lookup(s, name)
       case None => Some(Record(To(s, k, Refuse(u, 1, true)), LoginThread(k), RefuseUnknown(name)))
       case Some(a) =>
         if |name| > MAX_INPUT then Some(Record(To(s, k, Refuse(u, 100, true)), LoginThread(k), RefuseLong(name)))
         else if UserAt(s, a).connected then Some(Record(To(s, k, Refuse(u, 0, true)), LoginThread(k), RefuseBusy(name)))
         else Some(To(Write(s, UserAt(s, u).fd, [Auth(name)]), k, AwaitPass(u, a, name))))
    case Grant(u, a, name, password) =>
      var fd := UserAt(s, u).fd;
      var s1 := RemoveByFd(s, fd);
      Some(Claimed(Record(To(SetUser(s1, a, UserAt(s1, a).(connected := true, fd := fd)), k, SendMotd(u, a)), LoginThread(k), Login(name, password, fd)),
                   fd, Session(a)))
    case SendMotd(u, _) => Some(To(Write(s, UserAt(s, u).fd, [Motd]), k, Release(u, true)))
    case Refuse(u, code, purge) =>
      Some(To(Write(if purge then RemoveByFd(s, UserAt(s, u).fd) else s, UserAt(s, u).fd, [Err(code), Bye]), k, Release(u, false)))
    case Release(u, granted) => Some(To(s.(owner := None), k, if granted then After(env) else Cleanup(u)))
    case RefuseOpen(u) => Some(To(Write(s, UserAt(s, u).fd, [Err(100), Bye]), k, Cleanup(u)))
    case Cleanup(u) =>
      if !MayLock(s, k) then None
      else Some(Claimed(To(RemoveByFd(s, UserAt(s, u).fd), k, After(env)), UserAt(s, u).fd, Leaked))
    case Drop(u, held) =>
      if !MayLock(s, k) then None
      else
        var r := match Lookup(s, UserAt(s, u).name) case None => u case Some(r) => r;
        var s1 := if held then s else Logged(s, LoginThread(k));
        Some(Claimed(Record(To(Disconnect(s1, r), k, DropCast(r, held)), LoginThread(k), Abandon), UserAt(s, u).fd, Leaked))
    case DropCast(r, held) =>
      if !MayLock(s, k) then None
      else Some(To(Broadcast(s, Uoff(UserAt(s, r).name)), k, Exited(held)))
    case Wolfie(_) => None
    case Iam(_) => None
    case AwaitNewPass(_, _) => None
    case AwaitPass(_, _, _) => None
    case Exited(_) => None
  }

  // ---------- runs ----------

  function Next(env: Env, s: State, e: Event): Option<State> {
    match e
    case Accept(fd) => AcceptStep(env, s, fd)
    case Readable(fd) => ReadableStep(s, fd)
    case ServeRead(frame, seconds) => ServeStep(s, frame, seconds)
    case MainGo => MainStep(s)
    case ThreadRead(k, frame, salt) => if k < |s.logins| then ReadStep(env, s, k, frame, salt) else None
    case ThreadGo(k) => if k < |s.logins| then ThreadStep(env, s, k) else None
  }

  /** What readInput can return: at most one terminator, at the end. A message of blanks only,
      on which tokenize would follow a null pointer, is not covered. */
  ghost predicate Receivable(frame: string) {
    EndsOnce(frame) && |frame| <= FRAME_LIMIT && (frame == "" || Tokens(frame) != [])
  }

  ghost predicate Admissible(e: Event) {
    match e
    case ServeRead(frame, seconds) => Receivable(frame) && CleanName(seconds)
    case ThreadRead(_, frame, salt) => Receivable(frame) && |salt| == SALT_LENGTH
    case _ => true
  }

  ghost predicate Step(env: Env, s: State, e: Event, t: State) {
    Admissible(e) && Next(env, s, e) == Some(t)
  }

  /** The server before it listens: the accounts of the database, none of them connected. */
  ghost predicate Init(env: Env, s: State) {
    && |s.list| == |s.users| && (forall i | 0 <= i < |s.list| :: s.list[i] == i)
    && (forall i | 0 <= i < |s.users| :: !s.users[i].connected && s.users[i].fd == -1 && CleanName(s.users[i].name))
    && DistinctNames(s.users)
    && s.queue == [] && s.sem == 0 && s.owner == None && s.open == {} && s.out == map[] && s.main == Select
    && (if env.pool then forall k | 0 <= k < |s.logins| :: s.logins[k] == Idle else s.logins == [])
    && s.book == Book(map[], [], [], [], [], TableOf(s.users))
  }

  /** states[i+1] follows states[i] by events[i]. */
  ghost predicate Run(env: Env, states: seq<State>, events: seq<Event>) {
    && |states| == |events| + 1
    && Init(env, states[0])
    && forall i | 0 <= i < |events| :: StepAt(env, states, events, i)
  }

  ghost predicate StepAt(env: Env, states: seq<State>, events: seq<Event>, i: int) {
    0 <= i < |events| && i + 1 < |states| && Step(env, states[i], events[i], states[i + 1])
  }

  /** The step does not close the descriptor of a session that began after its account was
      disconnected: handleClientCrash finds -1 when it reads the descriptor to close. */
  predicate Undisturbed(s: State, e: Event) {
    e == MainGo && s.main.CrashClose? ==> UserAt(s, s.main.r).fd == -1
  }

  ghost predicate QuietRun(env: Env, states: seq<State>, events: seq<Event>) {
    Run(env, states, events) && forall i {:trigger events[i]} | 0 <= i < |events| :: Undisturbed(states[i], events[i])
  }
}

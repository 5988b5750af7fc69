/** The invariant of the login server. */
module LoginSafety {
  import opened Wrappers
  import opened Accounts
  import opened AtomicAccounts
  import opened Text
  import opened Wire
  import opened LoginServer

  // ---------- the invariant, piece by piece ----------

  ghost predicate ListInv(s: State) {
    && (forall i | 0 <= i < |s.list| :: s.list[i] < |s.users| && CleanName(s.users[s.list[i]].name))
    && (forall i, j | 0 <= i < j < |s.list| :: s.users[s.list[i]].name != s.users[s.list[j]].name)
  }

  /** A listed account is connected just when it has a descriptor, which is then open and its own. */
  ghost predicate SessionInv(s: State) {
    forall i | 0 <= i < |s.list| && s.list[i] < |s.users| ::
      var u := s.users[s.list[i]];
      if u.connected then u.fd in s.open && u.fd in s.book.claim && s.book.claim[u.fd] == Session(s.list[i]) else u.fd == -1
  }

  ghost predicate DescriptorInv(s: State) {
    && s.open == s.out.Keys == s.book.claim.Keys
    && forall fd <- s.open :: fd >= 0
  }

  /** u is a connection that has not logged in, and c is its claim. */
  ghost predicate Pending(s: State, u: Ptr, c: Claim) {
    && u < |s.users| && !s.users[u].connected && s.users[u].name == ""
    && s.users[u].fd in s.open && s.users[u].fd in s.book.claim && s.book.claim[s.users[u].fd] == c
  }

  ghost predicate QueueInv(s: State) {
    forall i | 0 <= i < |s.queue| :: Pending(s, s.queue[i], Waiting(s.queue[i]))
  }

  predicate Holds(pc: Pc) {
    match pc
    case CheckNew(_, _) => true
    case AwaitNewPass(_, _) => true
    case AddAccount(_, _, _) => true
    case GreetNew(_) => true
    case CheckIam(_, _) => true
    case AwaitPass(_, _, _) => true
    case Grant(_, _, _, _) => true
    case SendMotd(_, _) => true
    case Refuse(_, _, _) => true
    case Release(_, _) => true
    case Drop(_, held) => held
    case DropCast(_, held) => held
    case Exited(held) => held
    case _ => false
  }

  ghost predicate Listed(s: State, p: Ptr) {
    p in s.list && p < |s.users|
  }

  ghost predicate Unlisted(s: State, name: string) {
    forall i | 0 <= i < |s.list| && s.list[i] < |s.users| :: s.users[s.list[i]].name != name
  }

  /** a is the account of that name and nobody is connected to it. */
  ghost predicate Offline(s: State, a: Ptr, name: string) {
    Listed(s, a) && s.users[a].name == name && !s.users[a].connected
  }

  ghost predicate PcOk(env: Env, s: State, k: nat, pc: Pc) {
    match pc
    case Idle => true
    case Got => true
    case Wolfie(u) => Pending(s, u, InLogin(k))
    case Iam(u) => Pending(s, u, InLogin(k))
    case WantNew(u, n) => Pending(s, u, InLogin(k)) && CleanName(n)
    case CheckNew(u, n) => Pending(s, u, InLogin(k)) && CleanName(n)
    case AwaitNewPass(u, n) => Pending(s, u, InLogin(k)) && CleanName(n) && Unlisted(s, n)
    case AddAccount(u, n, pw) =>
      && Pending(s, u, InLogin(k)) && CleanName(n) && Unlisted(s, n)
      && env.valid(pw) && CorrectPassword(env, s.users[u], pw)
    case GreetNew(u) => Listed(s, u) && s.users[u].connected
    case WantIam(u, n) => Pending(s, u, InLogin(k)) && CleanName(n)
    case CheckIam(u, n) => Pending(s, u, InLogin(k)) && CleanName(n)
    case AwaitPass(u, a, n) => Pending(s, u, InLogin(k)) && CleanName(n) && Offline(s, a, n)
    case Grant(u, a, n, pw) =>
      Pending(s, u, InLogin(k)) && CleanName(n) && Offline(s, a, n) && CorrectPassword(env, s.users[a], pw)
    case SendMotd(u, a) => u < |s.users| && Listed(s, a) && s.users[a].connected && s.users[a].fd == s.users[u].fd
    case Refuse(u, _, _) => Pending(s, u, InLogin(k))
    case Release(u, granted) => !granted ==> Pending(s, u, InLogin(k))
    case RefuseOpen(u) => Pending(s, u, InLogin(k))
    case Cleanup(u) => Pending(s, u, InLogin(k))
    case Drop(u, _) => Pending(s, u, InLogin(k))
    case DropCast(r, _) => r < |s.users| && s.users[r].name == "" && s.users[r].fd == -1
    case Exited(_) => true
  }

  ghost predicate ThreadInv(env: Env, s: State) {
    && (forall k | 0 <= k < |s.logins| :: PcOk(env, s, k, s.logins[k]))
    && (forall k | 0 <= k < |s.logins| :: Holds(s.logins[k]) <==> s.owner == Some(k))
    && (s.owner.Some? ==> s.owner.value < |s.logins|)
  }

  ghost predicate Online(s: State, r: Ptr, fd: int) {
    Listed(s, r) && s.users[r].connected && s.users[r].fd == fd
  }

  ghost predicate MainInv(s: State) {
    match s.main
    case Select => true
    case Accepted(u) => Pending(s, u, Entering(u))
    case Posting => true
    case Command(u) => Listed(s, u) && s.users[u].connected
    case RelayMsg(_, to, from, text) =>
      && (to.Some? ==> Listed(s, to.value) && s.users[to.value].name == Token(Tokens(text), 1))
      && (from.Some? ==> Listed(s, from.value) && s.users[from.value].name == Token(Tokens(text), 2))
      && Token(Tokens(text), 0) == "MSG"
    case ByeLookup(u, fd) => Online(s, u, fd)
    case ByeDisconnect(r, fd) => Online(s, r, fd)
    case ByeCast(r, fd) => Listed(s, r) && fd in s.book.claim && s.book.claim[fd] == Closing
    case ByeClose(fd) => fd in s.book.claim && s.book.claim[fd] == Closing
    case CrashLookup(u) => Listed(s, u) && s.users[u].connected
    case CrashDisconnect(r) => Listed(s, r) && s.users[r].connected
    case CrashClose(r) => Listed(s, r)
    case CrashCast(r) => Listed(s, r)
  }

  /** Threads that have passed sem_wait and not yet taken their connection. */
  function Taking(pcs: seq<Pc>): nat {
    if pcs == [] then 0 else Taking(pcs[..|pcs| - 1]) + if pcs[|pcs| - 1] == Got then 1 else 0
  }

  /** Queue length = semaphore + producer between unlock and post + consumers between wait and lock. */
  predicate CountInv(s: State) {
    |s.queue| == s.sem + (if s.main == Posting then 1 else 0) + Taking(s.logins)
  }

  /** Connections are taken up in the order they were accepted, none twice. */
  ghost predicate OrderInv(s: State) {
    && s.book.accepted == s.book.served + s.queue + (if s.main.Accepted? then [s.main.u] else [])
    && (forall i, j | 0 <= i < j < |s.book.accepted| :: s.book.accepted[i] < s.book.accepted[j])
    && (forall i | 0 <= i < |s.book.accepted| :: s.book.accepted[i] < |s.users|)
  }

  /** A UOFF is preceded by a MOTD. */
  ghost predicate MotdFirst(t: seq<Msg>) {
    forall i | 0 <= i < |t| && t[i].Uoff? :: Motd in t[..i]
  }

  predicate Greeting(pc: Pc, a: Ptr) {
    match pc
    case GreetNew(u) => u == a
    case SendMotd(_, b) => b == a
    case _ => false
  }

  ghost predicate BeingGreeted(s: State, a: Ptr) {
    s.owner.Some? && s.owner.value < |s.logins| && Greeting(s.logins[s.owner.value], a)
  }

  ghost predicate MotdInv(s: State) {
    && (forall fd <- s.out :: MotdFirst(s.out[fd]))
    && (forall i | 0 <= i < |s.list| && s.list[i] < |s.users| ::
          var u := s.users[s.list[i]];
          u.connected && u.fd in s.out ==> Motd in s.out[u.fd] || BeingGreeted(s, s.list[i]))
  }

  /** The region the mutex holder is in has not come to a decision yet. */
  predicate Undecided(pc: Pc) {
    match pc
    case CheckNew(_, _) => true
    case AwaitNewPass(_, _) => true
    case AddAccount(_, _, _) => true
    case CheckIam(_, _) => true
    case AwaitPass(_, _, _) => true
    case Grant(_, _, _, _) => true
    case Drop(_, held) => held
    case _ => false
  }

  function Actors(h: seq<Entry>): seq<Who> {
    seq(|h|, i requires 0 <= i < |h| => h[i].who)
  }

  function OpenRegion(s: State): seq<Who> {
    match s.owner
    case None => []
    case Some(k) => if k < |s.logins| && Undecided(s.logins[k]) then [LoginThread(k)] else []
  }

  /** The account list is the atomic table after the recorded operations, each legal in its turn. */
  ghost predicate ReplayInv(env: Env, s: State) {
    Replay(env, s.book.base, s.book.history) == Some(TableOf(View(s)))
  }

  /** The outcomes stand in the order in which the mutex was acquired, one per region. */
  predicate LogInv(s: State) {
    s.book.log == Actors(s.book.history) + OpenRegion(s)
  }

  ghost predicate HistoryInv(env: Env, s: State) {
    ReplayInv(env, s) && LogInv(s)
  }

  /** All that does not look at each login thread. */
  ghost predicate SharedInv(s: State) {
    && ListInv(s) && SessionInv(s) && DescriptorInv(s) && QueueInv(s) && MainInv(s)
    && CountInv(s) && OrderInv(s) && MotdInv(s)
  }

  /** Without a pool there is no queue. */
  predicate ModeInv(env: Env, s: State) {
    !env.pool ==> s.queue == [] && !s.main.Accepted?
  }

  ghost predicate Core(env: Env, s: State) {
    SharedInv(s) && ThreadInv(env, s) && ModeInv(env, s)
  }

  ghost predicate Inv(env: Env, s: State) {
    Core(env, s) && HistoryInv(env, s)
  }
}

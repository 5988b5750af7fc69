/** Until a login dialogue is over, the client or the server can move. */
module HandshakeProgress {
  import opened Wrappers
  import opened Accounts
  import opened Framing
  import opened Wire
  import opened LoginServer
  import opened LoginSafety
  import opened LoginClient
  import opened Handshake
  import opened HandshakeTheorems

  predicate Reading(pc: Pc) {
    pc.Wolfie? || pc.Iam? || pc.AwaitNewPass? || pc.AwaitPass?
  }

  /** Thread k has a next step, and it waits for nothing. */
  predicate Goes(env: Env, s: State, k: nat) {
    k < |s.logins| && Next(env, s, ThreadGo(k)).Some?
  }

  ghost predicate CanRead(env: Env, s: State, k: nat, frame: string) {
    forall salt | |salt| == SALT_LENGTH :: Admissible(ThreadRead(k, frame, salt)) && Next(env, s, ThreadRead(k, frame, salt)).Some?
  }

  /** The mutex is taken, by a thread that can move, that waits for the client it serves, or that
      has exited with it. */
  predicate MutexTaken(env: Env, s: State) {
    match s.owner
    case None => false
    case Some(j) => Goes(env, s, j) || (j < |s.logins| && (Reading(s.logins[j]) || s.logins[j] == Exited(true)))
  }

  /** A login thread that serves nobody. */
  predicate Free(s: State, k: nat) {
    k < |s.logins| && (s.logins[k] == Idle || s.logins[k] == Got)
  }

  /** The queue is on the move: its semaphore is about to be posted, or a free thread takes a step
      towards the next connection. */
  ghost predicate QueueMoves(env: Env, s: State) {
    (s.main == Posting && Next(env, s, MainGo).Some?) || exists k: nat :: Free(s, k) && Goes(env, s, k)
  }

  /** All login threads that have not exited serve other connections, and one of these can go on,
      or waits for its client. */
  ghost predicate OthersServed(env: Env, s: State) {
    exists k: nat :: k < |s.logins| && (Goes(env, s, k) || Reading(s.logins[k]))
  }

  /** Where a dialogue in which the client waits can go on at the server. */
  ghost predicate CanAct(env: Env, s: State, fd: int, c: Client) {
    fd in s.book.claim &&
    match s.book.claim[fd]
    case Entering(_) => Next(env, s, MainGo).Some? || MutexTaken(env, s)
    case Waiting(_) =>
      && ((exists k: nat :: Free(s, k)) ==> QueueMoves(env, s) || MutexTaken(env, s))
      && ((exists k: nat :: k < |s.logins| && !s.logins[k].Exited?) ==> QueueMoves(env, s) || OthersServed(env, s) || MutexTaken(env, s))
    case InLogin(k) =>
      if k < |s.logins| && Reading(s.logins[k]) then Delivers(c.sent, NextFrame(c.sent)) && CanRead(env, s, k, NextFrame(c.sent))
      else Goes(env, s, k) || (s.owner != Some(k) && MutexTaken(env, s))
    case Session(_) => s.owner.Some? && Goes(env, s, s.owner.value)
    case _ => false
  }

  // ---------- threads ----------

  /** A thread that may have the mutex goes on, unless it reads, has exited, or finds no connection. */
  lemma ThreadGoes(env: Env, s: State, k: nat)
    requires ThreadInv(env, s) && k < |s.logins| && MayLock(s, k)
    requires !Reading(s.logins[k]) && !s.logins[k].Exited? && (s.logins[k] == Idle ==> s.sem > 0)
    ensures Goes(env, s, k)
  {
    assert Holds(s.logins[k]) <==> s.owner == Some(k);
  }

  lemma HolderKnown(env: Env, s: State)
    requires ThreadInv(env, s) && s.owner.Some?
    ensures MutexTaken(env, s)
  {
    var j := s.owner.value;
    assert Holds(s.logins[j]) <==> s.owner == Some(j);
    if !Reading(s.logins[j]) && !s.logins[j].Exited? {
      ThreadGoes(env, s, j);
    }
  }

  lemma {:induction false} TakerExists(pcs: seq<Pc>) returns (k: nat)
    requires Taking(pcs) > 0
    ensures k < |pcs| && pcs[k] == Got
  {
    if pcs[|pcs| - 1] == Got {
      k := |pcs| - 1;
    } else {
      k := TakerExists(pcs[..|pcs| - 1]);
    }
  }

  /** The balance of queue, semaphore and threads keeps the queue on the move. */
  lemma QueueOnTheMove(env: Env, s: State, free: nat)
    requires ThreadInv(env, s) && CountInv(s) && s.queue != [] && s.owner == None && Free(s, free)
    ensures QueueMoves(env, s)
  {
    if Taking(s.logins) > 0 {
      var k := TakerExists(s.logins);
      ThreadGoes(env, s, k);
      assert Free(s, k);
    } else if s.main != Posting {
      assert s.sem > 0;
      ThreadGoes(env, s, free);
    }
  }

  lemma QueuedCanAct(env: Env, s: State, fd: int, c: Client)
    requires Inv(env, s) && Talk(s, fd, c) && s.book.claim[fd].Waiting?
    ensures CanAct(env, s, fd, c)
  {
    if s.owner.Some? {
      HolderKnown(env, s);
    } else if k: nat :| Free(s, k) {
      QueueOnTheMove(env, s, k);
    } else if k: nat :| k < |s.logins| && !s.logins[k].Exited? {
      assert !Free(s, k);
      if !Reading(s.logins[k]) {
        ThreadGoes(env, s, k);
      }
      assert OthersServed(env, s);
    }
  }

  // ---------- the dialogue ----------

  lemma SentWhole(pc: Pc, t: seq<Msg>, c: Client)
    requires Ours(pc, t, c) && Reading(pc) && Awaiting(c.pc) && c.got == |t|
    ensures c.sent == Message(["WOLFIE"]) || c.sent == NameMessage(c) || c.sent == PassMessage(c)
  {
  }

  lemma SentDelivered(c: Client)
    requires Typed(c) && (c.sent == Message(["WOLFIE"]) || c.sent == NameMessage(c) || c.sent == PassMessage(c))
    ensures Delivers(c.sent, NextFrame(c.sent)) && Receivable(NextFrame(c.sent))
  {
    ClientVerbs(c.isNew);
    MessageDelivered(["WOLFIE"]);
    MessageDelivered([NameVerb(c.isNew), c.name]);
    MessageDelivered([PassVerb(c.isNew), c.password]);
  }

  lemma ReaderSteps(env: Env, s: State, k: nat, frame: string, salt: string)
    requires k < |s.logins| && Reading(s.logins[k])
    ensures Next(env, s, ThreadRead(k, frame, salt)).Some?
  {
  }

  lemma ReaderCanAct(env: Env, s: State, k: nat, fd: int, c: Client)
    requires Talk(s, fd, c) && Typed(c) && s.book.claim[fd] == InLogin(k)
    requires Awaiting(c.pc) && c.got == |s.out[fd]| && Reading(s.logins[k])
    ensures CanAct(env, s, fd, c)
  {
    var frame := NextFrame(c.sent);
    SentWhole(s.logins[k], s.out[fd], c);
    SentDelivered(c);
    forall salt | |salt| == SALT_LENGTH
      ensures Admissible(ThreadRead(k, frame, salt)) && Next(env, s, ThreadRead(k, frame, salt)).Some?
    {
      ReaderSteps(env, s, k, frame, salt);
    }
  }

  lemma ServerCanAct(env: Env, s: State, k: nat, fd: int, c: Client)
    requires ThreadInv(env, s) && Talk(s, fd, c) && s.book.claim[fd] == InLogin(k) && !Reading(s.logins[k])
    ensures CanAct(env, s, fd, c)
  {
    if MayLock(s, k) {
      ThreadGoes(env, s, k);
    } else {
      HolderKnown(env, s);
    }
  }

  lemma EnteringCanAct(env: Env, s: State, fd: int, c: Client)
    requires ThreadInv(env, s) && Talk(s, fd, c) && s.book.claim[fd].Entering?
    ensures CanAct(env, s, fd, c)
  {
    if s.owner.Some? {
      HolderKnown(env, s);
    }
  }

  lemma GreeterCanAct(env: Env, s: State, fd: int, c: Client)
    requires Talk(s, fd, c) && s.book.claim[fd].Session? && Awaiting(c.pc) && c.got == |s.out[fd]|
    ensures CanAct(env, s, fd, c)
  {
    assert Owed(s, s.book.claim[fd].a) > 0;
  }

  lemma WaitingCanAct(env: Env, s: State, fd: int, c: Client)
    requires Inv(env, s) && Talk(s, fd, c) && Typed(c) && Awaiting(c.pc) && c.got == |s.out[fd]|
    ensures CanAct(env, s, fd, c)
  {
    match s.book.claim[fd] {
      case Entering(_) => EnteringCanAct(env, s, fd, c);
      case Waiting(_) => QueuedCanAct(env, s, fd, c);
      case InLogin(k) =>
        if Reading(s.logins[k]) {
          ReaderCanAct(env, s, k, fd, c);
        } else {
          ServerCanAct(env, s, k, fd, c);
        }
      case Session(_) => GreeterCanAct(env, s, fd, c);
      case _ =>
    }
  }

  /** No state is reached in which the client waits for a message and the server, in turn, waits
      for one from this client: until the dialogue is over, the client can move, or the server
      can, or it is busy with other connections in one of the ways CanAct tells. */
  lemma NeverStuck(env: Env, motd: string, states: seq<State>, events: seq<Event>, ds: seq<Duo>, es: seq<DuoEvent>, i: nat)
    requires DuoRun(env, motd, states, events, ds, es) && i <= |es| && !Finished(ds[i].client.pc)
    ensures ds[i].fd in ds[i].server.out
    ensures ClientStep(motd, ds[i].client, ds[i].server.out[ds[i].fd]).Some? || CanAct(env, ds[i].server, ds[i].fd, ds[i].client)
  {
    DuoTalks(env, motd, states, events, ds, es, i);
    var s, c, fd := ds[i].server, ds[i].client, ds[i].fd;
    if Awaiting(c.pc) && c.got >= |s.out[fd]| {
      GotWithin(s, fd, c);
      WaitingCanAct(env, s, fd, c);
    }
  }

  lemma GotWithin(s: State, fd: int, c: Client)
    requires Talk(s, fd, c) && Awaiting(c.pc)
    ensures c.got <= |s.out[fd]|
  {
  }
}

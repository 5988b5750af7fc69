/** Each step of the login server keeps the invariant. */
module LoginSteps {
  import opened Wrappers
  import opened Accounts
  import opened AtomicAccounts
  import opened Text
  import opened Framing
  import opened Wire
  import opened LoginServer
  import opened LoginSafety

  // ---------- counting threads ----------

  lemma {:induction false} TakingUpdate(pcs: seq<Pc>, k: nat, pc: Pc)
    requires k < |pcs|
    ensures Taking(pcs[k := pc]) + (if pcs[k] == Got then 1 else 0) == Taking(pcs) + if pc == Got then 1 else 0
    decreases |pcs|
  {
    var n := |pcs| - 1;
    if k < n {
      assert pcs[k := pc][..n] == pcs[..n][k := pc];
      TakingUpdate(pcs[..n], k, pc);
    } else {
      assert pcs[k := pc][..n] == pcs[..n];
    }
  }

  lemma TakingAppend(pcs: seq<Pc>, pc: Pc)
    ensures Taking(pcs + [pc]) == Taking(pcs) + if pc == Got then 1 else 0
  {
    assert (pcs + [pc])[..|pcs|] == pcs;
  }

  lemma {:induction false} NobodyTaking(pcs: seq<Pc>)
    requires Got !in pcs
    ensures Taking(pcs) == 0
  {
    if pcs != [] {
      NobodyTaking(pcs[..|pcs| - 1]);
    }
  }

  // ---------- output traces ----------

  lemma MotdFirstAppend(t: seq<Msg>, ms: seq<Msg>)
    requires MotdFirst(t)
    requires Motd in t || forall i | 0 <= i < |ms| :: !ms[i].Uoff?
    ensures MotdFirst(t + ms)
  {
    forall i | 0 <= i < |t + ms| && (t + ms)[i].Uoff? ensures Motd in (t + ms)[..i] {
      if i < |t| {
        assert (t + ms)[..i] == t[..i];
      } else {
        assert t <= (t + ms)[..i];
        var j :| 0 <= j < |t| && t[j] == Motd;
        assert (t + ms)[..i][j] == Motd;
      }
    }
  }

  /** How the traces of one step relate: they only grow, and keep MOTD before UOFF. */
  ghost predicate Grown(o: map<int, seq<Msg>>, p: map<int, seq<Msg>>) {
    && o.Keys == p.Keys
    && (forall fd <- o :: o[fd] <= p[fd])
    && (forall fd <- o :: MotdFirst(o[fd]) ==> MotdFirst(p[fd]))
  }

  lemma WriteGrows(o: map<int, seq<Msg>>, fd: int, ms: seq<Msg>)
    requires forall i | 0 <= i < |ms| :: !ms[i].Uoff?
    ensures Grown(o, WriteTo(o, fd, ms))
  {
    if fd in o && MotdFirst(o[fd]) {
      MotdFirstAppend(o[fd], ms);
    }
  }

  lemma {:induction false} WriteEachGrows(o: map<int, seq<Msg>>, fds: seq<int>, m: Msg)
    requires forall i | 0 <= i < |fds| :: fds[i] in o && Motd in o[fds[i]]
    ensures Grown(o, WriteEach(o, fds, m))
    ensures forall fd <- o :: fd !in fds ==> WriteEach(o, fds, m)[fd] == o[fd]
    decreases |fds|
  {
    if fds != [] {
      var fd := fds[0];
      var p := WriteTo(o, fd, [m]);
      if MotdFirst(o[fd]) {
        MotdFirstAppend(o[fd], [m]);
      }
      forall i | 0 <= i < |fds[1..]| ensures fds[1..][i] in p && Motd in p[fds[1..][i]] {
        assert fds[1..][i] == fds[i + 1];
      }
      WriteEachGrows(p, fds[1..], m);
      forall f | f in o ensures MotdFirst(o[f]) ==> MotdFirst(WriteEach(o, fds, m)[f]) {
        assert f in p;
      }
    }
  }

  lemma MotdKept(s: State, t: State)
    requires MotdInv(s) && SessionInv(s) && DescriptorInv(s) && Grown(s.out, t.out)
    requires t.list == s.list && t.users == s.users
    requires forall a: Ptr :: BeingGreeted(s, a) ==> BeingGreeted(t, a) || (a < |s.users| && (s.users[a].fd in t.out ==> Motd in t.out[s.users[a].fd]))
    ensures MotdInv(t)
  {
    forall i | 0 <= i < |t.list| && t.list[i] < |t.users|
      ensures var u := t.users[t.list[i]]; u.connected && u.fd in t.out ==> Motd in t.out[u.fd] || BeingGreeted(t, t.list[i])
    {
      var u := t.users[t.list[i]];
      if u.connected && u.fd in s.out && Motd in s.out[u.fd] {
        var j :| 0 <= j < |s.out[u.fd]| && s.out[u.fd][j] == Motd;
        assert t.out[u.fd][j] == Motd;
      }
    }
  }

  /** A broadcast while nobody is being greeted reaches only connections that have had their MOTD. */
  lemma BroadcastGrows(s: State, m: Msg)
    requires ListInv(s) && SessionInv(s) && DescriptorInv(s) && MotdInv(s)
    requires forall a: Ptr :: !BeingGreeted(s, a)
    ensures Grown(s.out, Broadcast(s, m).out)
  {
    var fds := ConnectedFds(View(s));
    forall i | 0 <= i < |fds| ensures fds[i] in s.out && Motd in s.out[fds[i]] {
      assert fds[i] in fds;
      var j :| 0 <= j < |View(s)| && View(s)[j].connected && View(s)[j].fd == fds[i] && fds[i] != -1;
      assert s.list[j] < |s.users|;
    }
    WriteEachGrows(s.out, fds, m);
  }

  // ---------- the account list as a table ----------

  lemma ListedEntry(s: State, a: Ptr)
    requires ListInv(s) && Listed(s, a)
    ensures s.users[a].name in TableOf(View(s)) && TableOf(View(s))[s.users[a].name] == EntryOf(s.users[a])
  {
    var i :| 0 <= i < |s.list| && s.list[i] == a;
    TableLists(View(s));
    assert View(s)[i] == s.users[a];
  }

  lemma UnlistedEntry(s: State, name: string)
    requires ListInv(s) && Unlisted(s, name)
    ensures name !in TableOf(View(s))
  {
    forall i | 0 <= i < |View(s)| ensures View(s)[i].name != name {
      assert s.list[i] < |s.users|;
    }
  }

  /** The descriptor of a connection that has not logged in belongs to nobody in the list. */
  lemma PendingAlone(s: State, u: Ptr, c: Claim)
    requires ListInv(s) && SessionInv(s) && DescriptorInv(s) && Pending(s, u, c) && !c.Session?
    ensures forall i | 0 <= i < |s.list| :: UserAt(s, s.list[i]).fd != s.users[u].fd
    ensures RemoveByFd(s, s.users[u].fd) == s
  {
    forall i | 0 <= i < |s.list| ensures UserAt(s, s.list[i]).fd != s.users[u].fd {
      assert s.list[i] < |s.users|;
    }
  }

  lemma FdUnused(v: seq<User>, fd: int)
    requires DistinctNames(v) && forall i | 0 <= i < |v| :: v[i].fd != fd
    ensures Unused(TableOf(v), fd)
  {
    TableLists(v);
    forall n | n in TableOf(v) ensures TableOf(v)[n].session != Some(fd) {
      var i :| 0 <= i < |v| && v[i].name == n;
      assert TableOf(v)[v[i].name] == EntryOf(v[i]);
    }
  }

  lemma HistorySame(env: Env, s: State, t: State)
    requires HistoryInv(env, s) && View(t) == View(s)
    requires t.book.base == s.book.base && t.book.history == s.book.history
    requires t.book.log == Actors(t.book.history) + OpenRegion(t)
    ensures HistoryInv(env, t)
  {
  }

  lemma HistoryOne(env: Env, s: State, t: State, e: Entry)
    requires HistoryInv(env, s)
    requires t.book.base == s.book.base && t.book.history == s.book.history + [e]
    requires Legal(env, TableOf(View(s)), e.op) && TableOf(View(t)) == Apply(TableOf(View(s)), e.op)
    requires t.book.log == Actors(s.book.history) + [e.who] + OpenRegion(t)
    ensures HistoryInv(env, t)
  {
    ReplaySnoc(env, s.book.base, s.book.history, e);
    assert Actors(t.book.history) == Actors(s.book.history) + [e.who];
  }

  // ---------- steps that leave users, list, queue and claims alone ----------

  /** The connections thread j serves are left alone. */
  ghost predicate PendingKept(s: State, t: State, j: nat) {
    forall u: Ptr | Pending(s, u, InLogin(j)) :: Pending(t, u, InLogin(j)) && t.users[u] == s.users[u]
  }

  /** What the invariant says of a thread survives what others do, if they leave its pending
      connection alone, and everything in the list while it holds the mutex. */
  lemma PcFrame(env: Env, s: State, t: State, j: nat, pc: Pc)
    requires PcOk(env, s, j, pc) && ListInv(s)
    requires PendingKept(s, t, j)
    requires Holds(pc) ==> t.list == s.list && s.users <= t.users
    requires forall r: Ptr | r < |s.users| && s.users[r].name == "" && s.users[r].fd == -1 :: r < |t.users| && t.users[r] == s.users[r]
    ensures PcOk(env, t, j, pc)
  {
  }

  /** The fields that the invariants of list, sessions, queue and threads speak about. */
  ghost predicate SameTables(s: State, t: State) {
    && t.users == s.users && t.list == s.list && t.queue == s.queue && t.open == s.open && t.out.Keys == s.out.Keys
    && t.book.claim == s.book.claim && t.book.accepted == s.book.accepted && t.book.served == s.book.served
    && t.book.base == s.book.base
  }

  lemma TablesKept(s: State, t: State)
    requires SameTables(s, t)
    requires ListInv(s) && SessionInv(s) && DescriptorInv(s) && QueueInv(s)
    ensures ListInv(t) && SessionInv(t) && DescriptorInv(t) && QueueInv(t)
    ensures View(t) == View(s)
  {
  }

  lemma ThreadsKept(env: Env, s: State, k: nat, t: State)
    requires SameTables(s, t) && ListInv(s) && ThreadInv(env, s)
    requires k < |s.logins| == |t.logins| && t.logins == s.logins[k := t.logins[k]]
    requires PcOk(env, t, k, t.logins[k]) && (Holds(t.logins[k]) <==> t.owner == Some(k))
    requires t.owner == s.owner || (MayLock(s, k) && MayLock(t, k))
    ensures ThreadInv(env, t)
  {
    forall j | 0 <= j < |t.logins| ensures PcOk(env, t, j, t.logins[j]) && (Holds(t.logins[j]) <==> t.owner == Some(j)) {
      if j != k {
        PcFrame(env, s, t, j, s.logins[j]);
      }
    }
  }

  ghost predicate GreetingKept(s: State, t: State) {
    forall a: Ptr :: BeingGreeted(s, a) ==> BeingGreeted(t, a) || (a < |s.users| && (s.users[a].fd in t.out ==> Motd in t.out[s.users[a].fd]))
  }

  /** A step of login thread k that changes its own place, the mutex, outputs and records only. */
  lemma QuietThreadStep(env: Env, s: State, k: nat, t: State)
    requires Core(env, s) && k < |s.logins| && s.logins[k] != Got
    requires SameTables(s, t) && t.main == s.main && t.sem == s.sem
    requires |t.logins| == |s.logins| && t.logins == s.logins[k := t.logins[k]] && t.logins[k] != Got
    requires PcOk(env, t, k, t.logins[k]) && (Holds(t.logins[k]) <==> t.owner == Some(k))
    requires t.owner == s.owner || (MayLock(s, k) && MayLock(t, k))
    requires Grown(s.out, t.out) && GreetingKept(s, t)
    ensures Core(env, t)
  {
    TablesKept(s, t);
    ThreadsKept(env, s, k, t);
    TakingUpdate(s.logins, k, t.logins[k]);
    MotdKept(s, t);
  }

  /** A step of the accept/select thread that changes its own place and outputs only. */
  lemma QuietMainStep(env: Env, s: State, t: State)
    requires Core(env, s) && SameTables(s, t)
    requires t.logins == s.logins && t.owner == s.owner
    requires !s.main.Accepted? && !t.main.Accepted?
    requires t.sem + (if t.main == Posting then 1 else 0) == s.sem + if s.main == Posting then 1 else 0
    requires MainInv(t) && Grown(s.out, t.out)
    ensures Core(env, t)
  {
    TablesKept(s, t);
    forall j | 0 <= j < |t.logins| ensures PcOk(env, t, j, t.logins[j]) {
      PcFrame(env, s, t, j, s.logins[j]);
    }
    MotdKept(s, t);
  }

  // ---------- login threads ----------

  lemma IdleKeeps(env: Env, s: State, k: nat, t: State)
    requires Core(env, s) && k < |s.logins| && s.logins[k].Idle? && ThreadStep(env, s, k) == Some(t)
    ensures Core(env, t)
  {
    TakingUpdate(s.logins, k, Got);
    TablesKept(s, t);
    ThreadsKept(env, s, k, t);
    MotdKept(s, t);
  }

  lemma WantKeeps(env: Env, s: State, k: nat, t: State)
    requires Core(env, s) && k < |s.logins| && (s.logins[k].WantNew? || s.logins[k].WantIam?) && ThreadStep(env, s, k) == Some(t)
    ensures Core(env, t)
  {
    QuietThreadStep(env, s, k, t);
  }

  /** A thread writes to its own connection and moves on within its region, or outside any. */
  lemma WritingKeeps(env: Env, s: State, k: nat, fd: int, ms: seq<Msg>, pc: Pc)
    requires Core(env, s) && k < |s.logins| && s.logins[k] != Got && pc != Got
    requires PcOk(env, s, k, pc) && Holds(pc) == Holds(s.logins[k])
    requires forall i | 0 <= i < |ms| :: !ms[i].Uoff?
    requires forall a: Ptr | Greeting(s.logins[k], a) ::
      Greeting(pc, a) || (a < |s.users| && s.users[a].fd == fd && Motd in ms)
    ensures Core(env, To(Write(s, fd, ms), k, pc))
  {
    var t := To(Write(s, fd, ms), k, pc);
    WriteGrows(s.out, fd, ms);
    PcFrame(env, s, t, k, pc);
    QuietThreadStep(env, s, k, t);
  }

  /** A thread moves on within its region without writing, recording its outcome or not. */
  lemma MovingKeeps(env: Env, s: State, k: nat, t: State)
    requires Core(env, s) && k < |s.logins| && s.logins[k] != Got && (forall a: Ptr :: !Greeting(s.logins[k], a))
    requires |t.logins| == |s.logins| && t.logins[k] != Got
    requires t == s.(logins := s.logins[k := t.logins[k]], book := s.book.(history := t.book.history))
    requires PcOk(env, s, k, t.logins[k]) && Holds(t.logins[k]) == Holds(s.logins[k])
    ensures Core(env, t)
  {
    PcFrame(env, s, t, k, t.logins[k]);
    QuietThreadStep(env, s, k, t);
  }

  lemma CheckNewKeeps(env: Env, s: State, k: nat, t: State)
    requires Core(env, s) && k < |s.logins| && s.logins[k].CheckNew? && ThreadStep(env, s, k) == Some(t)
    ensures Core(env, t)
  {
    var CheckNew(u, name) := s.logins[k];
    if t.logins[k].Refuse? {
      MovingKeeps(env, s, k, t);
    } else {
      WritingKeeps(env, s, k, s.users[u].fd, [Hinew(name)], AwaitNewPass(u, name));
    }
  }

  lemma CheckIamEffect(env: Env, s: State, k: nat, t: State) returns (a: Ptr)
    requires k < |s.logins| && s.logins[k].CheckIam? && PcOk(env, s, k, s.logins[k]) && ThreadStep(env, s, k) == Some(t)
    ensures |t.logins| == |s.logins|
    ensures var CheckIam(u, name) := s.logins[k];
      if t.logins[k].Refuse? then t.logins[k].u == u && t == s.(logins := s.logins[k := t.logins[k]], book := s.book.(history := t.book.history))
      else a in s.list && UserAt(s, a).name == name && !UserAt(s, a).connected
           && t == To(Write(s, s.users[u].fd, [Auth(name)]), k, AwaitPass(u, a, name))
  {
    a := match Lookup(s, s.logins[k].name) case None => 0 case Some(p) => p;
  }

  lemma CheckIamKeeps(env: Env, s: State, k: nat, t: State)
    requires Core(env, s) && k < |s.logins| && s.logins[k].CheckIam? && ThreadStep(env, s, k) == Some(t)
    ensures Core(env, t)
  {
    var CheckIam(u, name) := s.logins[k];
    var a := CheckIamEffect(env, s, k, t);
    if t.logins[k].Refuse? {
      MovingKeeps(env, s, k, t);
    } else {
      WritingKeeps(env, s, k, s.users[u].fd, [Auth(name)], AwaitPass(u, a, name));
    }
  }

  lemma GreetNewKeeps(env: Env, s: State, k: nat, t: State)
    requires Core(env, s) && k < |s.logins| && s.logins[k].GreetNew? && ThreadStep(env, s, k) == Some(t)
    ensures Core(env, t)
  {
    var u := s.logins[k].u;
    WritingKeeps(env, s, k, s.users[u].fd, [HiNew], SendMotd(u, u));
  }

  lemma SendMotdKeeps(env: Env, s: State, k: nat, t: State)
    requires Core(env, s) && k < |s.logins| && s.logins[k].SendMotd? && ThreadStep(env, s, k) == Some(t)
    ensures Core(env, t)
  {
    var u := s.logins[k].u;
    WritingKeeps(env, s, k, s.users[u].fd, [Motd], Release(u, true));
  }

  lemma RefuseEffect(env: Env, s: State, k: nat, t: State) returns (code: nat, pc: Pc)
    requires ListInv(s) && SessionInv(s) && DescriptorInv(s)
    requires k < |s.logins| && (s.logins[k].Refuse? || s.logins[k].RefuseOpen?) && PcOk(env, s, k, s.logins[k])
    requires ThreadStep(env, s, k) == Some(t)
    ensures var u := s.logins[k].u;
      && pc == (if s.logins[k].Refuse? then Release(u, false) else Cleanup(u))
      && t == To(Write(s, s.users[u].fd, [Err(code), Bye]), k, pc)
  {
    var u := s.logins[k].u;
    PendingAlone(s, u, InLogin(k));
    code := if s.logins[k].Refuse? then s.logins[k].code else 100;
    pc := if s.logins[k].Refuse? then Release(u, false) else Cleanup(u);
  }

  lemma RefuseKeeps(env: Env, s: State, k: nat, t: State)
    requires Core(env, s) && k < |s.logins| && (s.logins[k].Refuse? || s.logins[k].RefuseOpen?) && ThreadStep(env, s, k) == Some(t)
    ensures Core(env, t)
  {
    var code, pc := RefuseEffect(env, s, k, t);
    WritingKeeps(env, s, k, s.users[s.logins[k].u].fd, [Err(code), Bye], pc);
  }

  lemma ReleaseKeeps(env: Env, s: State, k: nat, t: State)
    requires Core(env, s) && k < |s.logins| && s.logins[k].Release? && ThreadStep(env, s, k) == Some(t)
    ensures Core(env, t)
  {
    QuietThreadStep(env, s, k, t);
  }

  lemma DropCastKeeps(env: Env, s: State, k: nat, t: State)
    requires Core(env, s) && k < |s.logins| && s.logins[k].DropCast? && ThreadStep(env, s, k) == Some(t)
    ensures Core(env, t)
  {
    BroadcastGrows(s, Uoff(s.users[s.logins[k].u].name));
    QuietThreadStep(env, s, k, t);
  }

  lemma WolfieKeeps(env: Env, s: State, k: nat, frame: string, salt: string, t: State)
    requires Core(env, s) && k < |s.logins| && s.logins[k].Wolfie? && ReadStep(env, s, k, frame, salt) == Some(t)
    ensures Core(env, t)
  {
    var u := s.logins[k].u;
    if frame != "" && Token(Tokens(frame), 0) == "WOLFIE" {
      WritingKeeps(env, s, k, s.users[u].fd, [Eiflow], Iam(u));
    } else {
      MovingKeeps(env, s, k, t);
    }
  }

  lemma IamKeeps(env: Env, s: State, k: nat, frame: string, salt: string, t: State)
    requires Core(env, s) && k < |s.logins| && s.logins[k].Iam? && Receivable(frame) && ReadStep(env, s, k, frame, salt) == Some(t)
    ensures Core(env, t)
  {
    if t.logins[k].WantNew? {
      CarriedWordClean(frame, "IAMNEW");
    } else if t.logins[k].WantIam? {
      CarriedWordClean(frame, "IAM");
    }
    MovingKeeps(env, s, k, t);
  }

  lemma AwaitPassEffect(env: Env, s: State, k: nat, frame: string, salt: string, t: State)
    requires k < |s.logins| && s.logins[k].AwaitPass? && PcOk(env, s, k, s.logins[k]) && ReadStep(env, s, k, frame, salt) == Some(t)
    ensures |t.logins| == |s.logins|
    ensures var AwaitPass(u, a, name) := s.logins[k];
      if t.logins[k].Grant? then
        && t.logins[k].u == u && t.logins[k].a == a && t.logins[k].name == name && CorrectPassword(env, s.users[a], t.logins[k].password)
        && t == To(Write(s, s.users[u].fd, [Ssap, Hi(name)]), k, t.logins[k])
      else
        && (t.logins[k].Refuse? || (t.logins[k].Drop? && t.logins[k].held)) && t.logins[k].u == u
        && t == s.(logins := s.logins[k := t.logins[k]], book := s.book.(history := t.book.history))
  {
  }

  lemma AwaitPassKeeps(env: Env, s: State, k: nat, t: State)
    requires Core(env, s) && k < |s.logins| == |t.logins| && s.logins[k].AwaitPass?
    requires var AwaitPass(u, a, name) := s.logins[k];
      if t.logins[k].Grant? then
        && t.logins[k].u == u && t.logins[k].a == a && t.logins[k].name == name && CorrectPassword(env, UserAt(s, a), t.logins[k].password)
        && t == To(Write(s, UserAt(s, u).fd, [Ssap, Hi(name)]), k, t.logins[k])
      else
        && (t.logins[k].Refuse? || (t.logins[k].Drop? && t.logins[k].held)) && t.logins[k].u == u
        && t == s.(logins := s.logins[k := t.logins[k]], book := s.book.(history := t.book.history))
    ensures Core(env, t)
  {
    var AwaitPass(u, a, name) := s.logins[k];
    if t.logins[k].Grant? {
      WritingKeeps(env, s, k, s.users[u].fd, [Ssap, Hi(name)], t.logins[k]);
    } else {
      MovingKeeps(env, s, k, t);
    }
  }

  /** A pending record is in no list. */
  lemma PendingUnlisted(s: State, u: Ptr, c: Claim)
    requires ListInv(s) && Pending(s, u, c)
    ensures u !in s.list
  {
  }

  /** The record of the connection thread k serves gets its password and salt. */
  lemma PasswordKeeps(env: Env, s: State, k: nat, u: Ptr, password: string, salt: string)
    requires Core(env, s) && k < |s.logins| && s.owner == Some(k) && Pending(s, u, InLogin(k))
    requires s.logins[k].AwaitNewPass? && s.logins[k].u == u
    ensures Core(env, SetUser(s, u, s.users[u].(password := password, salt := salt)))
  {
    var t := SetUser(s, u, s.users[u].(password := password, salt := salt));
    PendingUnlisted(s, u, InLogin(k));
    forall j | 0 <= j < |t.logins| ensures PcOk(env, t, j, t.logins[j]) {
      if j != k {
        PcFrame(env, s, t, j, s.logins[j]);
      }
    }
    assert MotdInv(t);
    assert MainInv(t);
  }

  /** A password read from a message and stored with the salt drawn for it is accepted ever after:
      the two together always fit the buffer. */
  lemma ReadPasswordAccepted(env: Env, u: User, frame: string, salt: string)
    requires |frame| <= FRAME_LIMIT && Carries(Tokens(frame), "NEWPASS") && |salt| == SALT_LENGTH
    ensures var password := Tokens(frame)[1];
      env.valid(password) ==> CorrectPassword(env, StorePassword(env, u, password, salt), password)
  {
    CarriedFits(frame, "NEWPASS");
    if env.valid(Tokens(frame)[1]) {
      StoredPasswordAccepted(env, u, Tokens(frame)[1], salt);
    }
  }

  lemma AwaitNewPassEffect(env: Env, s: State, k: nat, frame: string, salt: string, t: State)
    requires k < |s.logins| && s.logins[k].AwaitNewPass? && ReadStep(env, s, k, frame, salt) == Some(t)
    requires Receivable(frame)
    ensures var AwaitNewPass(u, name) := s.logins[k];
            && |t.logins| == |s.logins|
            && match t.logins[k]
               case AddAccount(v, n, password) =>
                 && v == u && n == name && env.valid(password) && |password| + SALT_LENGTH <= MAX_INPUT
                 && t == To(Write(SetUser(s, u, StorePassword(env, UserAt(s, u), password, salt)), UserAt(s, u).fd, [Ssapwen]), k, AddAccount(u, name, password))
               case Refuse(v, _, _) => v == u && t == s.(logins := s.logins[k := t.logins[k]], book := s.book.(history := t.book.history))
               case Drop(v, held) => v == u && held && t == s.(logins := s.logins[k := t.logins[k]])
               case _ => false
  {
    if Carries(Tokens(frame), "NEWPASS") {
      CarriedFits(frame, "NEWPASS");
    }
  }

  lemma AwaitNewPassKeeps(env: Env, s: State, k: nat, t: State, salt: string)
    requires Core(env, s) && k < |s.logins| == |t.logins| && s.logins[k].AwaitNewPass? && |salt| == SALT_LENGTH
    requires t.logins[k].AddAccount? ==>
      var AddAccount(u, name, password) := t.logins[k];
      && s.logins[k] == AwaitNewPass(u, name) && env.valid(password) && |password| + SALT_LENGTH <= MAX_INPUT
      && t == To(Write(SetUser(s, u, StorePassword(env, UserAt(s, u), password, salt)), UserAt(s, u).fd, [Ssapwen]), k, AddAccount(u, name, password))
    requires !t.logins[k].AddAccount? ==>
      && t == s.(logins := s.logins[k := t.logins[k]], book := s.book.(history := t.book.history))
      && (t.logins[k].Refuse? || (t.logins[k].Drop? && t.logins[k].held)) && t.logins[k].u == s.logins[k].u
    ensures Core(env, t)
  {
    if t.logins[k].AddAccount? {
      var AddAccount(u, name, password) := t.logins[k];
      PasswordKeeps(env, s, k, u, env.hash(password + salt), salt);
      var r := SetUser(s, u, StorePassword(env, s.users[u], password, salt));
      WritingKeeps(env, r, k, r.users[u].fd, [Ssapwen], AddAccount(u, name, password));
    } else {
      MovingKeeps(env, s, k, t);
    }
  }

  // ---------- steps that move a connection ----------

  /** At most record x and the claim on fd change, and thread j is concerned with neither. */
  lemma ClaimMoved(s: State, t: State, x: Ptr, fd: int, j: nat)
    requires t.open == s.open && fd in s.book.claim && fd in t.book.claim && t.book.claim == s.book.claim[fd := t.book.claim[fd]]
    requires s.book.claim[fd] != InLogin(j)
    requires x < |s.users| == |t.users| && t.users == s.users[x := t.users[x]]
    requires !Pending(s, x, InLogin(j))
    ensures PendingKept(s, t, j)
  {
  }

  lemma ThreadsMoved(env: Env, s: State, k: nat, t: State)
    requires ListInv(s) && ThreadInv(env, s) && k < |s.logins| == |t.logins| && t.logins == s.logins[k := t.logins[k]]
    requires forall j | 0 <= j < |s.logins| && j != k :: PendingKept(s, t, j)
    requires (t.list == s.list && t.users == s.users) || MayLock(s, k)
    requires forall r: Ptr | r < |s.users| && s.users[r].name == "" && s.users[r].fd == -1 :: r < |t.users| && t.users[r] == s.users[r]
    requires PcOk(env, t, k, t.logins[k]) && (Holds(t.logins[k]) <==> t.owner == Some(k))
    requires t.owner == s.owner || (MayLock(s, k) && MayLock(t, k))
    ensures ThreadInv(env, t)
  {
    forall j | 0 <= j < |t.logins| ensures PcOk(env, t, j, t.logins[j]) && (Holds(t.logins[j]) <==> t.owner == Some(j)) {
      if j != k {
        PcFrame(env, s, t, j, s.logins[j]);
      }
    }
  }

  lemma GotThreads(env: Env, s: State, k: nat, t: State)
    requires Core(env, s) && k < |s.logins| && s.logins[k].Got? && ThreadStep(env, s, k) == Some(t)
    ensures ThreadInv(env, t)
  {
    TakingUpdate(s.logins, k, Idle);
    var u := s.queue[0];
    assert Pending(s, u, Waiting(u));
    forall j | 0 <= j < |s.logins| && j != k ensures PendingKept(s, t, j) {
      ClaimMoved(s, t, u, s.users[u].fd, j);
    }
    ThreadsMoved(env, s, k, t);
  }

  /** The connection at the front of the queue goes to thread k. */
  ghost predicate Taken(s: State, k: nat, t: State) {
    && k < |s.logins| && s.logins[k] == Got && s.queue != []
    && var u := s.queue[0];
    && u < |s.users| && s.users[u].fd in s.book.claim
    && t == s.(queue := s.queue[1..], logins := s.logins[k := Wolfie(u)],
               book := s.book.(served := s.book.served + [u], claim := s.book.claim[s.users[u].fd := InLogin(k)]))
  }

  lemma GotEffect(env: Env, s: State, k: nat, t: State)
    requires QueueInv(s) && k < |s.logins| && s.logins[k].Got? && s.queue != [] && ThreadStep(env, s, k) == Some(t)
    ensures Taken(s, k, t)
  {
    assert Pending(s, s.queue[0], Waiting(s.queue[0]));
  }

  lemma GotQueue(s: State, k: nat, t: State)
    requires QueueInv(s) && OrderInv(s) && Taken(s, k, t)
    ensures QueueInv(t) && OrderInv(t)
  {
    var u := s.queue[0];
    assert t.book.accepted == t.book.served + t.queue + (if t.main.Accepted? then [t.main.u] else []);
    forall i | 0 <= i < |t.queue| ensures Pending(t, t.queue[i], Waiting(t.queue[i])) {
      assert Pending(s, s.queue[i + 1], Waiting(s.queue[i + 1]));
      assert s.book.accepted[|s.book.served|] == u && s.book.accepted[|s.book.served| + i + 1] == t.queue[i];
    }
  }

  lemma GotShared(s: State, k: nat, t: State)
    requires SharedInv(s) && Taken(s, k, t)
    ensures SharedInv(t)
  {
    TakingUpdate(s.logins, k, t.logins[k]);
    GotQueue(s, k, t);
    assert Pending(s, s.queue[0], Waiting(s.queue[0]));
  }

  lemma CleanupThreads(env: Env, s: State, k: nat, t: State)
    requires Core(env, s) && k < |s.logins| && s.logins[k].Cleanup? && ThreadStep(env, s, k) == Some(t)
    ensures ThreadInv(env, t)
  {
    var u := s.logins[k].u;
    PendingAlone(s, u, InLogin(k));
    forall j | 0 <= j < |s.logins| && j != k ensures PendingKept(s, t, j) {
      ClaimMoved(s, t, u, s.users[u].fd, j);
    }
    ThreadsMoved(env, s, k, t);
  }

  /** What a step that touches record x and the claim on fd leaves as it was. */
  ghost predicate Touches(s: State, t: State, k: nat, x: Ptr, fd: int) {
    && x < |s.users| == |t.users| && t.users == s.users[x := t.users[x]]
    && k < |s.logins| == |t.logins| && t.logins == s.logins[k := t.logins[k]]
    && fd in s.book.claim && fd in t.book.claim && t.book.claim == s.book.claim[fd := t.book.claim[fd]]
    && t.queue == s.queue && t.sem == s.sem && t.owner == s.owner && t.open == s.open && t.out == s.out && t.main == s.main
    && t.book.accepted == s.book.accepted && t.book.served == s.book.served && t.book.base == s.book.base
  }

  lemma CleanupEffect(env: Env, s: State, k: nat, t: State)
    requires ListInv(s) && SessionInv(s) && DescriptorInv(s)
    requires k < |s.logins| && s.logins[k].Cleanup? && PcOk(env, s, k, s.logins[k]) && ThreadStep(env, s, k) == Some(t)
    ensures var u := s.logins[k].u;
            && Touches(s, t, k, u, s.users[u].fd) && t.list == s.list && t.users == s.users
            && t.logins[k] == After(env) && t.book.claim[s.users[u].fd] == Leaked
  {
    PendingAlone(s, s.logins[k].u, InLogin(k));
  }

  lemma CleanupShared(s: State, k: nat, u: Ptr, t: State)
    requires SharedInv(s) && Pending(s, u, InLogin(k)) && Touches(s, t, k, u, s.users[u].fd) && t.list == s.list && t.users == s.users
    requires s.logins[k].Cleanup? && !Holds(t.logins[k]) && t.logins[k] != Got && t.book.claim[s.users[u].fd] == Leaked
    ensures SharedInv(t)
  {
    TakingUpdate(s.logins, k, t.logins[k]);
  }

  lemma DropEffect(env: Env, s: State, k: nat, t: State)
    requires ListInv(s) && k < |s.logins| && s.logins[k].Drop? && PcOk(env, s, k, s.logins[k])
    requires ThreadStep(env, s, k) == Some(t)
    ensures var Drop(u, held) := s.logins[k];
            && Touches(s, t, k, u, s.users[u].fd) && t.list == s.list && MayLock(s, k)
            && t.logins[k] == DropCast(u, held) && t.users[u] == s.users[u].(connected := false, fd := -1)
            && t.book.claim[s.users[u].fd] == Leaked
  {
    assert Lookup(s, "") == None;
  }

  lemma DropThreads(env: Env, s: State, k: nat, t: State)
    requires Core(env, s) && k < |s.logins| && s.logins[k].Drop? && ThreadStep(env, s, k) == Some(t)
    ensures ThreadInv(env, t)
  {
    var u := s.logins[k].u;
    DropEffect(env, s, k, t);
    forall j | 0 <= j < |s.logins| && j != k ensures PendingKept(s, t, j) {
      ClaimMoved(s, t, u, s.users[u].fd, j);
    }
    ThreadsMoved(env, s, k, t);
  }

  lemma DropShared(s: State, k: nat, u: Ptr, held: bool, t: State)
    requires SharedInv(s) && Pending(s, u, InLogin(k)) && Touches(s, t, k, u, s.users[u].fd) && t.list == s.list
    requires s.logins[k] == Drop(u, held) && t.logins[k] == DropCast(u, held)
    requires t.users[u] == s.users[u].(connected := false, fd := -1) && t.book.claim[s.users[u].fd] == Leaked
    ensures SharedInv(t)
  {
    PendingUnlisted(s, u, InLogin(k));
    TakingUpdate(s.logins, k, t.logins[k]);
  }

  lemma AddAccountEffect(env: Env, s: State, k: nat, t: State)
    requires k < |s.logins| && s.logins[k].AddAccount? && PcOk(env, s, k, s.logins[k])
    requires ThreadStep(env, s, k) == Some(t)
    ensures var AddAccount(u, name, _) := s.logins[k];
            && Touches(s, t, k, u, s.users[u].fd) && t.list == s.list + [u]
            && t.logins[k] == GreetNew(u) && t.users[u] == s.users[u].(connected := true, name := name)
            && t.book.claim[s.users[u].fd] == Session(u)
  {
  }

  lemma AddAccountThreads(env: Env, s: State, k: nat, t: State)
    requires Core(env, s) && k < |s.logins| && s.logins[k].AddAccount? && ThreadStep(env, s, k) == Some(t)
    ensures ThreadInv(env, t)
  {
    var u := s.logins[k].u;
    AddAccountEffect(env, s, k, t);
    forall j | 0 <= j < |s.logins| && j != k ensures PendingKept(s, t, j) {
      ClaimMoved(s, t, u, s.users[u].fd, j);
    }
    ThreadsMoved(env, s, k, t);
  }

  lemma AddAccountShared(s: State, k: nat, u: Ptr, name: string, t: State)
    requires SharedInv(s) && Pending(s, u, InLogin(k)) && Unlisted(s, name) && CleanName(name)
    requires Touches(s, t, k, u, s.users[u].fd) && t.list == s.list + [u] && t.owner == Some(k)
    requires s.logins[k].AddAccount? && t.logins[k] == GreetNew(u)
    requires t.users[u] == s.users[u].(connected := true, name := name) && t.book.claim[s.users[u].fd] == Session(u)
    ensures SharedInv(t)
  {
    PendingUnlisted(s, u, InLogin(k));
    TakingUpdate(s.logins, k, t.logins[k]);
    AddAccountList(s, k, u, name, t);
  }

  lemma AddAccountList(s: State, k: nat, u: Ptr, name: string, t: State)
    requires ListInv(s) && SessionInv(s) && DescriptorInv(s) && Pending(s, u, InLogin(k)) && Unlisted(s, name) && CleanName(name)
    requires Touches(s, t, k, u, s.users[u].fd) && t.list == s.list + [u] && u !in s.list
    requires t.users[u] == s.users[u].(connected := true, name := name) && t.book.claim[s.users[u].fd] == Session(u)
    ensures ListInv(t) && SessionInv(t) && DescriptorInv(t)
  {
  }

  lemma GrantEffect(env: Env, s: State, k: nat, t: State)
    requires ListInv(s) && SessionInv(s) && DescriptorInv(s)
    requires k < |s.logins| && s.logins[k].Grant? && PcOk(env, s, k, s.logins[k])
    requires ThreadStep(env, s, k) == Some(t)
    ensures var Grant(u, a, _, _) := s.logins[k];
            && Touches(s, t, k, a, s.users[u].fd) && t.list == s.list
            && t.logins[k] == SendMotd(u, a) && t.users[a] == s.users[a].(connected := true, fd := s.users[u].fd)
            && t.book.claim[s.users[u].fd] == Session(a)
  {
    PendingAlone(s, s.logins[k].u, InLogin(k));
  }

  lemma GrantThreads(env: Env, s: State, k: nat, t: State)
    requires Core(env, s) && k < |s.logins| && s.logins[k].Grant? && ThreadStep(env, s, k) == Some(t)
    ensures ThreadInv(env, t)
  {
    var Grant(u, a, name, password) := s.logins[k];
    GrantEffect(env, s, k, t);
    forall j | 0 <= j < |s.logins| && j != k ensures PendingKept(s, t, j) {
      ClaimMoved(s, t, a, s.users[u].fd, j);
    }
    ThreadsMoved(env, s, k, t);
  }

  lemma GrantShared(s: State, k: nat, u: Ptr, a: Ptr, name: string, t: State)
    requires SharedInv(s) && Pending(s, u, InLogin(k)) && Offline(s, a, name)
    requires Touches(s, t, k, a, s.users[u].fd) && t.list == s.list && t.owner == Some(k)
    requires s.logins[k].Grant? && t.logins[k] == SendMotd(u, a)
    requires t.users[a] == s.users[a].(connected := true, fd := s.users[u].fd) && t.book.claim[s.users[u].fd] == Session(a)
    ensures SharedInv(t)
  {
    TakingUpdate(s.logins, k, t.logins[k]);
  }

  // ---------- the accept/select thread ----------

  lemma ServeEffect(s: State, frame: string, seconds: string, t: State)
    requires ListInv(s) && MainInv(s) && ServeStep(s, frame, seconds) == Some(t)
    ensures SameTables(s, t) && t.logins == s.logins && t.owner == s.owner && t.sem == s.sem && t.book == s.book
    ensures !t.main.Accepted? && t.main != Posting && MainInv(t) && Grown(s.out, t.out)
  {
    var fd := UserAt(s, s.main.u).fd;
    var verb := Token(Tokens(frame), 0);
    if frame != "" {
      if verb == "TIME" {
        WriteGrows(s.out, fd, [Emit(seconds)]);
      } else if verb == "LISTU" {
        WriteGrows(s.out, fd, [Utsil(ConnectedNames(View(s)))]);
      } else if verb == "BYE" {
        WriteGrows(s.out, fd, [Bye]);
      }
    }
  }

  lemma ServeKeeps(env: Env, s: State, frame: string, seconds: string, t: State)
    requires Core(env, s) && ServeStep(s, frame, seconds) == Some(t)
    ensures Core(env, t)
  {
    ServeEffect(s, frame, seconds, t);
    QuietMainStep(env, s, t);
  }

  lemma LookupKeeps(env: Env, s: State, t: State)
    requires Core(env, s) && (s.main.ByeLookup? || s.main.CrashLookup? || s.main.Posting?) && MainStep(s) == Some(t)
    ensures Core(env, t)
  {
    if s.main.ByeLookup? {
      OwnerUnique(s, s.main.u, t.main.r);
    } else if s.main.CrashLookup? {
      NameUnique(s, s.main.u, t.main.r);
    }
    QuietMainStep(env, s, t);
  }

  /** One account per descriptor. */
  lemma OwnerUnique(s: State, p: Ptr, q: Ptr)
    requires ListInv(s) && SessionInv(s) && DescriptorInv(s) && Listed(s, p) && q in s.list
    requires s.users[p].connected && UserAt(s, q).fd == s.users[p].fd
    ensures p == q
  {
  }

  /** One account per name. */
  lemma NameUnique(s: State, p: Ptr, q: Ptr)
    requires ListInv(s) && Listed(s, p) && Listed(s, q) && s.users[p].name == s.users[q].name
    ensures p == q
  {
    var i :| 0 <= i < |s.list| && s.list[i] == p;
    var j :| 0 <= j < |s.list| && s.list[j] == q;
  }

  lemma RelayGrows(s: State, t: State)
    requires s.main.RelayMsg? && MainStep(s) == Some(t)
    ensures Grown(s.out, t.out) && t == s.(main := Select, out := t.out)
  {
    var RelayMsg(fd, to, from, text) := s.main;
    if to == None || from == None || !UserAt(s, to.value).connected || !UserAt(s, from.value).connected {
      WriteGrows(s.out, fd, [Err(1)]);
    } else {
      var fd1, fd2 := UserAt(s, to.value).fd, UserAt(s, from.value).fd;
      WriteGrows(s.out, fd1, [Relay(text)]);
      WriteGrows(WriteTo(s.out, fd1, [Relay(text)]), fd2, [Relay(text)]);
    }
  }

  lemma RelayKeeps(env: Env, s: State, t: State)
    requires Core(env, s) && s.main.RelayMsg? && MainStep(s) == Some(t)
    ensures Core(env, t)
  {
    RelayGrows(s, t);
    QuietMainStep(env, s, t);
  }

  lemma CastKeeps(env: Env, s: State, t: State)
    requires Core(env, s) && (s.main.ByeCast? || s.main.CrashCast?) && MainStep(s) == Some(t)
    ensures Core(env, t)
  {
    BroadcastGrows(s, Uoff(UserAt(s, s.main.r).name));
    QuietMainStep(env, s, t);
  }

  lemma CrashCloseKeeps(env: Env, s: State, t: State)
    requires Core(env, s) && s.main.CrashClose? && Undisturbed(s, MainGo) && MainStep(s) == Some(t)
    ensures Core(env, t)
  {
    assert t.open == s.open && t.out == s.out && t.book.claim == s.book.claim;
    QuietMainStep(env, s, t);
  }

  lemma MainThreads(env: Env, s: State, t: State)
    requires ListInv(s) && ThreadInv(env, s) && t.logins == s.logins && t.owner == s.owner
    requires forall j | 0 <= j < |s.logins| :: PendingKept(s, t, j)
    requires t.list == s.list && (s.users <= t.users || s.owner == None)
    requires forall r: Ptr | r < |s.users| && s.users[r].name == "" && s.users[r].fd == -1 :: r < |t.users| && t.users[r] == s.users[r]
    ensures ThreadInv(env, t)
  {
    forall j | 0 <= j < |t.logins| ensures PcOk(env, t, j, t.logins[j]) {
      PcFrame(env, s, t, j, s.logins[j]);
    }
  }

  lemma AcceptedKeeps(env: Env, s: State, t: State)
    requires Core(env, s) && s.main.Accepted? && MainStep(s) == Some(t)
    ensures Core(env, t)
  {
    var u := s.main.u;
    forall j | 0 <= j < |s.logins| ensures PendingKept(s, t, j) {
      ClaimMoved(s, t, u, s.users[u].fd, j);
    }
    MainThreads(env, s, t);
    assert t.book.accepted == t.book.served + t.queue + [];
  }

  /** The account r goes offline and its descriptor is claimed for closing, or leaked. */
  ghost predicate Disconnected(s: State, t: State, r: Ptr) {
    && Listed(s, r) && s.users[r].fd in s.book.claim && s.users[r].fd in t.book.claim
    && t.users == s.users[r := s.users[r].(connected := false, fd := -1)] && t.list == s.list
    && t.queue == s.queue && t.sem == s.sem && t.owner == s.owner == None && t.open == s.open && t.out == s.out
    && t.logins == s.logins
    && t.book.claim == s.book.claim[s.users[r].fd := t.book.claim[s.users[r].fd]]
    && t.book.accepted == s.book.accepted && t.book.served == s.book.served && t.book.base == s.book.base
  }

  lemma DisconnectEffect(s: State, t: State)
    requires ListInv(s) && SessionInv(s) && MainInv(s)
    requires (s.main.ByeDisconnect? || s.main.CrashDisconnect?) && MainStep(s) == Some(t)
    ensures Disconnected(s, t, s.main.r) && MainInv(t) && !t.main.Accepted? && t.main != Posting
  {
  }

  lemma DisconnectThreads(env: Env, s: State, t: State, r: Ptr)
    requires Core(env, s) && Disconnected(s, t, r) && s.users[r].connected
    ensures ThreadInv(env, t)
  {
    forall j | 0 <= j < |s.logins| ensures PendingKept(s, t, j) {
      ClaimMoved(s, t, r, s.users[r].fd, j);
    }
    MainThreads(env, s, t);
  }

  lemma DisconnectShared(s: State, t: State, r: Ptr)
    requires SharedInv(s) && Disconnected(s, t, r) && s.users[r].connected && !s.main.Accepted? && s.main != Posting
    requires MainInv(t) && !t.main.Accepted? && t.main != Posting
    ensures SharedInv(t)
  {
  }

  lemma ByeCloseThreads(env: Env, s: State, t: State)
    requires Core(env, s) && s.main.ByeClose? && MainStep(s) == Some(t)
    ensures ThreadInv(env, t)
  {
    forall j | 0 <= j < |s.logins| ensures PendingKept(s, t, j) {
    }
    MainThreads(env, s, t);
  }

  lemma ByeCloseShared(s: State, t: State)
    requires SharedInv(s) && s.main.ByeClose? && MainStep(s) == Some(t)
    ensures SharedInv(t)
  {
  }

  lemma AcceptThreads(env: Env, s: State, fd: int, t: State)
    requires Core(env, s) && AcceptStep(env, s, fd) == Some(t)
    ensures ThreadInv(env, t)
  {
    forall j | 0 <= j < |t.logins| ensures PcOk(env, t, j, t.logins[j]) {
      if j < |s.logins| {
        PcFrame(env, s, t, j, s.logins[j]);
      }
    }
  }

  lemma AcceptTables(env: Env, s: State, fd: int, t: State)
    requires ListInv(s) && SessionInv(s) && DescriptorInv(s) && QueueInv(s) && AcceptStep(env, s, fd) == Some(t)
    ensures ListInv(t) && SessionInv(t) && DescriptorInv(t) && QueueInv(t)
  {
  }

  lemma AcceptShared(env: Env, s: State, fd: int, t: State)
    requires SharedInv(s) && AcceptStep(env, s, fd) == Some(t)
    requires ModeInv(env, s) && (s.owner.Some? ==> s.owner.value < |s.logins|)
    ensures SharedInv(t) && ModeInv(env, t)
  {
    TakingAppend(s.logins, Wolfie(|s.users|));
    AcceptTables(env, s, fd, t);
  }

  // ---------- what steps leave as it was ----------

  lemma SameRecords(env: Env, s: State, j: nat, t: State)
    requires j < |s.logins| && ThreadStep(env, s, j) == Some(t)
    requires !s.logins[j].AddAccount? && !s.logins[j].Grant? && !s.logins[j].Drop?
    ensures t.users == s.users && t.main == s.main
  {
    if Holds(s.logins[j]) {
      HolderSameRecords(env, s, j, t);
    }
  }

  lemma HolderSameRecords(env: Env, s: State, j: nat, t: State)
    requires j < |s.logins| && ThreadStep(env, s, j) == Some(t) && Holds(s.logins[j])
    requires !s.logins[j].AddAccount? && !s.logins[j].Grant? && !s.logins[j].Drop?
    ensures t.users == s.users && t.main == s.main
  {
  }

  /** A login thread changes no record but that of its own connection and of an account nobody is
      connected to. */
  lemma ThreadKeepsConnected(env: Env, s: State, k: nat, t: State)
    requires ListInv(s) && SessionInv(s) && DescriptorInv(s)
    requires k < |s.logins| && PcOk(env, s, k, s.logins[k]) && ThreadStep(env, s, k) == Some(t)
    ensures t.main == s.main && forall p: Ptr | p < |s.users| && s.users[p].connected :: p < |t.users| && t.users[p] == s.users[p]
    ensures forall p: Ptr | p in s.list && p < |s.users| :: p < |t.users| && t.users[p].name == s.users[p].name
  {
    if s.logins[k].AddAccount? || s.logins[k].Grant? || s.logins[k].Drop? {
      DeciderKeepsConnected(env, s, k, t);
    } else {
      SameRecords(env, s, k, t);
    }
  }

  lemma DeciderKeepsConnected(env: Env, s: State, k: nat, t: State)
    requires ListInv(s) && SessionInv(s) && DescriptorInv(s)
    requires k < |s.logins| && PcOk(env, s, k, s.logins[k]) && ThreadStep(env, s, k) == Some(t)
    requires s.logins[k].AddAccount? || s.logins[k].Grant? || s.logins[k].Drop?
    ensures t.main == s.main && forall p: Ptr | p < |s.users| && s.users[p].connected :: p < |t.users| && t.users[p] == s.users[p]
    ensures forall p: Ptr | p in s.list && p < |s.users| :: p < |t.users| && t.users[p].name == s.users[p].name
  {
    var u := s.logins[k].u;
    if s.logins[k].AddAccount? {
      AddAccountEffect(env, s, k, t);
      PendingUnlisted(s, u, InLogin(k));
      TouchedKeeps(s, t, k, u, s.users[u].fd);
    } else if s.logins[k].Grant? {
      GrantEffect(env, s, k, t);
      TouchedKeeps(s, t, k, s.logins[k].a, s.users[u].fd);
    } else {
      DropEffect(env, s, k, t);
      PendingUnlisted(s, u, InLogin(k));
      TouchedKeeps(s, t, k, u, s.users[u].fd);
    }
  }

  lemma TouchedKeeps(s: State, t: State, k: nat, x: Ptr, fd: int)
    requires Touches(s, t, k, x, fd) && !s.users[x].connected && (x in s.list ==> t.users[x].name == s.users[x].name)
    ensures t.main == s.main && forall p: Ptr | p < |s.users| && s.users[p].connected :: p < |t.users| && t.users[p] == s.users[p]
    ensures forall p: Ptr | p in s.list && p < |s.users| :: p < |t.users| && t.users[p].name == s.users[p].name
  {
  }

  lemma ReaderKeepsConnected(env: Env, s: State, k: nat, frame: string, salt: string, t: State)
    requires ListInv(s)
    requires k < |s.logins| && PcOk(env, s, k, s.logins[k]) && ReadStep(env, s, k, frame, salt) == Some(t)
    ensures t.main == s.main && forall p: Ptr | p < |s.users| && s.users[p].connected :: p < |t.users| && t.users[p] == s.users[p]
    ensures forall p: Ptr | p in s.list && p < |s.users| :: p < |t.users| && t.users[p].name == s.users[p].name
  {
  }
}

/** Each step of the login server is a step of the atomic account table, or none. */
module LoginHistory {
  import opened Wrappers
  import opened Accounts
  import opened AtomicAccounts
  import opened Text
  import opened Wire
  import opened LoginServer
  import opened LoginSafety
  import opened LoginSteps

  /** Nothing is recorded and the list of accounts reads the same. */
  ghost predicate Silent(s: State, t: State) {
    && View(t) == View(s) && t.book.base == s.book.base && t.book.history == s.book.history
    && t.book.log == s.book.log && OpenRegion(t) == OpenRegion(s)
  }

  /** One operation is recorded for who, which ends its region. */
  ghost predicate Decides(s: State, t: State, who: Who, op: Op) {
    && t.book.base == s.book.base && t.book.history == s.book.history + [Entry(who, op)]
    && t.book.log == Actors(s.book.history) + [who] && OpenRegion(t) == []
  }

  lemma SilentKeeps(env: Env, s: State, t: State)
    requires HistoryInv(env, s) && Silent(s, t)
    ensures HistoryInv(env, t)
  {
  }

  lemma DecidedKeeps(env: Env, s: State, t: State, who: Who, op: Op)
    requires HistoryInv(env, s) && Decides(s, t, who, op)
    requires Legal(env, TableOf(View(s)), op) && TableOf(View(t)) == Apply(TableOf(View(s)), op)
    ensures HistoryInv(env, t)
  {
    assert Actors(s.book.history) + [who] + [] == Actors(s.book.history) + [who];
    HistoryOne(env, s, t, Entry(who, op));
  }

  lemma RefusalKeeps(env: Env, s: State, t: State, who: Who, op: Op)
    requires HistoryInv(env, s) && Decides(s, t, who, op) && View(t) == View(s)
    requires IsRefusal(op) && Legal(env, TableOf(View(s)), op)
    ensures HistoryInv(env, t)
  {
    DecidedKeeps(env, s, t, who, op);
  }

  /** The position of a listed record. */
  lemma ListedAt(s: State, a: Ptr) returns (p: nat)
    requires ListInv(s) && Listed(s, a)
    ensures p < |s.list| && s.list[p] == a && forall i | 0 <= i < |s.list| && s.list[i] == a :: i == p
  {
    p :| 0 <= p < |s.list| && s.list[p] == a;
  }

  /** Changing one listed record changes one entry of the table. */
  lemma TableChange(s: State, t: State, a: Ptr, u: User)
    requires ListInv(s) && Listed(s, a) && u.name == s.users[a].name
    requires t.list == s.list && t.users == s.users[a := u]
    ensures TableOf(View(t)) == TableOf(View(s))[u.name := EntryOf(u)]
  {
    var p := ListedAt(s, a);
    assert View(t) == View(s)[p := u];
    TableUpdate(View(s), p, u);
  }

  lemma RegisterHistory(env: Env, s: State, k: nat, t: State)
    requires HistoryInv(env, s) && ListInv(s) && SessionInv(s) && DescriptorInv(s)
    requires k < |s.logins| && s.logins[k].AddAccount? && s.owner == Some(k) && PcOk(env, s, k, s.logins[k])
    requires ThreadStep(env, s, k) == Some(t)
    ensures HistoryInv(env, t)
  {
    var AddAccount(u, name, password) := s.logins[k];
    var op := Register(name, password, s.users[u].password, s.users[u].salt, s.users[u].fd);
    assert Decides(s, t, LoginThread(k), op);
    RegisterTable(s, k, u, name, t) by {
      AddAccountEffect(env, s, k, t);
    }
    UnlistedEntry(s, name);
    PendingAlone(s, u, InLogin(k));
    FdUnused(View(s), s.users[u].fd);
    DecidedKeeps(env, s, t, LoginThread(k), op);
  }

  lemma RegisterTable(s: State, k: nat, u: Ptr, name: string, t: State)
    requires ListInv(s) && Pending(s, u, InLogin(k)) && Unlisted(s, name)
    requires t.list == s.list + [u] && |t.users| == |s.users|
    requires t.users == s.users[u := s.users[u].(connected := true, name := name)]
    ensures TableOf(View(t)) == TableOf(View(s))[name := EntryOf(t.users[u])]
  {
    PendingUnlisted(s, u, InLogin(k));
    assert View(t) == View(s) + [t.users[u]];
    assert name !in NameSet(View(s)) by {
      UnlistedEntry(s, name);
    }
    TableAppend(View(s), t.users[u]);
  }

  lemma LoginLegal(env: Env, s: State, k: nat, u: Ptr, a: Ptr, name: string, password: string)
    requires ListInv(s) && SessionInv(s) && DescriptorInv(s)
    requires Pending(s, u, InLogin(k)) && Offline(s, a, name) && CorrectPassword(env, s.users[a], password)
    ensures Legal(env, TableOf(View(s)), Login(name, password, s.users[u].fd))
  {
    ListedEntry(s, a);
    PendingAlone(s, u, InLogin(k));
    FdUnused(View(s), s.users[u].fd);
  }

  lemma LoginApplied(s: State, t: State, a: Ptr, op: Op)
    requires ListInv(s) && Listed(s, a) && op.Login? && op.name == s.users[a].name
    requires t.list == s.list && t.users == s.users[a := s.users[a].(connected := true, fd := op.fd)]
    ensures TableOf(View(t)) == Apply(TableOf(View(s)), op)
  {
    TableChange(s, t, a, t.users[a]);
    ListedEntry(s, a);
  }

  lemma GrantDecides(env: Env, s: State, k: nat, t: State)
    requires LogInv(s) && k < |s.logins| && s.logins[k].Grant? && s.owner == Some(k) && ThreadStep(env, s, k) == Some(t)
    ensures Decides(s, t, LoginThread(k), Login(s.logins[k].name, s.logins[k].password, UserAt(s, s.logins[k].u).fd))
  {
  }

  lemma GrantHistory(env: Env, s: State, k: nat, u: Ptr, a: Ptr, name: string, password: string, t: State)
    requires HistoryInv(env, s) && ListInv(s) && SessionInv(s) && DescriptorInv(s)
    requires Pending(s, u, InLogin(k)) && Offline(s, a, name) && CorrectPassword(env, s.users[a], password)
    requires t.list == s.list && t.users == s.users[a := s.users[a].(connected := true, fd := s.users[u].fd)]
    requires Decides(s, t, LoginThread(k), Login(name, password, s.users[u].fd))
    ensures HistoryInv(env, t)
  {
    var op := Login(name, password, s.users[u].fd);
    LoginLegal(env, s, k, u, a, name, password);
    LoginApplied(s, t, a, op);
    DecidedKeeps(env, s, t, LoginThread(k), op);
  }

  lemma LogoutHistory(env: Env, s: State, t: State)
    requires HistoryInv(env, s) && ListInv(s) && SessionInv(s) && MainInv(s)
    requires (s.main.ByeDisconnect? || s.main.CrashDisconnect?) && MainStep(s) == Some(t)
    ensures HistoryInv(env, t)
  {
    var r := s.main.r;
    DisconnectEffect(s, t);
    LogoutDecides(s, t);
    LogoutApplied(env, s, t, r);
    DecidedKeeps(env, s, t, Main, Logout(s.users[r].name, s.users[r].fd));
  }

  lemma LogoutDecides(s: State, t: State)
    requires LogInv(s) && (s.main.ByeDisconnect? || s.main.CrashDisconnect?) && MainStep(s) == Some(t)
    ensures Decides(s, t, Main, Logout(UserAt(s, s.main.r).name, UserAt(s, s.main.r).fd))
  {
  }

  lemma LogoutApplied(env: Env, s: State, t: State, r: Ptr)
    requires ListInv(s) && Disconnected(s, t, r) && s.users[r].connected
    ensures var op := Logout(s.users[r].name, s.users[r].fd);
      Legal(env, TableOf(View(s)), op) && TableOf(View(t)) == Apply(TableOf(View(s)), op)
  {
    TableChange(s, t, r, t.users[r]);
    ListedEntry(s, r);
  }

  lemma DropHistory(env: Env, tbl: Table, s: State, k: nat, t: State)
    requires ListInv(s) && LogInv(s) && k < |s.logins| && s.logins[k].Drop? && PcOk(env, s, k, s.logins[k])
    requires s.logins[k].held <==> s.owner == Some(k)
    requires ThreadStep(env, s, k) == Some(t)
    ensures Refuses(env, tbl, s, t, k, Abandon)
  {
    var Drop(u, held) := s.logins[k];
    DropEffect(env, s, k, t);
    PendingUnlisted(s, u, InLogin(k));
    assert View(t) == View(s);
    DropDecides(env, s, k, t);
    assert Legal(env, tbl, Abandon);
  }

  lemma DropDecides(env: Env, s: State, k: nat, t: State)
    requires LogInv(s) && k < |s.logins| && s.logins[k].Drop? && (s.logins[k].held <==> s.owner == Some(k))
    requires ThreadStep(env, s, k) == Some(t)
    ensures Decides(s, t, LoginThread(k), Abandon)
  {
    DropRecords(env, s, k, t);
    assert s.owner == None || s.owner == Some(k);
  }

  lemma DropRecords(env: Env, s: State, k: nat, t: State)
    requires k < |s.logins| && s.logins[k].Drop? && ThreadStep(env, s, k) == Some(t)
    ensures MayLock(s, k) && t.owner == s.owner && |t.logins| == |s.logins| && t.logins[k].DropCast?
    ensures t.book.base == s.book.base && t.book.history == s.book.history + [Entry(LoginThread(k), Abandon)]
    ensures t.book.log == s.book.log + if s.logins[k].held then [] else [LoginThread(k)]
  {
  }

  /** What table t says of one name is what the account list says. */
  ghost predicate Fits(s: State, t: Table, name: string) {
    && (forall a: Ptr | Listed(s, a) && s.users[a].name == name :: name in t && t[name] == EntryOf(s.users[a]))
    && (Unlisted(s, name) ==> name !in t)
  }

  lemma TableFits(s: State, name: string)
    requires ListInv(s)
    ensures Fits(s, TableOf(View(s)), name)
  {
    forall a: Ptr | Listed(s, a) && s.users[a].name == name
      ensures name in TableOf(View(s)) && TableOf(View(s))[name] == EntryOf(s.users[a])
    {
      ListedEntry(s, a);
    }
    if Unlisted(s, name) {
      UnlistedEntry(s, name);
    }
  }

  /** A thread decides against its client, on grounds the table tbl bears out. */
  ghost predicate Refuses(env: Env, tbl: Table, s: State, t: State, k: nat, op: Op) {
    View(t) == View(s) && Decides(s, t, LoginThread(k), op) && IsRefusal(op) && Legal(env, tbl, op)
  }

  lemma RefusesKeeps(env: Env, s: State, t: State, k: nat, op: Op)
    requires HistoryInv(env, s) && (Silent(s, t) || Refuses(env, TableOf(View(s)), s, t, k, op))
    ensures HistoryInv(env, t)
  {
    if Refuses(env, TableOf(View(s)), s, t, k, op) {
      RefusalKeeps(env, s, t, LoginThread(k), op);
    }
  }

  /** Recording an outcome on the way to refuse ends the region. */
  lemma Refusing(s: State, k: nat, op: Op, t: State)
    requires LogInv(s) && k < |s.logins| == |t.logins| && s.owner == Some(k) && OpenRegion(s) == [LoginThread(k)]
    requires t.logins[k].Refuse? && t == Record(To(s, k, t.logins[k]), LoginThread(k), op)
    ensures View(t) == View(s) && Decides(s, t, LoginThread(k), op)
  {
    assert View(t) == View(s);
  }

  lemma CheckNewHistory(env: Env, tbl: Table, s: State, k: nat, t: State) returns (op: Op)
    requires ListInv(s) && LogInv(s) && k < |s.logins| && s.logins[k].CheckNew? && Fits(s, tbl, s.logins[k].name) && s.owner == Some(k) && ThreadStep(env, s, k) == Some(t)
    ensures Silent(s, t) || Refuses(env, tbl, s, t, k, op)
  {
    op := Abandon;
    var CheckNew(u, name) := s.logins[k];
    var found := Lookup(s, name);
    if found.Some? {
      Refusing(s, k, RefuseTaken(name), t);
      assert Refuses(env, tbl, s, t, k, RefuseTaken(name));
      return RefuseTaken(name);
    } else if |name| > MAX_INPUT {
      Refusing(s, k, RefuseLong(name), t);
      assert Refuses(env, tbl, s, t, k, RefuseLong(name));
      return RefuseLong(name);
    } else {
      assert View(t) == View(s);
    }
  }

  lemma CheckIamKnown(env: Env, tbl: Table, s: State, k: nat, a: Ptr, t: State) returns (op: Op)
    requires LogInv(s) && k < |s.logins| && s.logins[k].CheckIam? && s.owner == Some(k) && ThreadStep(env, s, k) == Some(t)
    requires Lookup(s, s.logins[k].name) == Some(a) && Listed(s, a)
    requires s.logins[k].name in tbl && tbl[s.logins[k].name] == EntryOf(s.users[a])
    ensures Silent(s, t) || Refuses(env, tbl, s, t, k, op)
  {
    op := Abandon;
    var CheckIam(u, name) := s.logins[k];
    if |name| > MAX_INPUT {
      Refusing(s, k, RefuseLong(name), t);
      return RefuseLong(name);
    } else if s.users[a].connected {
      Refusing(s, k, RefuseBusy(name), t);
      return RefuseBusy(name);
    }
    assert View(t) == View(s);
  }

  lemma CheckIamHistory(env: Env, tbl: Table, s: State, k: nat, t: State) returns (op: Op)
    requires ListInv(s) && LogInv(s) && k < |s.logins| && s.logins[k].CheckIam? && Fits(s, tbl, s.logins[k].name)
    requires s.owner == Some(k) && ThreadStep(env, s, k) == Some(t)
    ensures Silent(s, t) || Refuses(env, tbl, s, t, k, op)
  {
    var name := s.logins[k].name;
    var found := Lookup(s, name);
    if found == None {
      Refusing(s, k, RefuseUnknown(name), t);
      return RefuseUnknown(name);
    }
    op := CheckIamKnown(env, tbl, s, k, found.value, t);
  }

  lemma AwaitNewPassHistory(env: Env, tbl: Table, s: State, k: nat, frame: string, salt: string, t: State) returns (op: Op)
    requires ListInv(s) && LogInv(s) && k < |s.logins| && s.logins[k].AwaitNewPass? && Fits(s, tbl, s.logins[k].name) && s.owner == Some(k)
    requires PcOk(env, s, k, s.logins[k]) && ReadStep(env, s, k, frame, salt) == Some(t)
    ensures Silent(s, t) || Refuses(env, tbl, s, t, k, op)
  {
    op := Abandon;
    var AwaitNewPass(u, name) := s.logins[k];
    var ts := Tokens(frame);
    PendingUnlisted(s, u, InLogin(k));
    if t.logins[k].AddAccount? || t.logins[k].Drop? {
      assert View(t) == View(s);
    } else if !Carries(ts, "NEWPASS") {
      Refusing(s, k, RefuseNewProtocol(name), t);
      assert Refuses(env, tbl, s, t, k, RefuseNewProtocol(name));
      return RefuseNewProtocol(name);
    } else {
      Refusing(s, k, RefuseNewPassword(name, ts[1]), t);
      assert Refuses(env, tbl, s, t, k, RefuseNewPassword(name, ts[1]));
      return RefuseNewPassword(name, ts[1]);
    }
  }

  lemma AwaitPassHistory(env: Env, tbl: Table, s: State, k: nat, frame: string, salt: string, t: State) returns (op: Op)
    requires ListInv(s) && LogInv(s) && k < |s.logins| && s.logins[k].AwaitPass? && Fits(s, tbl, s.logins[k].name) && s.owner == Some(k)
    requires PcOk(env, s, k, s.logins[k]) && ReadStep(env, s, k, frame, salt) == Some(t)
    ensures Silent(s, t) || Refuses(env, tbl, s, t, k, op)
  {
    op := Abandon;
    var AwaitPass(u, a, name) := s.logins[k];
    var ts := Tokens(frame);
    if t.logins[k].Grant? || t.logins[k].Drop? {
      assert View(t) == View(s);
    } else if !Carries(ts, "PASS") {
      Refusing(s, k, RefuseProtocol(name), t);
      assert Refuses(env, tbl, s, t, k, RefuseProtocol(name));
      return RefuseProtocol(name);
    } else {
      Refusing(s, k, RefusePassword(name, ts[1]), t);
      assert Refuses(env, tbl, s, t, k, RefusePassword(name, ts[1]));
      return RefusePassword(name, ts[1]);
    }
  }

  /** Taking the mutex opens a region: it is logged, and its outcome is still to come. */
  lemma WantHistory(env: Env, s: State, k: nat, t: State)
    requires HistoryInv(env, s) && k < |s.logins| && (s.logins[k].WantNew? || s.logins[k].WantIam?) && ThreadStep(env, s, k) == Some(t)
    ensures HistoryInv(env, t)
  {
    assert View(t) == View(s);
    HistorySame(env, s, t);
  }

  predicate DecidesNothing(pc: Pc) {
    match pc
    case Idle => true
    case Got => true
    case GreetNew(_) => true
    case SendMotd(_, _) => true
    case Refuse(_, _, _) => true
    case Release(_, _) => true
    case RefuseOpen(_) => true
    case Cleanup(_) => true
    case DropCast(_, _) => true
    case _ => false
  }

  /** The remaining steps of a login thread decide nothing. */
  lemma SilentThread(env: Env, s: State, k: nat, t: State)
    requires ListInv(s) && SessionInv(s) && DescriptorInv(s)
    requires k < |s.logins| && PcOk(env, s, k, s.logins[k]) && ThreadStep(env, s, k) == Some(t)
    requires Holds(s.logins[k]) <==> s.owner == Some(k)
    requires DecidesNothing(s.logins[k])
    ensures Silent(s, t)
  {
    if s.logins[k].Refuse? || s.logins[k].Cleanup? {
      PendingAlone(s, s.logins[k].u, InLogin(k));
    }
    assert t.users == s.users && t.list == s.list;
    assert View(t) == View(s);
  }

  lemma SilentRead(env: Env, s: State, k: nat, frame: string, salt: string, t: State)
    requires k < |s.logins| && (s.logins[k].Wolfie? || s.logins[k].Iam?) && ReadStep(env, s, k, frame, salt) == Some(t)
    requires ThreadInv(env, s)
    ensures Silent(s, t)
  {
    assert View(t) == View(s);
  }

  lemma SilentMain(s: State, t: State)
    requires !s.main.ByeDisconnect? && !s.main.CrashDisconnect? && MainStep(s) == Some(t)
    ensures Silent(s, t)
  {
    assert t.users == s.users && t.list == s.list && t.logins == s.logins && t.owner == s.owner;
    assert View(t) == View(s);
  }

  lemma SilentServe(s: State, frame: string, seconds: string, t: State)
    requires ServeStep(s, frame, seconds) == Some(t)
    ensures Silent(s, t)
  {
    assert View(t) == View(s);
  }

  lemma SilentAccept(env: Env, s: State, fd: int, t: State)
    requires ListInv(s) && AcceptStep(env, s, fd) == Some(t) && (s.owner.Some? ==> s.owner.value < |s.logins|)
    ensures Silent(s, t)
  {
    assert View(t) == View(s);
  }
}

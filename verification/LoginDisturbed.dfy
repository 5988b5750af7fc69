/** What LoginServer.Undisturbed rules out can happen: handleClientCrash closes the descriptor of
    a session that is not its own, and in the end an account is lost. */
module LoginDisturbed {
  import opened Wrappers
  import opened Accounts
  import opened AtomicAccounts
  import opened Text
  import opened Framing
  import opened Wire
  import opened LoginServer
  import opened LoginClient

  // ---------- paths of any step function ----------

  /** The events lead from s to t. */
  ghost predicate Path<S(!new), E(!new)>(next: (S, E) -> Option<S>, s: S, es: seq<E>, t: S)
    decreases |es|
  {
    if es == [] then s == t else next(s, es[0]).Some? && Path(next, next(s, es[0]).value, es[1..], t)
  }

  lemma {:induction false} Join<S(!new), E(!new)>(next: (S, E) -> Option<S>, s: S, es: seq<E>, t: S, fs: seq<E>, u: S)
    requires Path(next, s, es, t) && Path(next, t, fs, u)
    ensures Path(next, s, es + fs, u)
    decreases |es|
  {
    if es == [] {
      assert es + fs == fs;
    } else {
      Join(next, next(s, es[0]).value, es[1..], t, fs, u);
      assert (es + fs)[1..] == es[1..] + fs;
    }
  }

  /** The states a path goes through. */
  lemma {:induction false} Through<S(!new), E(!new)>(next: (S, E) -> Option<S>, s: S, es: seq<E>, t: S) returns (states: seq<S>)
    requires Path(next, s, es, t)
    ensures |states| == |es| + 1 && states[0] == s && states[|es|] == t
    ensures forall i {:trigger es[i]} | 0 <= i < |es| :: next(states[i], es[i]) == Some(states[i + 1])
    decreases |es|
  {
    if es == [] {
      states := [s];
    } else {
      var rest := Through(next, next(s, es[0]).value, es[1..], t);
      states := [s] + rest;
      forall i | 0 <= i < |es| ensures next(states[i], es[i]) == Some(states[i + 1]) {
        if i > 0 {
          assert es[i] == es[1..][i - 1];
        }
      }
    }
  }

  // ---------- paths of the server ----------

  ghost function Moves(env: Env): (State, Event) -> Option<State> {
    (s, e) => if Admissible(e) then Next(env, s, e) else None
  }

  ghost predicate Reaches(env: Env, s: State, t: State) {
    exists es :: Path(Moves(env), s, es, t)
  }

  lemma Chain(env: Env, s: State, t: State, u: State)
    requires Reaches(env, s, t) && Reaches(env, t, u)
    ensures Reaches(env, s, u)
  {
    var es :| Path(Moves(env), s, es, t);
    var fs :| Path(Moves(env), t, fs, u);
    Join(Moves(env), s, es, t, fs, u);
  }

  lemma Do(env: Env, s: State, e: Event) returns (t: State)
    requires Admissible(e) && Next(env, s, e).Some?
    ensures Next(env, s, e) == Some(t) && Reaches(env, s, t)
  {
    t := Next(env, s, e).value;
    assert [e][1..] == [] && Path(Moves(env), t, [], t);
    assert Path(Moves(env), s, [e], t);
  }

  lemma ReachedByRun(env: Env, s: State, t: State) returns (states: seq<State>, events: seq<Event>)
    requires Init(env, s) && Reaches(env, s, t)
    ensures Run(env, states, events) && states[0] == s && states[|events|] == t
  {
    events :| Path(Moves(env), s, events, t);
    states := Through(Moves(env), s, events, t);
  }

  /** The salts drawn do not matter, as long as they can be. */
  const SALT := "00000000"

  /** The messages of one client. */
  datatype Script = Script(name: string, password: string, hello: string, iam: string, pass: string)

  ghost predicate Proper(m: Script) {
    && Receivable(m.hello) && Receivable(m.iam) && Receivable(m.pass)
    && Tokens(m.hello) == ["WOLFIE", TERMINATION] && m.hello != "" && m.iam != "" && m.pass != ""
    && Carries(Tokens(m.iam), "IAM") && Tokens(m.iam)[1] == m.name
    && Carries(Tokens(m.pass), "PASS") && Tokens(m.pass)[1] == m.password
    && |m.name| <= MAX_INPUT
  }

  /** One account, the given threads and place of the accept/select thread; outputs and records
      do not matter. */
  ghost predicate Scene(s: State, users: seq<User>, main: MainPc, logins: seq<Pc>, owner: Option<nat>, open: set<int>) {
    s.users == users && s.list == [0] && s.main == main && s.logins == logins && s.owner == owner && s.open == open
  }

  lemma Connect(env: Env, s: State, fd: int, m: Script, users: seq<User>, logins: seq<Pc>, open: set<int>) returns (t: State)
    requires !env.pool && Proper(m) && fd >= 0 && fd !in open && Scene(s, users, Select, logins, None, open)
    ensures Reaches(env, s, t)
    ensures Scene(t, users + [NO_USER.(fd := fd)], Select, logins + [Iam(|users|)], None, open + {fd})
  {
    var s1 := Do(env, s, Accept(fd));
    assert s1.logins[|logins|] == Wolfie(|users|);
    t := Do(env, s1, ThreadRead(|logins|, m.hello, SALT));
    Chain(env, s, s1, t);
  }

  lemma Ask(env: Env, s: State, k: nat, u: Ptr, m: Script, users: seq<User>, logins: seq<Pc>, open: set<int>) returns (t: State)
    requires Proper(m) && k < |logins| && logins[k] == Iam(u) && Scene(s, users, Select, logins, None, open)
    ensures Reaches(env, s, t) && Scene(t, users, Select, logins[k := WantIam(u, m.name)], None, open)
  {
    t := Do(env, s, ThreadRead(k, m.iam, SALT));
  }

  lemma Recognise(env: Env, s: State, k: nat, u: Ptr, m: Script, users: seq<User>, main: MainPc, logins: seq<Pc>, open: set<int>) returns (t: State)
    requires Proper(m) && k < |logins| && logins[k] == WantIam(u, m.name) && Scene(s, users, main, logins, None, open)
    requires |users| > 0 && users[0].name == m.name && !users[0].connected
    ensures Reaches(env, s, t) && Scene(t, users, main, logins[k := AwaitPass(u, 0, m.name)], Some(k), open)
  {
    var s1 := Do(env, s, ThreadGo(k));
    assert Scene(s1, users, main, logins[k := CheckIam(u, m.name)], Some(k), open);
    assert View(s1)[0] == users[0];
    t := Do(env, s1, ThreadGo(k));
    Chain(env, s, s1, t);
  }

  lemma SendPassword(env: Env, s: State, k: nat, u: Ptr, m: Script, users: seq<User>, main: MainPc, logins: seq<Pc>, open: set<int>) returns (t: State)
    requires Proper(m) && k < |logins| && logins[k] == AwaitPass(u, 0, m.name) && Scene(s, users, main, logins, Some(k), open)
    requires |users| > 0 && CorrectPassword(env, users[0], m.password)
    ensures Reaches(env, s, t) && Scene(t, users, main, logins[k := Grant(u, 0, m.name, m.password)], Some(k), open)
  {
    t := Do(env, s, ThreadRead(k, m.pass, SALT));
  }

  lemma Admit(env: Env, s: State, k: nat, u: Ptr, m: Script, users: seq<User>, main: MainPc, logins: seq<Pc>, open: set<int>) returns (t: State)
    requires k < |logins| && logins[k] == Grant(u, 0, m.name, m.password) && Scene(s, users, main, logins, Some(k), open)
    requires 0 < u < |users| && users[0].fd != users[u].fd
    ensures Reaches(env, s, t)
    ensures Scene(t, users[0 := users[0].(connected := true, fd := users[u].fd)], main, logins[k := SendMotd(u, 0)], Some(k), open)
  {
    assert View(s)[0] == users[0];
    t := Do(env, s, ThreadGo(k));
  }

  /** From the lock to the moment the account is connected. */
  lemma LogIn(env: Env, s: State, k: nat, u: Ptr, m: Script, users: seq<User>, main: MainPc, logins: seq<Pc>, open: set<int>) returns (t: State)
    requires Proper(m) && k < |logins| && logins[k] == WantIam(u, m.name) && Scene(s, users, main, logins, None, open)
    requires 0 < u < |users| && users[0].name == m.name && !users[0].connected && users[0].fd != users[u].fd
    requires CorrectPassword(env, users[0], m.password)
    ensures Reaches(env, s, t)
    ensures Scene(t, users[0 := users[0].(connected := true, fd := users[u].fd)], main, logins[k := SendMotd(u, 0)], Some(k), open)
  {
    var s1 := Recognise(env, s, k, u, m, users, main, logins, open);
    var s2 := SendPassword(env, s1, k, u, m, users, main, logins[k := AwaitPass(u, 0, m.name)], open);
    t := Admit(env, s2, k, u, m, users, main, logins[k := Grant(u, 0, m.name, m.password)], open);
    Chain(env, s, s1, s2);
    Chain(env, s, s2, t);
  }

  lemma Finish(env: Env, s: State, k: nat, u: Ptr, users: seq<User>, main: MainPc, logins: seq<Pc>, open: set<int>) returns (t: State)
    requires !env.pool && k < |logins| && logins[k] == SendMotd(u, 0) && Scene(s, users, main, logins, Some(k), open)
    ensures Reaches(env, s, t) && Scene(t, users, main, logins[k := Exited(false)], None, open)
  {
    var s1 := Do(env, s, ThreadGo(k));
    assert s1.logins[k] == Release(u, true);
    t := Do(env, s1, ThreadGo(k));
    Chain(env, s, s1, t);
  }

  lemma ReadEnd(env: Env, s: State, users: seq<User>, logins: seq<Pc>, open: set<int>) returns (t: State)
    requires |users| > 0 && users[0].connected && users[0].fd >= 0 && Scene(s, users, Select, logins, None, open)
    ensures Reaches(env, s, t) && Scene(t, users, CrashLookup(0), logins, None, open)
  {
    assert View(s)[0] == users[0];
    var s1 := Do(env, s, Readable(users[0].fd));
    assert Scene(s1, users, Command(0), logins, None, open);
    assert Unterminated("0");
    t := Do(env, s1, ServeRead("", "0"));
    Chain(env, s, s1, t);
  }

  lemma FindAccount(env: Env, s: State, users: seq<User>, logins: seq<Pc>, open: set<int>) returns (t: State)
    requires |users| > 0 && Scene(s, users, CrashLookup(0), logins, None, open)
    ensures Reaches(env, s, t) && Scene(t, users, CrashDisconnect(0), logins, None, open)
  {
    assert View(s)[0] == users[0];
    t := Do(env, s, MainGo);
  }

  lemma TakeOffline(env: Env, s: State, users: seq<User>, logins: seq<Pc>, open: set<int>) returns (t: State)
    requires |users| > 0 && Scene(s, users, CrashDisconnect(0), logins, None, open)
    ensures Reaches(env, s, t)
    ensures Scene(t, users[0 := users[0].(connected := false, fd := -1)], CrashClose(0), logins, None, open)
  {
    t := Do(env, s, MainGo);
  }

  /** The connected client vanishes; its account is taken offline, its descriptor not yet closed. */
  lemma Vanish(env: Env, s: State, users: seq<User>, logins: seq<Pc>, open: set<int>) returns (t: State)
    requires |users| > 0 && users[0].connected && users[0].fd >= 0 && Scene(s, users, Select, logins, None, open)
    ensures Reaches(env, s, t)
    ensures Scene(t, users[0 := users[0].(connected := false, fd := -1)], CrashClose(0), logins, None, open)
  {
    var s1 := ReadEnd(env, s, users, logins, open);
    var s2 := FindAccount(env, s1, users, logins, open);
    t := TakeOffline(env, s2, users, logins, open);
    Chain(env, s, s1, s2);
    Chain(env, s, s2, t);
  }

  /** The crash handler goes on with the record as it is now: connected on another descriptor. */
  lemma CloseAnother(env: Env, s: State, users: seq<User>, logins: seq<Pc>, owner: Option<nat>, open: set<int>) returns (t: State)
    requires |users| > 0 && Scene(s, users, CrashClose(0), logins, owner, open)
    ensures Reaches(env, s, t) && Scene(t, users, CrashCast(0), logins, owner, open - {users[0].fd})
  {
    t := Do(env, s, MainGo);
  }

  lemma TellOthers(env: Env, s: State, users: seq<User>, logins: seq<Pc>, open: set<int>) returns (t: State)
    requires |users| > 0 && Scene(s, users, CrashCast(0), logins, None, open)
    ensures Reaches(env, s, t) && Scene(t, users, Select, logins, None, open)
  {
    t := Do(env, s, MainGo);
  }

  lemma SayHelloAgain(env: Env, s: State, k: nat, u: Ptr, m: Script, users: seq<User>, logins: seq<Pc>, open: set<int>) returns (t: State)
    requires Proper(m) && k < |logins| && logins[k] == Iam(u) && Scene(s, users, Select, logins, None, open)
    ensures Reaches(env, s, t) && Scene(t, users, Select, logins[k := RefuseOpen(u)], None, open)
  {
    t := Do(env, s, ThreadRead(k, m.hello, SALT));
  }

  lemma BeRefused(env: Env, s: State, k: nat, u: Ptr, users: seq<User>, logins: seq<Pc>, open: set<int>) returns (t: State)
    requires k < |logins| && logins[k] == RefuseOpen(u) && Scene(s, users, Select, logins, None, open)
    ensures Reaches(env, s, t) && Scene(t, users, Select, logins[k := Cleanup(u)], None, open)
  {
    t := Do(env, s, ThreadGo(k));
  }

  /** The end of a refused login on the account's descriptor removes the account. */
  lemma Remove(env: Env, s: State, k: nat, u: Ptr, users: seq<User>, logins: seq<Pc>, open: set<int>) returns (t: State)
    requires k < |logins| && logins[k] == Cleanup(u) && Scene(s, users, Select, logins, None, open)
    requires 0 < u < |users| && users[u].fd == users[0].fd
    ensures Reaches(env, s, t) && t.list == []
  {
    assert View(s)[0] == users[0];
    t := Do(env, s, ThreadGo(k));
  }

  // ---------- the whole run ----------

  lemma FirstLogin(env: Env, s: State, m: Script, a: User) returns (t: State)
    requires !env.pool && Proper(m) && Scene(s, [a], Select, [], None, {})
    requires a.name == m.name && !a.connected && a.fd == -1 && CorrectPassword(env, a, m.password)
    ensures Reaches(env, s, t)
    ensures Scene(t, [a.(connected := true, fd := 5), NO_USER.(fd := 5)], Select, [Exited(false)], None, {5})
  {
    var u1 := NO_USER.(fd := 5);
    var s1 := Connect(env, s, 5, m, [a], [], {});
    var s2 := Ask(env, s1, 0, 1, m, [a, u1], [Iam(1)], {5});
    var s3 := LogIn(env, s2, 0, 1, m, [a, u1], Select, [WantIam(1, m.name)], {5});
    t := Finish(env, s3, 0, 1, [a.(connected := true, fd := 5), u1], Select, [SendMotd(1, 0)], {5});
    Chain(env, s, s1, s2);
    Chain(env, s, s2, s3);
    Chain(env, s, s3, t);
  }

  /** Come back on 6, and vanish from 5 just before the second login is granted. */
  lemma Overtake(env: Env, s: State, m: Script, a: User) returns (t: State)
    requires !env.pool && Proper(m) && a.name == m.name && a.connected && a.fd == 5 && CorrectPassword(env, a, m.password)
    requires Scene(s, [a, NO_USER.(fd := 5)], Select, [Exited(false)], None, {5})
    ensures Reaches(env, s, t)
    ensures Scene(t, [a.(fd := 6), NO_USER.(fd := 5), NO_USER.(fd := 6)], CrashCast(0), [Exited(false), SendMotd(2, 0)], Some(1), {5})
  {
    var offline := a.(connected := false, fd := -1);
    var u1, u2 := NO_USER.(fd := 5), NO_USER.(fd := 6);
    var s1 := Connect(env, s, 6, m, [a, u1], [Exited(false)], {5});
    var s2 := Ask(env, s1, 1, 2, m, [a, u1, u2], [Exited(false), Iam(2)], {5, 6});
    var s3 := Vanish(env, s2, [a, u1, u2], [Exited(false), WantIam(2, m.name)], {5, 6});
    var s4 := LogIn(env, s3, 1, 2, m, [offline, u1, u2], CrashClose(0), [Exited(false), WantIam(2, m.name)], {5, 6});
    t := CloseAnother(env, s4, [a.(fd := 6), u1, u2], [Exited(false), SendMotd(2, 0)], Some(1), {5, 6});
    Chain(env, s, s1, s2);
    Chain(env, s, s2, s3);
    Chain(env, s, s3, s4);
    Chain(env, s, s4, t);
  }

  /** A third connection gets the closed descriptor, fails to log in, and takes the account along. */
  lemma Overwrite(env: Env, s: State, m: Script, a: User) returns (t: State)
    requires !env.pool && Proper(m) && a.fd == 6
    requires Scene(s, [a, NO_USER.(fd := 5), NO_USER.(fd := 6)], CrashCast(0), [Exited(false), SendMotd(2, 0)], Some(1), {5})
    ensures Reaches(env, s, t) && t.list == []
  {
    var users := [a, NO_USER.(fd := 5), NO_USER.(fd := 6)];
    var done := [Exited(false), Exited(false)];
    var s1 := Finish(env, s, 1, 2, users, CrashCast(0), [Exited(false), SendMotd(2, 0)], {5});
    var s2 := TellOthers(env, s1, users, done, {5});
    var s3 := Connect(env, s2, 6, m, users, done, {5});
    var s4 := SayHelloAgain(env, s3, 2, 3, m, users + [NO_USER.(fd := 6)], done + [Iam(3)], {5, 6});
    var s5 := BeRefused(env, s4, 2, 3, users + [NO_USER.(fd := 6)], done + [RefuseOpen(3)], {5, 6});
    t := Remove(env, s5, 2, 3, users + [NO_USER.(fd := 6)], done + [Cleanup(3)], {5, 6});
    Chain(env, s, s1, s2);
    Chain(env, s, s2, s3);
    Chain(env, s, s3, s4);
    Chain(env, s, s4, s5);
    Chain(env, s, s5, t);
  }

  lemma OneField(verb: string, field: string)
    requires IsWord(verb) && Unterminated(verb) && |verb| <= 7 && CleanName(field) && |field| <= 99
    ensures var msg := Message([verb, field]); Receivable(msg) && msg != "" && Tokens(msg) == [verb, field, TERMINATION]
  {
    FieldTokens(verb, field);
    TokensOfWord(field);
    ClosedEndsOnce([verb, field]);
    MessageLength(verb, field);
  }

  lemma Write(name: string, password: string) returns (m: Script)
    requires CleanName(name) && CleanName(password) && |name| <= 99 && |password| <= 99
    ensures Proper(m) && m.name == name && m.password == password
  {
    m := Script(name, password, Message(["WOLFIE"]), Message(["IAM", name]), Message(["PASS", password]));
    HelloRead();
    NextFrameEndsOnce(m.hello);
    ClientVerbs(false);
    OneField("IAM", name);
    OneField("PASS", password);
  }

  /** Without the condition of LoginTheorems, accounts can be lost: for any account and the right
      password there is a run from a server that has this account to one that does not. */
  lemma AccountLost(env: Env, name: string, password: string, salt: string) returns (states: seq<State>, events: seq<Event>)
    requires !env.pool && CleanName(name) && CleanName(password) && |name| <= 99 && |password| <= 99 && |salt| <= 99
    ensures Run(env, states, events)
    ensures TableOf(View(states[0])) == map[name := Acct(env.hash(password + salt), salt, None)]
    ensures name !in TableOf(View(states[|events|]))
  {
    var a := User(false, name, -1, env.hash(password + salt), salt);
    var s := State([a], [0], [], 0, None, {}, map[], Select, [], Book(map[], [], [], [], [], TableOf([a])));
    var m := Write(name, password);
    var s1 := FirstLogin(env, s, m, a);
    var s2 := Overtake(env, s1, m, a.(connected := true, fd := 5));
    var u := Overwrite(env, s2, m, a.(connected := true, fd := 6));
    Chain(env, s, s1, s2);
    Chain(env, s, s2, u);
    states, events := ReachedByRun(env, s, u);
    assert View(s) == [a];
    assert View(u) == [];
    OneAccount(a);
  }

  lemma OneAccount(a: User)
    ensures TableOf([a]) == map[a.name := EntryOf(a)]
  {
    TableLists([a]);
    assert [a][0] == a;
  }
}

/** The account table as one indivisible object: what the server would be if every login,
    registration and logout happened in one step. */
module AtomicAccounts {
  import opened Wrappers
  import opened Accounts
  import opened Text

  datatype Acct = Acct(password: string, salt: string, session: Option<int>)

  type Table = map<string, Acct>

  /** What one locked region does to the table, and on what grounds. */
  datatype Op =
    | Register(name: string, password: string, hash: string, salt: string, fd: int)
    | Login(name: string, password: string, fd: int)
    | Logout(name: string, fd: int)
    | RefuseTaken(name: string)                       // IAMNEW, ERR 00
    | RefuseNewPassword(name: string, password: string) // NEWPASS, ERR 02
    | RefuseNewProtocol(name: string)                 // no NEWPASS, ERR 100
    | RefuseUnknown(name: string)                     // IAM, ERR 01
    | RefuseBusy(name: string)                        // IAM, ERR 00
    | RefusePassword(name: string, password: string)  // PASS, ERR 02
    | RefuseProtocol(name: string)                    // no PASS, ERR 100
    | RefuseLong(name: string)                        // name over the buffer, ERR 100
    | Abandon                                         // the peer vanished

  ghost predicate Unused(t: Table, fd: int) {
    forall n <- t :: t[n].session != Some(fd)
  }

  /** The password fits the buffer with the account's salt and hashes to what is stored. */
  predicate Accepts(env: Env, a: Acct, password: string) {
    |password| + |a.salt| <= MAX_INPUT && env.hash(password + a.salt) == a.password
  }

  ghost predicate Legal(env: Env, t: Table, op: Op) {
    match op
    case Register(n, pw, hash, salt, fd) => n !in t && env.valid(pw) && |pw| + |salt| <= MAX_INPUT && hash == env.hash(pw + salt) && Unused(t, fd)
    case Login(n, pw, fd) => n in t && t[n].session == None && Accepts(env, t[n], pw) && Unused(t, fd)
    case Logout(n, fd) => n in t && t[n].session == Some(fd)
    case RefuseTaken(n) => n in t
    case RefuseNewPassword(n, pw) => n !in t && !env.valid(pw)
    case RefuseNewProtocol(n) => n !in t
    case RefuseUnknown(n) => n !in t
    case RefuseBusy(n) => n in t && t[n].session.Some?
    case RefusePassword(n, pw) => n in t && t[n].session == None && !Accepts(env, t[n], pw)
    case RefuseProtocol(n) => n in t && t[n].session == None
    case RefuseLong(n) => |n| > MAX_INPUT
    case Abandon => true
  }

  function Apply(t: Table, op: Op): Table {
    match op
    case Register(n, _, hash, salt, fd) => t[n := Acct(hash, salt, Some(fd))]
    case Login(n, _, fd) => if n in t then t[n := t[n].(session := Some(fd))] else t
    case Logout(n, _) => if n in t then t[n := t[n].(session := None)] else t
    case _ => t
  }

  /** The operations that leave the table alone. */
  predicate IsRefusal(op: Op) {
    !op.Register? && !op.Login? && !op.Logout?
  }

  /** Who performs a region: the accept/select thread or a login thread. */
  datatype Who = Main | LoginThread(k: nat)

  datatype Entry = Entry(who: Who, op: Op)

  /** The table after a sequence of operations, if each was legal when its turn came. */
  ghost function Replay(env: Env, base: Table, h: seq<Entry>): Option<Table> {
    if h == [] then Some(base)
    else match Replay(env, base, h[..|h| - 1])
      case None => None
      case Some(t) => if Legal(env, t, h[|h| - 1].op) then Some(Apply(t, h[|h| - 1].op)) else None
  }

  lemma ReplaySnoc(env: Env, base: Table, h: seq<Entry>, e: Entry)
    ensures Replay(env, base, h + [e]) ==
      match Replay(env, base, h)
      case None => None
      case Some(t) => if Legal(env, t, e.op) then Some(Apply(t, e.op)) else None
  {
    assert (h + [e])[..|h|] == h;
  }

  lemma {:induction false} ReplayPrefix(env: Env, base: Table, h: seq<Entry>, i: nat)
    requires i <= |h| && Replay(env, base, h).Some?
    ensures Replay(env, base, h[..i]).Some?
    decreases |h|
  {
    if i < |h| {
      ReplayPrefix(env, base, h[..|h| - 1], i);
      assert h[..|h| - 1][..i] == h[..i];
    } else {
      assert h[..i] == h;
    }
  }

  /** No name is ever dropped, and its password and salt never change. */
  lemma {:induction false} CredentialsPermanent(env: Env, base: Table, h: seq<Entry>, i: nat, name: string)
    requires i <= |h| && Replay(env, base, h).Some? && Replay(env, base, h[..i]).Some?
    requires name in Replay(env, base, h[..i]).value
    ensures var t, u := Replay(env, base, h[..i]).value, Replay(env, base, h).value;
            name in u && u[name].password == t[name].password && u[name].salt == t[name].salt
    decreases |h|
  {
    if i < |h| {
      assert h[..|h| - 1][..i] == h[..i];
      CredentialsPermanent(env, base, h[..|h| - 1], i, name);
    } else {
      assert h[..i] == h;
    }
  }

  /** One session per descriptor at any time. */
  ghost predicate OneOwner(t: Table) {
    forall m, n | m in t && n in t && t[m].session.Some? && t[m].session == t[n].session :: m == n
  }

  lemma {:induction false} SessionsDistinct(env: Env, base: Table, h: seq<Entry>)
    requires OneOwner(base) && Replay(env, base, h).Some?
    ensures OneOwner(Replay(env, base, h).value)
  {
    if h != [] {
      SessionsDistinct(env, base, h[..|h| - 1]);
    }
  }

  /** Every recorded operation was legal on the table left by those before it. */
  lemma EntryLegal(env: Env, base: Table, h: seq<Entry>, i: nat)
    requires i < |h| && Replay(env, base, h).Some?
    ensures Replay(env, base, h[..i]).Some? && Legal(env, Replay(env, base, h[..i]).value, h[i].op)
    ensures Replay(env, base, h[..i + 1]) == Some(Apply(Replay(env, base, h[..i]).value, h[i].op))
  {
    ReplayPrefix(env, base, h, i);
    ReplayPrefix(env, base, h, i + 1);
    assert h[..i + 1] == h[..i] + [h[i]];
    ReplaySnoc(env, base, h[..i], h[i]);
  }

  /** The password an account was registered with is never refused later. */
  lemma RegisteredPasswordHolds(env: Env, base: Table, h: seq<Entry>, i: nat, j: nat)
    requires i < j < |h| && Replay(env, base, h).Some?
    requires h[i].op.Register? && h[j].op.RefusePassword?
    requires h[i].op.name == h[j].op.name
    ensures h[i].op.password != h[j].op.password
  {
    EntryLegal(env, base, h, i);
    EntryLegal(env, base, h, j);
    var g := h[..j];
    assert g[..i + 1] == h[..i + 1];
    CredentialsPermanent(env, base, g, i + 1, h[i].op.name);
  }

  /** Nobody gets in without the password: each login to a registered name was with one that hashes
      like the registered one. */
  lemma LoginProved(env: Env, base: Table, h: seq<Entry>, i: nat, j: nat)
    requires i < j < |h| && Replay(env, base, h).Some?
    requires h[i].op.Register? && h[j].op.Login? && h[i].op.name == h[j].op.name
    ensures env.hash(h[j].op.password + h[i].op.salt) == env.hash(h[i].op.password + h[i].op.salt)
  {
    EntryLegal(env, base, h, i);
    EntryLegal(env, base, h, j);
    var g := h[..j];
    assert g[..i + 1] == h[..i + 1];
    CredentialsPermanent(env, base, g, i + 1, h[i].op.name);
  }

  // ---------- the table a list of user records stands for ----------

  function EntryOf(u: User): Acct {
    Acct(u.password, u.salt, if u.connected then Some(u.fd) else None)
  }

  ghost predicate DistinctNames(s: seq<User>) {
    forall i, j | 0 <= i < j < |s| :: s[i].name != s[j].name
  }

  function NameSet(s: seq<User>): set<string> {
    set i | 0 <= i < |s| :: s[i].name
  }

  function TableOf(s: seq<User>): (t: Table) {
    map n | n in NameSet(s) :: EntryOf(s[FindByName(s, n).value])
  }

  /** t lists exactly the users of s. */
  ghost predicate Lists(t: Table, s: seq<User>) {
    && (forall i | 0 <= i < |s| :: s[i].name in t && t[s[i].name] == EntryOf(s[i]))
    && (forall n | n in t :: n in NameSet(s))
  }

  lemma TableLists(s: seq<User>)
    requires DistinctNames(s)
    ensures Lists(TableOf(s), s)
  {
    forall i | 0 <= i < |s| ensures s[i].name in TableOf(s) && TableOf(s)[s[i].name] == EntryOf(s[i]) {
      assert FindByName(s, s[i].name) == Some(i);
    }
  }

  lemma ListsUnique(t: Table, s: seq<User>)
    requires Lists(t, s)
    ensures t == TableOf(s)
  {
    var u := TableOf(s);
    forall n | n in NameSet(s) ensures n in t && t[n] == u[n] {
      assert s[FindByName(s, n).value].name == n;
    }
    assert t.Keys == u.Keys;
  }

  /** Appending a user with a new name adds its entry. */
  lemma TableAppend(s: seq<User>, u: User)
    requires DistinctNames(s) && u.name !in NameSet(s)
    ensures TableOf(s + [u]) == TableOf(s)[u.name := EntryOf(u)]
  {
    var v := s + [u];
    var t := TableOf(s)[u.name := EntryOf(u)];
    TableLists(s);
    assert Lists(t, v) by {
      assert v[|s|] == u;
      forall i | 0 <= i < |v| ensures v[i].name in t && t[v[i].name] == EntryOf(v[i]) {
        assert i < |s| ==> v[i] == s[i] && s[i].name in NameSet(s);
      }
      forall n | n in t ensures n in NameSet(v) {
        if n != u.name {
          var i :| 0 <= i < |s| && s[i].name == n;
          assert v[i].name == n;
        } else {
          assert v[|s|].name == n;
        }
      }
    }
    ListsUnique(t, v);
  }

  /** Changing a record without renaming it changes just its entry. */
  lemma TableUpdate(s: seq<User>, p: nat, u: User)
    requires DistinctNames(s) && p < |s| && s[p].name == u.name
    ensures TableOf(s[p := u]) == TableOf(s)[u.name := EntryOf(u)]
  {
    var v := s[p := u];
    var t := TableOf(s)[u.name := EntryOf(u)];
    TableLists(s);
    assert Lists(t, v) by {
      forall i | 0 <= i < |v| ensures v[i].name in t && t[v[i].name] == EntryOf(v[i]) {
        assert i != p ==> v[i] == s[i] && s[i].name != s[p].name;
      }
      SameNames(s, p, u);
    }
    ListsUnique(t, v);
  }

  lemma SameNames(s: seq<User>, p: nat, u: User)
    requires p < |s| && s[p].name == u.name
    ensures NameSet(s[p := u]) == NameSet(s)
  {
    var v := s[p := u];
    assert forall i | 0 <= i < |s| :: v[i].name == s[i].name;
    forall n ensures n in NameSet(v) <==> n in NameSet(s) {
      if n in NameSet(s) {
        var i :| 0 <= i < |s| && s[i].name == n;
        assert v[i].name == n;
      }
      if n in NameSet(v) {
        var i :| 0 <= i < |v| && v[i].name == n;
        assert s[i].name == n;
      }
    }
  }
}

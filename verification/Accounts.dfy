/** User records, the account list and its operations (server.c), first on values, then on
    the linked nodes themselves. */
module Accounts {
  import opened Wrappers
  import opened Sequences
  import opened Text

  /** struct user, without the address, thread id and time, which no decision depends on. */
  datatype User = User(connected: bool, name: string, fd: int, password: string, salt: string)

  /** The environment the server runs in: pool or thread-per-client mode, the salted hash
      and the password rule, which stay uninterpreted. */
  datatype Env = Env(pool: bool, hash: string -> string, valid: string -> bool)

  /** The length of the salt generateSalt leaves: seven overlapping writes, then a NUL. */
  const SALT_LENGTH := 8

  /** storePassword and correctPassword, as far as the record is concerned. */
  function StorePassword(env: Env, u: User, password: string, salt: string): User {
    if env.valid(password) then u.(password := env.hash(password + salt), salt := salt) else u
  }

  predicate CorrectPassword(env: Env, u: User, password: string) {
    |password| <= MAX_INPUT - |u.salt| && u.password == env.hash(password + u.salt)
  }

  /** Against a stored password exactly those attempts are right that fit the buffer with its salt
      and hash alike with it; a password that breaks the rule is not stored. */
  lemma PasswordDecision(env: Env, u: User, password: string, salt: string, attempt: string)
    ensures var stored := StorePassword(env, u, password, salt);
      if env.valid(password) then
        CorrectPassword(env, stored, attempt) <==>
          |attempt| + |salt| <= MAX_INPUT && env.hash(attempt + salt) == env.hash(password + salt)
      else stored == u
  {
  }

  /** A stored password is accepted again exactly when it fits the buffer with its salt. */
  lemma StoredPasswordAccepted(env: Env, u: User, password: string, salt: string)
    requires env.valid(password)
    ensures CorrectPassword(env, StorePassword(env, u, password, salt), password) <==> |password| + |salt| <= MAX_INPUT
  {
  }

  function FindByName(s: seq<User>, name: string): (r: Option<nat>)
    ensures r.Some? ==> r.value < |s| && s[r.value].name == name && forall i | 0 <= i < r.value :: s[i].name != name
    ensures r.None? ==> forall i | 0 <= i < |s| :: s[i].name != name
  {
    FindFirst(s, (u: User) => u.name == name)
  }

  function FindByFd(s: seq<User>, fd: int): (r: Option<nat>)
    ensures r.Some? ==> r.value < |s| && s[r.value].fd == fd && forall i | 0 <= i < r.value :: s[i].fd != fd
    ensures r.None? ==> forall i | 0 <= i < |s| :: s[i].fd != fd
  {
    FindFirst(s, (u: User) => u.fd == fd)
  }

  lemma FirstFd(s: seq<User>, fd: int, i: nat)
    requires i < |s| && s[i].fd == fd && forall j | 0 <= j < i :: s[j].fd != fd
    ensures FindByFd(s, fd) == Some(i)
  {
    var r := FindByFd(s, fd);
    assert r.Some? ==> !(r.value < i) && !(i < r.value);
  }

  /** The list without the element a search found, if it found one. */
  function Without<A>(s: seq<A>, at: Option<nat>): seq<A>
    requires at.Some? ==> at.value < |s|
  {
    match at
    case None => s
    case Some(i) => RemoveAt(s, i)
  }

  /** Where a broadcast is written, in list order. */
  function ConnectedFds(s: seq<User>): (r: seq<int>)
    ensures forall i | 0 <= i < |s| && s[i].connected && s[i].fd != -1 :: s[i].fd in r
    ensures forall fd <- r :: exists i | 0 <= i < |s| :: s[i].connected && s[i].fd == fd && fd != -1
  {
    if s == [] then []
    else
      var rest := ConnectedFds(s[1..]);
      assert forall i | 1 <= i < |s| :: s[i] == s[1..][i - 1];
      assert forall fd <- rest :: exists i | 0 <= i < |s[1..]| :: s[1..][i].connected && s[1..][i].fd == fd && fd != -1 && s[i + 1] == s[1..][i];
      (if s[0].connected && s[0].fd != -1 then [s[0].fd] else []) + rest
  }

  /** The names a LISTU reply carries, in list order. */
  function ConnectedNames(s: seq<User>): seq<string> {
    if s == [] then [] else (if s[0].connected then [s[0].name] else []) + ConnectedNames(s[1..])
  }

  lemma {:induction false} ConnectedFdsSnoc(s: seq<User>, u: User)
    ensures ConnectedFds(s + [u]) == ConnectedFds(s) + if u.connected && u.fd != -1 then [u.fd] else []
  {
    if s == [] {
      assert s + [u] == [u];
    } else {
      assert (s + [u])[1..] == s[1..] + [u];
      ConnectedFdsSnoc(s[1..], u);
    }
  }

  lemma {:induction false} ConnectedNamesSnoc(s: seq<User>, u: User)
    ensures ConnectedNames(s + [u]) == ConnectedNames(s) + if u.connected then [u.name] else []
  {
    if s == [] {
      assert s + [u] == [u];
    } else {
      assert (s + [u])[1..] == s[1..] + [u];
      ConnectedNamesSnoc(s[1..], u);
    }
  }

  /** A LISTU reply names every connected account, each once, in list order, and nobody else. */
  lemma {:induction false} ConnectedNamesExact(s: seq<User>)
    ensures PickedFrom(s, (u: User) => u.connected, (u: User) => u.name, ConnectedNames(s))
  {
    if s != [] {
      var n := |s| - 1;
      var p, f := (u: User) => u.connected, (u: User) => u.name;
      ConnectedNamesExact(s[..n]);
      ConnectedNamesSnoc(s[..n], s[n]);
      assert s == s[..n] + [s[n]];
      PickedOneMore(s[..n], p, f, ConnectedNames(s[..n]), s[n]);
    }
  }

  /** A broadcast goes to every connected account, once to each, in list order, and to nobody else. */
  lemma {:induction false} ConnectedFdsExact(s: seq<User>)
    ensures PickedFrom(s, (u: User) => u.connected && u.fd != -1, (u: User) => u.fd, ConnectedFds(s))
  {
    if s != [] {
      var n := |s| - 1;
      var p, f := (u: User) => u.connected && u.fd != -1, (u: User) => u.fd;
      ConnectedFdsExact(s[..n]);
      ConnectedFdsSnoc(s[..n], s[n]);
      assert s == s[..n] + [s[n]];
      PickedOneMore(s[..n], p, f, ConnectedFds(s[..n]), s[n]);
    }
  }

  // ---------- the linked list ----------

  class UserNode {
    var user: User
    var next: UserNode?

    constructor (user: User)
      ensures this.user == user && next == null
    {
      this.user, next := user, null;
    }
  }

  /** ms is ns without its first element whose user has that descriptor, which is r; or there is
      no such user, and r is null. */
  ghost predicate RemovedFirst(ns: seq<UserNode>, ms: seq<UserNode>, us: seq<User>, fd: int, r: UserNode?) {
    |us| == |ns| &&
    if r == null then ms == ns && forall i | 0 <= i < |us| :: us[i].fd != fd
    else exists i | 0 <= i < |ns| ::
      ns[i] == r && us[i].fd == fd && (forall j | 0 <= j < i :: us[j].fd != fd) && ms == ns[..i] + ns[i + 1..]
  }

  /** This is the removal of what a search finds. */
  lemma RemovesFirst(ns: seq<UserNode>, ms: seq<UserNode>, us: seq<User>, fd: int, r: UserNode?)
    requires |us| == |ns|
    ensures RemovedFirst(ns, ms, us, fd, r) <==>
      ms == Without(ns, FindByFd(us, fd)) && r == match FindByFd(us, fd) case None => null case Some(i) => ns[i]
  {
    if r != null && RemovedFirst(ns, ms, us, fd, r) {
      var i :| 0 <= i < |ns| && ns[i] == r && us[i].fd == fd && (forall j | 0 <= j < i :: us[j].fd != fd) && ms == ns[..i] + ns[i + 1..];
      FirstFd(us, fd, i);
    }
  }

  class AccountList {
    var head: UserNode?
    /** The nodes in list order. */
    ghost var nodes: seq<UserNode>

    ghost predicate Valid()
      reads this, nodes
    {
      && (forall i, j | 0 <= i < j < |nodes| :: nodes[i] != nodes[j])
      && (nodes == [] <==> head == null)
      && (nodes != [] ==> head == nodes[0] && nodes[|nodes| - 1].next == null)
      && (forall i | 0 <= i < |nodes| - 1 :: nodes[i].next == nodes[i + 1])
    }

    ghost function Users(): (s: seq<User>)
      reads this, nodes
      ensures |s| == |nodes| && forall i | 0 <= i < |s| :: s[i] == nodes[i].user
    {
      seq(|nodes|, i requires 0 <= i < |nodes| reads this, nodes => nodes[i].user)
    }

    /** The node a search result stands for. */
    ghost function NodeAt(at: Option<nat>): UserNode?
      reads this
      requires at.Some? ==> at.value < |nodes|
    {
      if at.Some? then nodes[at.value] else null
    }

    constructor ()
      ensures Valid() && nodes == []
    {
      head, nodes := null, [];
    }

    method AddUserList(user: UserNode)
      requires Valid() && user !in nodes && user.next == null
      modifies this, nodes
      ensures Valid() && nodes == old(nodes) + [user] && Users() == old(Users()) + [old(user.user)]
    {
      var curr := head;
      if curr == null {
        head := user;
      } else {
        ghost var i := 0;
        while curr.next != null
          invariant 0 <= i < |nodes| && curr == nodes[i]
          invariant curr.next == if i < |nodes| - 1 then nodes[i + 1] else null
          decreases |nodes| - i
        {
          curr := curr.next;
          i := i + 1;
        }
        curr.next := user;
      }
      nodes := nodes + [user];
    }

    method GetUser(name: string) returns (r: UserNode?)
      requires Valid()
      ensures r == NodeAt(FindByName(Users(), name))
      ensures r == null ==> forall n <- nodes :: n.user.name != name
      ensures r != null ==> exists i | 0 <= i < |nodes| :: nodes[i] == r && r.user.name == name && forall j | 0 <= j < i :: nodes[j].user.name != name
    {
      r := head;
      ghost var i := 0;
      while r != null
        invariant 0 <= i <= |nodes| && r == if i < |nodes| then nodes[i] else null
        invariant forall j | 0 <= j < i :: Users()[j].name != name
        decreases |nodes| - i
      {
        if r.user.name == name {
          return;
        }
        r := r.next;
        i := i + 1;
      }
    }

    method GetUserByFD(fd: int) returns (r: UserNode?)
      requires Valid()
      ensures r == NodeAt(FindByFd(Users(), fd))
      ensures r == null ==> forall n <- nodes :: n.user.fd != fd
      ensures r != null ==> exists i | 0 <= i < |nodes| :: nodes[i] == r && r.user.fd == fd && forall j | 0 <= j < i :: nodes[j].user.fd != fd
    {
      r := head;
      ghost var i := 0;
      while r != null
        invariant 0 <= i <= |nodes| && r == if i < |nodes| then nodes[i] else null
        invariant forall j | 0 <= j < i :: Users()[j].fd != fd
        decreases |nodes| - i
      {
        if r.user.fd == fd {
          return;
        }
        r := r.next;
        i := i + 1;
      }
    }

    /** head = head->next */
    method UnlinkHead()
      requires Valid() && head != null
      modifies this
      ensures Valid() && nodes == Without(old(nodes), Some(0))
    {
      assert |nodes| > 1 ==> nodes[0].next == nodes[1];
      assert nodes[..0] + nodes[1..] == nodes[1..];
      head := head.next;
      nodes := nodes[1..];
    }

    /** curr->next = curr->next->next */
    method Unlink(curr: UserNode, ghost i: nat)
      requires Valid() && i + 1 < |nodes| && curr == nodes[i]
      modifies this`nodes, curr`next
      ensures Valid() && nodes == Without(old(nodes), Some(i + 1))
    {
      assert curr.next == nodes[i + 1];
      assert i + 2 < |nodes| ==> nodes[i + 1].next == nodes[i + 2];
      curr.next := curr.next.next;
      nodes := nodes[..i + 1] + nodes[i + 2..];
    }

    /** The search of removeUserListByFD: the node before the one to be removed, or null. */
    method NodeBefore(fd: int) returns (curr: UserNode?)
      requires Valid() && head != null && head.user.fd != fd
      ensures match FindByFd(Users(), fd)
              case None => curr == null
              case Some(at) => at > 0 && curr == nodes[at - 1]
    {
      ghost var users, i := Users(), 0;
      curr := head;
      while curr.next != null
        invariant 0 <= i < |nodes| && curr == nodes[i]
        invariant curr.next == if i < |nodes| - 1 then nodes[i + 1] else null
        invariant forall j | 0 <= j <= i :: users[j].fd != fd
        decreases |nodes| - i
      {
        if curr.next.user.fd == fd {
          FirstFd(users, fd, i + 1);
          return;
        }
        curr := curr.next;
        i := i + 1;
      }
      curr := null;
    }

    method RemoveHead(fd: int) returns (r: UserNode?)
      requires Valid() && head != null && head.user.fd == fd
      modifies this
      ensures Valid() && RemovedFirst(old(nodes), nodes, old(Users()), fd, r)
    {
      ghost var was, users := nodes, Users();
      FirstFd(users, fd, 0);
      r := head;
      UnlinkHead();
      RemovesFirst(was, nodes, users, fd, r);
    }

    method RemoveInner(fd: int) returns (r: UserNode?)
      requires Valid() && head != null && head.user.fd != fd
      modifies this`nodes, nodes
      ensures Valid() && RemovedFirst(old(nodes), nodes, old(Users()), fd, r)
      ensures forall n <- old(nodes) :: n.user == old(n.user)
    {
      ghost var was, users := nodes, Users();
      ghost var at := FindByFd(users, fd);
      r := null;
      var curr := NodeBefore(fd);
      if curr != null {
        assert curr.next == nodes[at.value];
        r := curr.next;
        Unlink(curr, at.value - 1);
      }
      RemovesFirst(was, nodes, users, fd, r);
    }

    /** The removed node keeps its stale link; the caller frees it. */
    method RemoveUserListByFD(fd: int) returns (r: UserNode?)
      requires Valid()
      modifies this, nodes
      ensures Valid() && RemovedFirst(old(nodes), nodes, old(Users()), fd, r)
      ensures forall n <- old(nodes) :: n.user == old(n.user)
    {
      if head == null {
        return null;
      }
      if head.user.fd == fd {
        r := RemoveHead(fd);
      } else {
        r := RemoveInner(fd);
      }
    }

    /** The descriptors broadcastToUsers writes to. */
    method Broadcast() returns (written: seq<int>)
      requires Valid()
      ensures written == ConnectedFds(Users())
    {
      written := [];
      var curr := head;
      ghost var i := 0;
      while curr != null
        invariant 0 <= i <= |nodes| && curr == if i < |nodes| then nodes[i] else null
        invariant written == ConnectedFds(Users()[..i])
        decreases |nodes| - i
      {
        assert Users()[..i + 1] == Users()[..i] + [curr.user];
        ConnectedFdsSnoc(Users()[..i], curr.user);
        if curr.user.connected && curr.user.fd != -1 {
          written := written + [curr.user.fd];
        }
        curr := curr.next;
        i := i + 1;
      }
      assert Users()[..i] == Users();
    }

    /** The names the LISTU reply lists. */
    method ListNames() returns (names: seq<string>)
      requires Valid()
      ensures names == ConnectedNames(Users())
    {
      names := [];
      var curr := head;
      ghost var i := 0;
      while curr != null
        invariant 0 <= i <= |nodes| && curr == if i < |nodes| then nodes[i] else null
        invariant names == ConnectedNames(Users()[..i])
        decreases |nodes| - i
      {
        assert Users()[..i + 1] == Users()[..i] + [curr.user];
        ConnectedNamesSnoc(Users()[..i], curr.user);
        if curr.user.connected {
          names := names + [curr.user.name];
        }
        curr := curr.next;
        i := i + 1;
      }
      assert Users()[..i] == Users();
    }
  }
}

/** The audit log's linked lists (parser.c): the log itself, linked forward only, and the result
    lists, linked both ways and ended by a blank node. */
module AuditList {
  import opened Audit

  class Node {
    var record: Record
    var next: Node?
    var prev: Node?

    constructor (r: Record)
      ensures record == r && next == null && prev == null
    {
      record, next, prev := r, null, null;
    }
  }

  function Records(ns: seq<Node>): seq<Record>
    reads ns
  {
    seq(|ns|, i requires 0 <= i < |ns| reads ns => ns[i].record)
  }

  ghost predicate Distinct(ns: seq<Node>) {
    forall i, j | 0 <= i < j < |ns| :: ns[i] != ns[j]
  }

  /** ns is a well-formed doubly linked list: next and prev undo each other, nothing precedes the
      head and nothing follows the last node. */
  ghost predicate Linked(ns: seq<Node>)
    reads ns
  {
    && ns != [] && Distinct(ns)
    && ns[0].prev == null && ns[|ns| - 1].next == null
    && forall i | 0 <= i < |ns| - 1 :: ns[i].next == ns[i + 1] && ns[i + 1].prev == ns[i]
  }

  lemma Neighbours(ns: seq<Node>, i: nat)
    requires Linked(ns) && i < |ns|
    ensures ns[i].prev == if i == 0 then null else ns[i - 1]
    ensures i > 0 ==> ns[i - 1].next == ns[i]
    ensures ns[i].next == if i == |ns| - 1 then null else ns[i + 1]
  {
  }

  /** The walk of insertSorted. */
  method Walk(o: Order, a: Record, head: Node, ghost ns: seq<Node>) returns (temp: Node)
    requires Linked(ns) && head == ns[0]
    ensures temp == ns[Place(o, Records(ns), a)]
  {
    temp := head;
    ghost var i := 0;
    while Passes(o, a, temp.record)
      invariant 0 <= i < |ns| && temp == ns[i]
      invariant forall j | 0 <= j < i :: Passes(o, a, ns[j].record)
      decreases |ns| - i
    {
      Neighbours(ns, i);
      if temp.next == null {
        break;
      }
      temp := temp.next;
      i := i + 1;
    }
    assert temp.record == Records(ns)[i];
    PlaceIs(o, Records(ns), a, i);
  }

  lemma {:induction false} PlaceIs(o: Order, s: seq<Record>, a: Record, i: nat)
    requires i < |s| && (i < |s| - 1 ==> !Passes(o, a, s[i])) && forall j | 0 <= j < i :: Passes(o, a, s[j])
    ensures Place(o, s, a) == i
    decreases i
  {
    if i > 0 {
      PlaceIs(o, s[1..], a, i - 1);
    }
  }

  /** Hooks copy in before the node temp, which is ns[i]. */
  method LinkBefore(copy: Node, temp: Node, ghost ns: seq<Node>, ghost i: nat) returns (ghost ms: seq<Node>)
    requires Linked(ns) && i < |ns| && temp == ns[i] && copy !in ns && copy.prev == null
    modifies ns, copy
    ensures ms == ns[..i] + [copy] + ns[i..] && Linked(ms)
    ensures temp.prev == copy && forall n <- ms :: n.record == old(n.record)
  {
    Neighbours(ns, i);
    copy.next := temp;
    if temp.prev != null {
      temp.prev.next := copy;
      copy.prev := temp.prev;
    }
    temp.prev := copy;
    ms := ns[..i] + [copy] + ns[i..];
  }

  method InsertSorted(o: Order, returnHead: Node, insert: Node, ghost ns: seq<Node>) returns (head: Node, ghost ms: seq<Node>)
    requires Linked(ns) && returnHead == ns[0] && insert !in ns
    modifies ns
    ensures Linked(ms) && head == ms[0]
    ensures Records(ms) == Inserted(o, old(Records(ns)), insert.record)
    ensures forall i | 0 <= i < |ms| :: ms[i] in ns || fresh(ms[i])
  {
    var copy := new Node(insert.record);
    if copy.record.name == "" {
      return returnHead, ns;
    }
    head := returnHead;
    var temp := Walk(o, copy.record, head, ns);
    ghost var was := Records(ns);
    ghost var i := Place(o, was, copy.record);
    assert temp == returnHead <==> i == 0;
    ms := LinkBefore(copy, temp, ns, i);
    if temp == returnHead {
      head := temp.prev;
    }
    Spliced(was, Records(ms), i, copy.record);
  }

  lemma Spliced(s: seq<Record>, t: seq<Record>, i: nat, a: Record)
    requires i <= |s| && |t| == |s| + 1 && t[i] == a
    requires forall j | 0 <= j < |t| && j != i :: t[j] == s[if j < i then j else j - 1]
    ensures t == s[..i] + [a] + s[i..]
  {
  }

  /** The globals of parser.c: the log as it was read, linked forward only. */
  class Log {
    var auditHead: Node?
    ghost var nodes: seq<Node>

    ghost predicate Valid()
      reads this, nodes
    {
      && Distinct(nodes)
      && auditHead == (if nodes == [] then null else nodes[0])
      && (nodes != [] ==> nodes[|nodes| - 1].next == null)
      && forall i | 0 <= i < |nodes| - 1 :: nodes[i].next == nodes[i + 1]
    }

    ghost function Contents(): seq<Record>
      reads this, nodes
    {
      Records(nodes)
    }

    constructor ()
      ensures Valid() && Contents() == []
    {
      auditHead, nodes := null, [];
    }

    method InsertIntoAudit(newAudit: Node)
      requires Valid() && newAudit !in nodes && newAudit.next == null
      modifies this, nodes
      ensures Valid() && nodes == old(nodes) + [newAudit]
      ensures Contents() == old(Contents()) + [newAudit.record]
    {
      nodes := nodes + [newAudit];
      if auditHead == null {
        auditHead := newAudit;
        return;
      }
      var auditTemp := auditHead;
      ghost var was := old(nodes);
      ghost var i := 0;
      while auditTemp.next != null
        invariant 0 <= i < |was| && auditTemp == was[i]
        invariant auditTemp.next == if i == |was| - 1 then null else was[i + 1]
        decreases |was| - i
      {
        auditTemp := auditTemp.next;
        i := i + 1;
      }
      auditTemp.next := newAudit;
    }

    method SortBy(o: Order) returns (returnHead: Node, ghost ms: seq<Node>)
      requires Valid()
      ensures Linked(ms) && returnHead == ms[0] && fresh(ms)
      ensures Records(ms) == Sorting(o, Contents())
      ensures Finds(Contents(), (a: Record) => true, Records(ms)) && SortedWhen(o, Contents(), Records(ms))
    {
      returnHead := new Node(BLANK);
      ms := [returnHead];
      var auditTemp := auditHead;
      ghost var i, log := 0, Contents();
      while auditTemp != null
        invariant 0 <= i <= |nodes| && auditTemp == (if i == |nodes| then null else nodes[i])
        invariant Linked(ms) && returnHead == ms[0] && forall j | 0 <= j < |ms| :: fresh(ms[j])
        invariant Records(ms) == Sorting(o, log[..i])
        decreases |nodes| - i
      {
        SortStep(o, log, i);
        returnHead, ms := InsertSorted(o, returnHead, auditTemp, ms);
        auditTemp := auditTemp.next;
        i := i + 1;
      }
      assert log[..i] == log;
      SortingFindsAll(o, log);
      SortingSorts(o, log);
    }

    /** The loop that filterBy, searchByKeyword and filterByTimeRange have in common. */
    method Query(o: Order, p: Record -> bool) returns (returnHead: Node, ghost ms: seq<Node>)
      requires Valid()
      ensures Linked(ms) && returnHead == ms[0] && fresh(ms)
      ensures Records(ms) == Sorting(o, Select(Contents(), p))
      ensures Finds(Contents(), p, Records(ms)) && SortedWhen(o, Contents(), Records(ms))
    {
      returnHead := new Node(BLANK);
      ms := [returnHead];
      var auditTemp := auditHead;
      ghost var i, log, found := 0, Contents(), [];
      while auditTemp != null
        invariant 0 <= i <= |nodes| && auditTemp == (if i == |nodes| then null else nodes[i])
        invariant Linked(ms) && returnHead == ms[0] && forall j | 0 <= j < |ms| :: fresh(ms[j])
        invariant found == Select(log[..i], p) && Records(ms) == Sorting(o, found)
        decreases |nodes| - i
      {
        QueryStep(o, log, i, p);
        if p(auditTemp.record) {
          found := found + [auditTemp.record];
          returnHead, ms := InsertSorted(o, returnHead, auditTemp, ms);
        }
        auditTemp := auditTemp.next;
        i := i + 1;
      }
      assert log[..i] == log;
      SortingFinds(o, log, p);
      OrderlySelection(o, log, p);
    }

    method FilterBy(clock: Clock, column: int, filter: string) returns (returnHead: Node, ghost ms: seq<Node>)
      requires Valid()
      ensures Linked(ms) && returnHead == ms[0] && fresh(ms)
      ensures Records(ms) == Sorting(Order(clock, column, true), Select(Contents(), ByFilter(column, filter)))
      ensures Finds(Contents(), ByFilter(column, filter), Records(ms)) && SortedWhen(Order(clock, column, true), Contents(), Records(ms))
    {
      returnHead, ms := Query(Order(clock, column, true), ByFilter(column, filter));
    }

    method SearchByKeyword(clock: Clock, filter: string) returns (returnHead: Node, ghost ms: seq<Node>)
      requires Valid()
      ensures Linked(ms) && returnHead == ms[0] && fresh(ms)
      ensures Records(ms) == Sorting(Order(clock, 0, true), Select(Contents(), ByKeyword(filter)))
      ensures Finds(Contents(), ByKeyword(filter), Records(ms)) && SortedWhen(Order(clock, 0, true), Contents(), Records(ms))
    {
      returnHead, ms := Query(Order(clock, 0, true), ByKeyword(filter));
    }

    method FilterByTimeRange(clock: Clock, startTime: string, endTime: string) returns (returnHead: Node, ghost ms: seq<Node>)
      requires Valid()
      ensures Linked(ms) && returnHead == ms[0] && fresh(ms)
      ensures Records(ms) == Sorting(Order(clock, 0, true), Select(Contents(), ByTimeRange(clock, startTime, endTime)))
      ensures Finds(Contents(), ByTimeRange(clock, startTime, endTime), Records(ms)) && SortedWhen(Order(clock, 0, true), Contents(), Records(ms))
    {
      returnHead, ms := Query(Order(clock, 0, true), ByTimeRange(clock, startTime, endTime));
    }
  }

  lemma SortStep(o: Order, log: seq<Record>, i: nat)
    requires i < |log|
    ensures Sorting(o, log[..i + 1]) == Inserted(o, Sorting(o, log[..i]), log[i])
  {
    SortingSnoc(o, log[..i], log[i]);
    assert log[..i + 1] == log[..i] + [log[i]];
  }

  /** A record that is let through is inserted into what was found before; another changes nothing. */
  lemma QueryStep(o: Order, log: seq<Record>, i: nat, p: Record -> bool)
    requires i < |log|
    ensures var found := Select(log[..i], p);
      if p(log[i]) then Select(log[..i + 1], p) == found + [log[i]] && Sorting(o, found + [log[i]]) == Inserted(o, Sorting(o, found), log[i])
      else Select(log[..i + 1], p) == found
  {
    SelectNext(log, i, p);
    SortingSnoc(o, Select(log[..i], p), log[i]);
  }

  /** Selecting from one more record. */
  lemma SelectNext(s: seq<Record>, i: nat, p: Record -> bool)
    requires i < |s|
    ensures var front := Select(s[..i], p); Select(s[..i + 1], p) == if p(s[i]) then front + [s[i]] else front
  {
    SelectLast(s[..i + 1], p);
    assert s[..i + 1][..i] == s[..i];
  }
}

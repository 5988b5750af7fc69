/** The login queue of server.c as it lies in memory: doubly linked nodes, entered at the
    head and left at the tail. */
module LoginQueue {
  import opened Wrappers
  import opened Sequences

  class QueueNode<T> {
    var user: T
    var prev: QueueNode?<T>
    var next: QueueNode?<T>

    constructor (user: T)
      ensures this.user == user && prev == null && next == null
    {
      this.user, prev, next := user, null, null;
    }
  }

  class Queue<T> {
    var head: QueueNode?<T>
    var tail: QueueNode?<T>
    /** The nodes in the order they will leave, tail first. */
    ghost var line: seq<QueueNode<T>>

    ghost predicate Valid()
      reads this, line
    {
      && (forall i, j | 0 <= i < j < |line| :: line[i] != line[j])
      && (line == [] <==> head == null) && (line == [] <==> tail == null)
      && (line != [] ==> tail == line[0] && head == line[|line| - 1])
      && (line != [] ==> tail.next == null && head.prev == null)
      && (forall i | 0 <= i < |line| - 1 :: line[i].prev == line[i + 1])
      && (forall i | 0 < i < |line| :: line[i].next == line[i - 1])
    }

    /** The waiting users, first to leave first. */
    ghost function Contents(): (s: seq<T>)
      reads this, line
      ensures |s| == |line|
    {
      seq(|line|, i requires 0 <= i < |line| reads this, line => line[i].user)
    }

    constructor ()
      ensures Valid() && Contents() == [] && line == []
    {
      head, tail, line := null, null, [];
    }

    method Add(add: T)
      requires Valid()
      modifies this, line
      ensures Valid() && Contents() == old(Contents()) + [add]
      ensures forall n <- line :: n in old(line) || fresh(n)
    {
      var temp := new QueueNode(add);
      if tail == null && head == null {
        tail, head := temp, temp;
      } else {
        temp.next := head;
        head.prev := temp;
        head := temp;
      }
      line := line + [temp];
      assert |line| > 1 ==> line[|line| - 2] == old(head);
    }

    /** None stands for the NULL an empty queue yields. */
    method Pop() returns (r: Option<T>)
      requires Valid()
      modifies this, line
      ensures Valid()
      ensures old(Contents()) == [] ==> r == None && Contents() == []
      ensures old(Contents()) != [] ==> r == Some(old(Contents())[0]) && Contents() == old(Contents())[1..]
      ensures line == if old(line) == [] then [] else old(line)[1..]
    {
      var holder := tail;
      r := None;
      if holder != null {
        tail := tail.prev;
        assert |line| > 1 ==> line[0].prev == line[1];
        if holder.prev == null {
          head := null;
        } else {
          tail.next := null;
        }
        r := Some(holder.user);
        line := line[1..];
      }
    }

    /** Up to k nodes met going from n towards the head. */
    ghost function PrevWalk(n: QueueNode?<T>, k: nat): seq<QueueNode<T>>
      reads line, this
    {
      if n == null || k == 0 || n !in line then [] else [n] + PrevWalk(n.prev, k - 1)
    }

    /** Up to k nodes met going from n towards the tail. */
    ghost function NextWalk(n: QueueNode?<T>, k: nat): seq<QueueNode<T>>
      reads line, this
    {
      if n == null || k == 0 || n !in line then [] else [n] + NextWalk(n.next, k - 1)
    }

    lemma {:induction false} PrevWalkFrom(i: nat, k: nat)
      requires Valid() && i < |line| && k >= |line| - i
      ensures PrevWalk(line[i], k) == line[i..]
      decreases |line| - i
    {
      if i + 1 < |line| {
        assert line[i].prev == line[i + 1];
        PrevWalkFrom(i + 1, k - 1);
      }
    }

    lemma {:induction false} NextWalkFrom(i: nat, k: nat)
      requires Valid() && i < |line| && k > i
      ensures NextWalk(line[i], k) == Reversed(line[..i + 1])
      decreases i
    {
      if i > 0 {
        assert line[i].next == line[i - 1];
        NextWalkFrom(i - 1, k - 1);
        assert Reversed(line[..i + 1]) == [line[i]] + Reversed(line[..i]);
      } else {
        assert Reversed(line[..1]) == [line[0]];
      }
    }

    /** However far one walks, the way from the head along next is the way from the tail
        along prev, backwards, and both meet every node. */
    lemma WalksMirror(k: nat)
      requires Valid() && k >= |line|
      ensures PrevWalk(tail, k) == line && NextWalk(head, k) == Reversed(PrevWalk(tail, k))
    {
      if line != [] {
        PrevWalkFrom(0, k);
        NextWalkFrom(|line| - 1, k);
        assert line[..|line|] == line && line[0..] == line;
      }
    }
  }
}

/** The audit log's records, their order and the queries on them (parser.c), on values. */
module Audit {
  import opened Sequences
  import opened Text

  datatype Record = Record(time: string, name: string, cmd: string, info: string)

  /** The calloc'ed node every result list ends in. */
  const BLANK := Record("", "", "", "")

  /** parseTime, left uninterpreted. */
  type Clock = string -> int

  /** strcmp: negative, zero or positive. */
  function StrCmp(a: string, b: string): int {
    if a == "" then (if b == "" then 0 else -1)
    else if b == "" then 1
    else if a[0] != b[0] then a[0] as int - b[0] as int
    else StrCmp(a[1..], b[1..])
  }

  /** compare: by time it is never negative, and a node without time is never passed. */
  function Compare(clock: Clock, column: int, a: Record, b: Record): int {
    if column == 0 then (if clock(a.time) > clock(b.time) && b.time != "" then 1 else 0)
    else if column == 1 then StrCmp(a.name, b.name)
    else if column == 2 then StrCmp(a.cmd, b.cmd)
    else if column == 3 then StrCmp(a.info, b.info)
    else 0
  }

  /** How a list is to be arranged. */
  datatype Order = Order(clock: Clock, column: int, ascending: bool)

  /** The insertion walk goes past b to place a. */
  predicate Passes(o: Order, a: Record, b: Record) {
    if o.ascending then Compare(o.clock, o.column, a, b) > 0 else Compare(o.clock, o.column, a, b) < 0
  }

  /** Where the insertion walk ends: at the first node it does not pass, at the last node in any case. */
  function Place(o: Order, s: seq<Record>, a: Record): (i: nat)
    requires s != []
    ensures i < |s| && (i < |s| - 1 ==> !Passes(o, a, s[i]))
    ensures forall j | 0 <= j < i :: Passes(o, a, s[j])
  {
    if |s| > 1 && Passes(o, a, s[0]) then 1 + Place(o, s[1..], a) else 0
  }

  /** insertSorted on the values of a list. */
  function Inserted(o: Order, s: seq<Record>, a: Record): seq<Record>
    requires s != []
  {
    if a.name == "" then s else s[..Place(o, s, a)] + [a] + s[Place(o, s, a)..]
  }

  /** What sortBy builds, and each query from the records it lets through. */
  function Sorting(o: Order, log: seq<Record>): (s: seq<Record>)
    ensures s != []
  {
    if log == [] then [BLANK] else Inserted(o, Sorting(o, log[..|log| - 1]), log[|log| - 1])
  }

  lemma SortingSnoc(o: Order, log: seq<Record>, a: Record)
    ensures Sorting(o, log + [a]) == Inserted(o, Sorting(o, log), a)
  {
    assert (log + [a])[..|log|] == log;
  }

  // ---------- conditions of the queries ----------

  predicate CheckFilter(column: int, filter: string, a: Record) {
    && (column == 0 ==> Contains(a.time, filter))
    && (column == 1 ==> Contains(a.name, filter))
    && (column == 2 ==> Contains(a.cmd, filter))
    && (column == 3 ==> Contains(a.info, filter))
  }

  predicate CheckKeyword(filter: string, a: Record) {
    Contains(a.time, filter) || Contains(a.name, filter) || Contains(a.cmd, filter) || Contains(a.info, filter)
  }

  predicate CheckTimeRange(clock: Clock, start: string, end: string, a: Record) {
    clock(a.time) <= clock(end) && clock(start) <= clock(a.time)
  }

  function ByFilter(column: int, filter: string): Record -> bool {
    a => CheckFilter(column, filter, a)
  }

  function ByKeyword(filter: string): Record -> bool {
    a => CheckKeyword(filter, a)
  }

  function ByTimeRange(clock: Clock, start: string, end: string): Record -> bool {
    a => CheckTimeRange(clock, start, end, a)
  }

  function Select<T>(s: seq<T>, p: T -> bool): seq<T> {
    if s == [] then [] else (if p(s[0]) then [s[0]] else []) + Select(s[1..], p)
  }

  predicate HasName(a: Record) {
    a.name != ""
  }

  /** The records a sort considers. */
  function Counted(log: seq<Record>): seq<Record> {
    Select(log, HasName)
  }

  lemma {:induction false} SelectSplit<T>(s: seq<T>, t: seq<T>, p: T -> bool)
    ensures Select(s + t, p) == Select(s, p) + Select(t, p)
  {
    if s == [] {
      assert s + t == t;
    } else {
      var first := if p(s[0]) then [s[0]] else [];
      assert (s + t)[1..] == s[1..] + t;
      SelectSplit(s[1..], t, p);
      assert first + (Select(s[1..], p) + Select(t, p)) == (first + Select(s[1..], p)) + Select(t, p);
    }
  }

  lemma SelectLast<T>(s: seq<T>, p: T -> bool)
    requires s != []
    ensures var front, last := Select(s[..|s| - 1], p), s[|s| - 1];
            Select(s, p) == if p(last) then front + [last] else front
  {
    SelectSplit(s[..|s| - 1], [s[|s| - 1]], p);
    assert s == s[..|s| - 1] + [s[|s| - 1]];
  }

  lemma {:induction false} SelectSwap<T>(s: seq<T>, p: T -> bool, q: T -> bool)
    ensures Select(Select(s, p), q) == Select(Select(s, q), p)
  {
    if s != [] {
      SelectSplit(if p(s[0]) then [s[0]] else [], Select(s[1..], p), q);
      SelectSplit(if q(s[0]) then [s[0]] else [], Select(s[1..], q), p);
      SelectSwap(s[1..], p, q);
    }
  }

  lemma {:induction false} SelectFrom<T>(s: seq<T>, p: T -> bool)
    ensures forall x <- Select(s, p) :: x in s && p(x)
  {
    if s != [] {
      SelectFrom(s[1..], p);
    }
  }

  lemma {:induction false} SelectExact<T(!new)>(s: seq<T>, p: T -> bool)
    ensures PickedFrom(s, p, (x: T) => x, Select(s, p))
  {
    if s != [] {
      var n := |s| - 1;
      SelectExact(s[..n], p);
      SelectLast(s, p);
      assert s == s[..n] + [s[n]];
      PickedOneMore(s[..n], p, (x: T) => x, Select(s[..n], p), s[n]);
    }
  }

  lemma {:induction false} SelectMultiset<T>(s: seq<T>, p: T -> bool, x: T)
    ensures multiset(Select(s, p))[x] == if p(x) then multiset(s)[x] else 0
  {
    if s != [] {
      var n := |s| - 1;
      SelectMultiset(s[..n], p, x);
      SelectLast(s, p);
      assert s == s[..n] + [s[n]];
    }
  }

  // ---------- arranging without the blank node ----------

  /** The first position whose record is not passed, or the end. */
  function Spot(o: Order, s: seq<Record>, a: Record): (i: nat)
    ensures i <= |s| && (i < |s| ==> !Passes(o, a, s[i]))
    ensures forall j | 0 <= j < i :: Passes(o, a, s[j])
  {
    if s != [] && Passes(o, a, s[0]) then 1 + Spot(o, s[1..], a) else 0
  }

  function Put(o: Order, s: seq<Record>, a: Record): seq<Record> {
    s[..Spot(o, s, a)] + [a] + s[Spot(o, s, a)..]
  }

  function Arranged(o: Order, l: seq<Record>): seq<Record> {
    if l == [] then [] else Put(o, Arranged(o, l[..|l| - 1]), l[|l| - 1])
  }

  lemma PutPermutes(o: Order, s: seq<Record>, a: Record)
    ensures multiset(Put(o, s, a)) == multiset(s) + multiset{a}
  {
    assert s == s[..Spot(o, s, a)] + s[Spot(o, s, a)..];
  }

  lemma {:induction false} ArrangedPermutes(o: Order, l: seq<Record>)
    ensures multiset(Arranged(o, l)) == multiset(l)
  {
    if l != [] {
      var n := |l| - 1;
      ArrangedPermutes(o, l[..n]);
      PutPermutes(o, Arranged(o, l[..n]), l[n]);
      assert l == l[..n] + [l[n]];
    }
  }

  /** What is arranged was in the log, and the other way round. */
  lemma ArrangedSame(o: Order, l: seq<Record>, a: Record)
    ensures a in Arranged(o, l) <==> a in l
  {
    ArrangedPermutes(o, l);
    assert a in Arranged(o, l) <==> a in multiset(Arranged(o, l));
  }

  lemma SpotIs(o: Order, s: seq<Record>, a: Record, i: nat)
    requires i <= |s| && (i < |s| ==> !Passes(o, a, s[i])) && forall j | 0 <= j < i :: Passes(o, a, s[j])
    ensures Spot(o, s, a) == i
  {
    var k := Spot(o, s, a);
    assert !(k < i) && !(i < k);
  }

  /** The walk may stop before the last node, passed or not, because that node is the blank one. */
  lemma InsertBeforeBlank(o: Order, s: seq<Record>, a: Record)
    requires a.name != ""
    ensures Inserted(o, s + [BLANK], a) == Put(o, s, a) + [BLANK]
  {
    var i := Place(o, s + [BLANK], a);
    forall j | 0 <= j < i ensures Passes(o, a, s[j]) {
      assert s[j] == (s + [BLANK])[j];
    }
    SpotIs(o, s, a, i);
    assert (s + [BLANK])[..i] == s[..i] && (s + [BLANK])[i..] == s[i..] + [BLANK];
  }

  lemma ArrangedSnoc(o: Order, l: seq<Record>, a: Record)
    ensures Arranged(o, l + [a]) == Put(o, Arranged(o, l), a)
  {
    assert (l + [a])[..|l|] == l;
  }

  /** Every result is the arranged counted records and, last, the blank node. */
  lemma {:induction false} SortingEndsBlank(o: Order, log: seq<Record>)
    ensures Sorting(o, log) == Arranged(o, Counted(log)) + [BLANK]
  {
    if log != [] {
      var n := |log| - 1;
      var l := Counted(log[..n]);
      SortingEndsBlank(o, log[..n]);
      SelectLast(log, HasName);
      if log[n].name != "" {
        InsertBeforeBlank(o, Arranged(o, l), log[n]);
        ArrangedSnoc(o, l, log[n]);
      }
    }
  }

  /** s ends in the blank node, and before it holds the named records of the log with the property,
      each as often as the log, and nothing else. */
  ghost predicate Finds(log: seq<Record>, p: Record -> bool, s: seq<Record>) {
    && s != [] && s[|s| - 1] == BLANK
    && forall a :: multiset(s[..|s| - 1])[a] == if a.name != "" && p(a) then multiset(log)[a] else 0
  }

  /** Sorting the records that a query lets through. */
  lemma SortingFinds(o: Order, log: seq<Record>, p: Record -> bool)
    ensures Finds(log, p, Sorting(o, Select(log, p)))
  {
    var l := Counted(Select(log, p));
    SortingEndsBlank(o, Select(log, p));
    ArrangedPermutes(o, l);
    var s := Sorting(o, Select(log, p));
    assert s[..|s| - 1] == Arranged(o, l);
    forall a ensures multiset(s[..|s| - 1])[a] == if a.name != "" && p(a) then multiset(log)[a] else 0 {
      SelectMultiset(Select(log, p), HasName, a);
      SelectMultiset(log, p, a);
    }
  }

  /** Sorting all of them. */
  lemma SortingFindsAll(o: Order, log: seq<Record>)
    ensures Finds(log, (a: Record) => true, Sorting(o, log))
  {
    var all := (a: Record) => true;
    SelectAll(log, all);
    SortingFinds(o, log, all);
  }

  ghost predicate Has(s: string, sub: string) {
    exists before, after :: s == before + sub + after
  }

  lemma ContainsHas(s: string, sub: string)
    ensures Contains(s, sub) <==> Has(s, sub)
  {
    if before, after :| s == before + sub + after {
      assert OccursAt(s, sub, |before|);
    }
    if i :| 0 <= i <= |s| && OccursAt(s, sub, i) {
      assert s == s[..i] + sub + s[i + |sub|..];
    }
  }

  /** What the queries ask of a record: the text occurs in the field of the column, any text does
      for a column there is not; it occurs in some field; the time lies between the two. */
  lemma QueriesMean(clock: Clock, column: int, text: string, start: string, end: string, a: Record)
    ensures ByFilter(column, text)(a) <==>
      match column
      case 0 => Has(a.time, text)
      case 1 => Has(a.name, text)
      case 2 => Has(a.cmd, text)
      case 3 => Has(a.info, text)
      case _ => true
    ensures ByKeyword(text)(a) <==> Has(a.time, text) || Has(a.name, text) || Has(a.cmd, text) || Has(a.info, text)
    ensures ByTimeRange(clock, start, end)(a) <==> clock(start) <= clock(a.time) <= clock(end)
  {
    ContainsHas(a.time, text);
    ContainsHas(a.name, text);
    ContainsHas(a.cmd, text);
    ContainsHas(a.info, text);
  }

  // ---------- the order of the result ----------

  /** a stands before b in a dictionary: a is a proper beginning of b, or at the first place where
      they differ a has the lesser character. */
  ghost predicate Below(a: string, b: string) {
    exists k: nat :: DiffersAt(a, b, k)
  }

  predicate DiffersAt(a: string, b: string, k: nat) {
    && k <= |a| && k <= |b| && a[..k] == b[..k]
    && ((k == |a| && k < |b|) || (k < |a| && k < |b| && a[k] < b[k]))
  }

  /** strcmp is negative exactly when its first argument stands before the second in a dictionary. */
  lemma {:induction false} StrCmpIsBelow(a: string, b: string)
    ensures StrCmp(a, b) < 0 <==> Below(a, b)
  {
    if a != "" && b != "" && a[0] == b[0] {
      StrCmpIsBelow(a[1..], b[1..]);
      if Below(a[1..], b[1..]) {
        var k: nat :| DiffersAt(a[1..], b[1..], k);
        assert a[..k + 1] == [a[0]] + a[1..][..k] && b[..k + 1] == [b[0]] + b[1..][..k];
        assert DiffersAt(a, b, k + 1);
      }
      if Below(a, b) {
        var k: nat :| DiffersAt(a, b, k);
        assert k > 0 && a[1..][..k - 1] == a[..k][1..] && b[1..][..k - 1] == b[..k][1..];
        assert DiffersAt(a[1..], b[1..], k - 1);
      }
    } else if a != "" && b != "" {
      if a[0] < b[0] {
        assert DiffersAt(a, b, 0);
      }
      forall k | 0 < k <= |a| && k <= |b| ensures a[..k] != b[..k] {
        assert a[..k][0] != b[..k][0];
      }
    } else if b != "" {
      assert DiffersAt(a, b, 0);
    }
  }

  /** x may stand before y: by time in the direction asked for, by a field in dictionary order. */
  ghost predicate Le(o: Order, x: Record, y: Record) {
    if o.column == 0 then (if o.ascending then o.clock(x.time) <= o.clock(y.time) else o.clock(x.time) >= o.clock(y.time))
    else if o.column == 1 then (if o.ascending then !Below(y.name, x.name) else !Below(x.name, y.name))
    else if o.column == 2 then (if o.ascending then !Below(y.cmd, x.cmd) else !Below(x.cmd, y.cmd))
    else if o.column == 3 then (if o.ascending then !Below(y.info, x.info) else !Below(x.info, y.info))
    else true
  }

  /** In terms of the comparison that sorts. */
  lemma LeCompares(o: Order, x: Record, y: Record)
    requires o.column != 0
    ensures Le(o, x, y) <==> if o.ascending then Compare(o.clock, o.column, x, y) <= 0 else Compare(o.clock, o.column, x, y) >= 0
  {
    var a, b := Field(o.column, x), Field(o.column, y);
    StrCmpMirror(a, b);
    StrCmpMirror(b, a);
    StrCmpIsBelow(a, b);
    StrCmpIsBelow(b, a);
  }

  ghost predicate Ordered(o: Order, s: seq<Record>) {
    forall i, j | 0 <= i < j < |s| :: Le(o, s[i], s[j])
  }

  /** The logs whose counted records l a sort puts in order: any log for the other columns; by
      ascending time, a log in which nothing later than the epoch of the empty time follows a
      record without time; by descending time, a chronological log. */
  predicate Orderly(o: Order, l: seq<Record>) {
    o.column == 0 ==>
      forall i, j | 0 <= i < j < |l| ::
        if o.ascending then l[i].time == "" ==> o.clock(l[j].time) <= o.clock("") else o.clock(l[i].time) <= o.clock(l[j].time)
  }

  lemma {:induction false} StrCmpMirror(a: string, b: string)
    ensures StrCmp(a, b) == 0 <==> a == b
    ensures StrCmp(a, b) > 0 <==> StrCmp(b, a) < 0
    ensures StrCmp(a, b) < 0 <==> StrCmp(b, a) > 0
  {
    if a != "" && b != "" && a[0] == b[0] {
      StrCmpMirror(a[1..], b[1..]);
      assert a == [a[0]] + a[1..] && b == [b[0]] + b[1..];
    }
  }

  lemma {:induction false} StrCmpTransitive(a: string, b: string, c: string)
    requires StrCmp(a, b) <= 0 && StrCmp(b, c) <= 0
    ensures StrCmp(a, c) <= 0
  {
    if a != "" && b != "" && c != "" && a[0] == b[0] == c[0] {
      StrCmpTransitive(a[1..], b[1..], c[1..]);
    }
  }

  function Field(column: int, a: Record): string {
    if column == 1 then a.name else if column == 2 then a.cmd else if column == 3 then a.info else ""
  }

  lemma LeTransitive(o: Order, x: Record, y: Record, z: Record)
    requires Le(o, x, y) && Le(o, y, z)
    ensures Le(o, x, z)
  {
    var a, b, c := Field(o.column, x), Field(o.column, y), Field(o.column, z);
    StrCmpMirror(a, b);
    StrCmpMirror(b, c);
    StrCmpMirror(a, c);
    if o.column != 0 {
      LeCompares(o, x, y);
      LeCompares(o, y, z);
      LeCompares(o, x, z);
    }
    if o.ascending && o.column in {1, 2, 3} {
      StrCmpTransitive(a, b, c);
    } else if o.column in {1, 2, 3} {
      StrCmpTransitive(c, b, a);
    }
  }

  lemma LeTotal(o: Order, x: Record, y: Record)
    ensures Le(o, x, y) || Le(o, y, x)
  {
    StrCmpMirror(Field(o.column, x), Field(o.column, y));
    if o.column != 0 {
      LeCompares(o, x, y);
      LeCompares(o, y, x);
    }
  }

  /** The walk passes exactly what must stand before the new record. */
  ghost predicate Honest(o: Order, s: seq<Record>, a: Record) {
    forall i | 0 <= i < |s| :: Passes(o, a, s[i]) <==> !Le(o, a, s[i])
  }

  lemma PutOrdered(o: Order, s: seq<Record>, a: Record)
    requires Ordered(o, s) && Honest(o, s, a)
    ensures Ordered(o, Put(o, s, a))
  {
    var k := Spot(o, s, a);
    forall j | 0 <= j < |s| ensures if j < k then Le(o, s[j], a) else Le(o, a, s[j]) {
      if j < k {
        LeTotal(o, s[j], a);
      } else if j > k {
        LeTransitive(o, a, s[k], s[j]);
      }
    }
  }

  lemma OrderlyHonest(o: Order, l: seq<Record>, a: Record)
    requires Orderly(o, l + [a])
    ensures Honest(o, Arranged(o, l), a)
  {
    var s := Arranged(o, l);
    forall i | 0 <= i < |s| ensures Passes(o, a, s[i]) <==> !Le(o, a, s[i]) {
      ArrangedSame(o, l, s[i]);
      var j :| 0 <= j < |l| && l[j] == s[i];
      assert (l + [a])[j] == s[i] && (l + [a])[|l|] == a;
      if o.column != 0 {
        LeCompares(o, a, s[i]);
      }
    }
  }

  lemma OrderlyPrefix(o: Order, l: seq<Record>, a: Record)
    requires Orderly(o, l + [a])
    ensures Orderly(o, l)
  {
    forall i, j | 0 <= i < j < |l| ensures (l + [a])[i] == l[i] && (l + [a])[j] == l[j] {
    }
  }

  lemma {:induction false} OrderlySorted(o: Order, l: seq<Record>)
    requires Orderly(o, l)
    ensures Ordered(o, Arranged(o, l))
  {
    if l != [] {
      var n := |l| - 1;
      assert l == l[..n] + [l[n]];
      OrderlyPrefix(o, l[..n], l[n]);
      OrderlySorted(o, l[..n]);
      OrderlyHonest(o, l[..n], l[n]);
      PutOrdered(o, Arranged(o, l[..n]), l[n]);
      ArrangedSnoc(o, l[..n], l[n]);
    }
  }

  lemma PutKeepsOrder(o: Order, s: seq<Record>, a: Record)
    requires Ordered(o, Put(o, s, a))
    ensures Ordered(o, s)
    ensures forall i | 0 <= i < |s| && !Passes(o, a, s[i]) :: Le(o, a, s[i])
  {
    var k, t := Spot(o, s, a), Put(o, s, a);
    assert t[k] == a;
    forall i, j | 0 <= i < j < |s| ensures Le(o, s[i], s[j]) {
      assert s[i] == t[if i < k then i else i + 1] && s[j] == t[if j < k then j else j + 1];
    }
    forall i | 0 <= i < |s| && !Passes(o, a, s[i]) ensures Le(o, a, s[i]) {
      assert s[i] == t[i + 1];
    }
  }

  lemma {:induction false} SortedOrderly(o: Order, l: seq<Record>)
    requires Ordered(o, Arranged(o, l))
    ensures Orderly(o, l)
  {
    if l != [] {
      var n := |l| - 1;
      var s := Arranged(o, l[..n]);
      assert l == l[..n] + [l[n]];
      ArrangedSnoc(o, l[..n], l[n]);
      PutKeepsOrder(o, s, l[n]);
      SortedOrderly(o, l[..n]);
      forall i | 0 <= i < n ensures l[i] in s {
        ArrangedSame(o, l[..n], l[..n][i]);
      }
    }
  }

  /** A sort puts the log in order exactly when it is orderly. By name, cmd or info it always does. */
  lemma SortsExactly(o: Order, log: seq<Record>)
    ensures Ordered(o, Arranged(o, Counted(log))) <==> Orderly(o, Counted(log))
    ensures o.column != 0 ==> Ordered(o, Arranged(o, Counted(log)))
  {
    if Orderly(o, Counted(log)) {
      OrderlySorted(o, Counted(log));
    } else if Ordered(o, Arranged(o, Counted(log))) {
      SortedOrderly(o, Counted(log));
    }
  }

  /** The records before the blank node are in order, if those of the log can be put in order. */
  ghost predicate SortedWhen(o: Order, log: seq<Record>, s: seq<Record>) {
    s != [] && (Orderly(o, Counted(log)) ==> Ordered(o, s[..|s| - 1]))
  }

  lemma SortingSorts(o: Order, log: seq<Record>)
    ensures SortedWhen(o, log, Sorting(o, log))
  {
    var s := Sorting(o, log);
    SortingEndsBlank(o, log);
    assert s[..|s| - 1] == Arranged(o, Counted(log));
    SortsExactly(o, log);
  }

  lemma PutKeepsPlaces(o: Order, s: seq<Record>, a: Record, p: nat, q: nat) returns (p1: nat, q1: nat)
    requires p < q < |s|
    ensures var t := Put(o, s, a); p1 < q1 < |t| && t[p1] == s[p] && t[q1] == s[q]
  {
    var k := Spot(o, s, a);
    p1 := if p < k then p else p + 1;
    q1 := if q < k then q else q + 1;
  }

  /** A log that is not: a later record that comes after one without time ends up before it. */
  lemma {:induction false} BlankTimeBlocks(clock: Clock, l: seq<Record>, i: nat, j: nat) returns (p: nat, q: nat)
    requires i < j < |l| && l[i].time == "" && clock(l[j].time) > clock("")
    ensures var s := Arranged(Order(clock, 0, true), l);
      p < q < |s| && s[p] == l[j] && s[q] == l[i] && clock(s[p].time) > clock(s[q].time)
  {
    var o, n := Order(clock, 0, true), |l| - 1;
    var s := Arranged(o, l[..n]);
    assert l == l[..n] + [l[n]];
    ArrangedSnoc(o, l[..n], l[n]);
    if j < n {
      p, q := BlankTimeBlocks(clock, l[..n], i, j);
      p, q := PutKeepsPlaces(o, s, l[n], p, q);
    } else {
      ArrangedSame(o, l[..n], l[..n][i]);
      q :| 0 <= q < |s| && s[q] == l[i];
      p, q := Spot(o, s, l[n]), q + 1;
    }
  }

  // ---------- ties ----------

  /** a and b have the same sort key. */
  predicate Tied(o: Order, a: Record, b: Record) {
    if o.column == 0 then o.clock(a.time) == o.clock(b.time) else Field(o.column, a) == Field(o.column, b)
  }

  function TiedTo(o: Order, x: Record): Record -> bool {
    a => Tied(o, a, x)
  }

  /** The records that sort like x, in the order of s. */
  function Ties(o: Order, s: seq<Record>, x: Record): seq<Record> {
    Select(s, TiedTo(o, x))
  }

  lemma {:induction false} NoTies(o: Order, s: seq<Record>, x: Record)
    requires forall a <- s :: !Tied(o, a, x)
    ensures Ties(o, s, x) == []
  {
    if s != [] {
      assert s[0] in s;
      NoTies(o, s[1..], x);
    }
  }

  lemma SelectOne<T>(a: T, p: T -> bool)
    ensures Select([a], p) == if p(a) then [a] else []
  {
    assert [a][1..] == [];
  }

  lemma SelectBetween<T>(front: seq<T>, a: T, back: seq<T>, p: T -> bool)
    ensures Select(front + [a] + back, p) ==
      if p(a) then Select(front, p) + [a] + Select(back, p) else Select(front, p) + Select(back, p)
  {
    SelectSplit(front + [a], back, p);
    SelectSplit(front, [a], p);
    SelectOne(a, p);
    assert Select(front, p) + [] == Select(front, p);
  }

  lemma SelectPut<T>(s: seq<T>, k: nat, a: T, p: T -> bool)
    requires k <= |s|
    ensures Select(s, p) == Select(s[..k], p) + Select(s[k..], p)
    ensures Select(s[..k] + [a] + s[k..], p) ==
      if p(a) then Select(s[..k], p) + [a] + Select(s[k..], p) else Select(s, p)
  {
    var front, back := s[..k], s[k..];
    assert s == front + back;
    SelectSplit(front, back, p);
    SelectBetween(front, a, back, p);
  }

  lemma PutBeforeTies(o: Order, s: seq<Record>, a: Record, x: Record)
    ensures Ties(o, Put(o, s, a), x) == if Tied(o, a, x) then [a] + Ties(o, s, x) else Ties(o, s, x)
  {
    var k := Spot(o, s, a);
    SelectPut(s, k, a, TiedTo(o, x));
    if Tied(o, a, x) {
      FrontUntied(o, s, a, x);
      assert Ties(o, s, x) == Ties(o, s[k..], x);
    }
  }

  lemma FrontUntied(o: Order, s: seq<Record>, a: Record, x: Record)
    requires Tied(o, a, x)
    ensures Ties(o, s[..Spot(o, s, a)], x) == []
  {
    var k := Spot(o, s, a);
    forall b | b in s[..k] ensures !Tied(o, b, x) {
      var j :| 0 <= j < k && s[j] == b;
      StrCmpMirror(Field(o.column, a), Field(o.column, b));
    }
    NoTies(o, s[..k], x);
  }

  /** Records with the same key come out in reverse log order, whatever the column, the direction
      and the log. */
  lemma {:induction false} TiesReversed(o: Order, l: seq<Record>, x: Record)
    ensures Ties(o, Arranged(o, l), x) == Reversed(Ties(o, l, x))
  {
    if l != [] {
      var n := |l| - 1;
      TiesReversed(o, l[..n], x);
      assert l == l[..n] + [l[n]];
      ArrangedSnoc(o, l[..n], l[n]);
      PutBeforeTies(o, Arranged(o, l[..n]), l[n], x);
      SelectLast(l, TiedTo(o, x));
      if Tied(o, l[n], x) {
        ReversedSnoc(Ties(o, l[..n], x), l[n]);
      }
    }
  }

  /** Sorting by descending time reverses the log, so it is in order exactly when the log is
      chronological. */
  lemma {:induction false} NewestFirst(clock: Clock, l: seq<Record>)
    ensures Arranged(Order(clock, 0, false), l) == Reversed(l)
  {
    if l != [] {
      var n := |l| - 1;
      NewestFirst(clock, l[..n]);
      assert l == l[..n] + [l[n]];
      ArrangedSnoc(Order(clock, 0, false), l[..n], l[n]);
      ReversedSnoc(l[..n], l[n]);
    }
  }

  // ---------- the queries ----------

  /** Everything before the spot is passed, and nothing from it on. */
  lemma SpotSeparates(o: Order, s: seq<Record>, a: Record)
    requires Ordered(o, s) && Honest(o, s, a)
    ensures forall j | 0 <= j < |s| :: Passes(o, a, s[j]) <==> j < Spot(o, s, a)
  {
    var k := Spot(o, s, a);
    forall j | k < j < |s| ensures !Passes(o, a, s[j]) {
      LeTransitive(o, a, s[k], s[j]);
    }
  }

  /** Selecting from an ordered list with one more record is inserting into the selection. */
  lemma SelectThenPut(o: Order, s: seq<Record>, a: Record, p: Record -> bool)
    requires Ordered(o, s) && Honest(o, s, a)
    ensures Select(Put(o, s, a), p) == if p(a) then Put(o, Select(s, p), a) else Select(s, p)
  {
    var k := Spot(o, s, a);
    SelectPut(s, k, a, p);
    var front, back := Select(s[..k], p), Select(s[k..], p);
    SelectFrom(s[..k], p);
    SelectFrom(s[k..], p);
    SpotSeparates(o, s, a);
    forall j | 0 <= j < |front| ensures Passes(o, a, front[j]) {
      assert front[j] in front && front[j] in s[..k];
    }
    if back != [] {
      assert back[0] in back && back[0] in s[k..];
    }
    SpotIs(o, front + back, a, |front|);
  }

  /** Arranging a selection is selecting from the arrangement. */
  lemma {:induction false} SelectArranged(o: Order, l: seq<Record>, p: Record -> bool)
    requires Orderly(o, l)
    ensures Arranged(o, Select(l, p)) == Select(Arranged(o, l), p)
  {
    if l != [] {
      var n := |l| - 1;
      assert l == l[..n] + [l[n]];
      OrderlyPrefix(o, l[..n], l[n]);
      SelectArranged(o, l[..n], p);
      OrderlySorted(o, l[..n]);
      OrderlyHonest(o, l[..n], l[n]);
      SelectThenPut(o, Arranged(o, l[..n]), l[n], p);
      ArrangedSnoc(o, l[..n], l[n]);
      SelectLast(l, p);
      if p(l[n]) {
        ArrangedSnoc(o, Select(l[..n], p), l[n]);
      }
    }
  }

  /** A query on the log gives an ordered list, the matching part of the sorted log. */
  ghost predicate QueryRight(o: Order, log: seq<Record>, p: Record -> bool) {
    var whole, found := Arranged(o, Counted(log)), Arranged(o, Counted(Select(log, p)));
    Ordered(o, found) && found == Select(whole, p)
  }

  /** Every query is right exactly when the log is orderly; so for the other columns always. */
  lemma QueriesRight(o: Order, log: seq<Record>)
    ensures (forall p: Record -> bool :: QueryRight(o, log, p)) <==> Orderly(o, Counted(log))
  {
    if Orderly(o, Counted(log)) {
      forall p: Record -> bool ensures QueryRight(o, log, p) {
        SelectSwap(log, HasName, p);
        SelectArranged(o, Counted(log), p);
        OrderlySorted(o, Counted(log));
        SelectOrdered(o, Arranged(o, Counted(log)), p);
      }
    } else {
      var all := (a: Record) => true;
      SelectAll(log, all);
      SortsExactly(o, log);
      assert !QueryRight(o, log, all);
    }
  }

  lemma {:induction false} SelectAll<T>(s: seq<T>, p: T -> bool)
    requires forall x :: p(x)
    ensures Select(s, p) == s
  {
    if s != [] {
      SelectAll(s[1..], p);
    }
  }

  lemma {:induction false} SelectOrdered(o: Order, s: seq<Record>, p: Record -> bool)
    requires Ordered(o, s)
    ensures Ordered(o, Select(s, p))
  {
    if s != [] {
      assert Ordered(o, s[1..]);
      SelectOrdered(o, s[1..], p);
      SelectFrom(s[1..], p);
      var rest := Select(s[1..], p);
      forall j | 0 <= j < |rest| ensures Le(o, s[0], rest[j]) {
        assert rest[j] in rest;
        var i :| 0 <= i < |s[1..]| && s[1..][i] == rest[j];
        assert s[i + 1] == rest[j];
      }
    }
  }

  lemma OrderlySelection(o: Order, log: seq<Record>, p: Record -> bool)
    ensures SortedWhen(o, log, Sorting(o, Select(log, p)))
  {
    var s := Sorting(o, Select(log, p));
    SortingEndsBlank(o, Select(log, p));
    assert s[..|s| - 1] == Arranged(o, Counted(Select(log, p)));
    QueriesRight(o, log);
    assert Orderly(o, Counted(log)) ==> QueryRight(o, log, p);
  }

  /** What filterByTimeRange returns is a stretch of the log sorted by time. */
  lemma TimeRangeIsSlice(clock: Clock, start: string, end: string, log: seq<Record>) returns (from: nat, to: nat)
    requires Orderly(Order(clock, 0, true), Counted(log))
    ensures var o := Order(clock, 0, true);
      var whole := Arranged(o, Counted(log));
      from <= to <= |whole|
      && Arranged(o, Counted(Select(log, ByTimeRange(clock, start, end)))) == whole[from..to]
  {
    var o := Order(clock, 0, true);
    var p := ByTimeRange(clock, start, end);
    var whole := Arranged(o, Counted(log));
    QueriesRight(o, log);
    assert QueryRight(o, log, p);
    SortsExactly(o, log);
    from, to := Stretch(clock, start, end, whole, p);
  }

  lemma {:induction false} Stretch(clock: Clock, start: string, end: string, s: seq<Record>, p: Record -> bool) returns (from: nat, to: nat)
    requires Ordered(Order(clock, 0, true), s)
    requires forall a :: p(a) == CheckTimeRange(clock, start, end, a)
    ensures from <= to <= |s| && Select(s, p) == s[from..to]
    ensures forall i | 0 <= i < |s| :: p(s[i]) <==> from <= i < to
  {
    if s == [] {
      from, to := 0, 0;
    } else {
      assert Ordered(Order(clock, 0, true), s[1..]);
      var f, t := Stretch(clock, start, end, s[1..], p);
      forall i | 1 <= i < |s| ensures p(s[i]) <==> f < i <= t {
        assert s[i] == s[1..][i - 1];
      }
      var rest := s[1..][f..t];
      if !p(s[0]) {
        from, to := f + 1, t + 1;
        assert s[from..to] == rest;
      } else if f == t {
        from, to := 0, 1;
        assert s[from..to] == [s[0]] + rest;
      } else {
        assert s[1..][f] == s[f + 1] && p(s[1..][f]);
        assert s[1..][0] == s[1] && p(s[1..][0]);
        from, to := 0, t + 1;
        assert s[from..to] == [s[0]] + rest;
      }
    }
  }
}

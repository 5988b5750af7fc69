/** The lines of the audit log: the formatters of client.c that write them and the parser of
    parser.c that reads them back. */
module AuditLog {
  import opened Wrappers
  import opened Sequences
  import opened Text
  import opened Audit
  import opened AuditList

  // ---------- C strings ----------

  function Strlen(b: seq<char>): (n: nat)
    ensures n <= |b|
  {
    IndexOf(b, '\0', 0)
  }

  /** The characters before the first NUL, all that C string functions see of a buffer. */
  function CString(b: seq<char>): string {
    b[..Strlen(b)]
  }

  /** What trimNewLine leaves: everything before the first line feed. */
  function Trimmed(s: string): (t: string)
    ensures '\n' !in t && t <= s
    ensures '\n' !in s ==> t == s
    ensures '\n' in s ==> |t| < |s| && s[|t|] == '\n'
  {
    s[..IndexOf(s, '\n', 0)]
  }

  /** trimNewLine: the loop measures the string anew each time, so the first NUL it writes ends it. */
  method TrimNewLine(cmd: array<char>)
    requires '\0' in cmd[..]
    modifies cmd
    ensures CString(cmd[..]) == Trimmed(old(CString(cmd[..])))
  {
    ghost var was := cmd[..];
    var i := 0;
    while i < Strlen(cmd[..])
      invariant 0 <= i <= Strlen(was)
      invariant if cmd[..] == was then '\n' !in was[..i]
                else i == Strlen(cmd[..]) + 1 && CString(cmd[..]) == Trimmed(CString(was))
    {
      if cmd[i] == '\n' {
        cmd[i] := '\0';
        CutAt(was, i);
      }
      i := i + 1;
    }
    if cmd[..] == was {
      assert CString(was) == was[..i];
    }
  }

  lemma CutAt(b: seq<char>, i: nat)
    requires i < Strlen(b) && b[i] == '\n' && '\n' !in b[..i]
    ensures var c := b[i := '\0']; Strlen(c) == i && CString(c) == Trimmed(CString(b))
  {
    var s := CString(b);
    assert s[..i] == b[..i] && s[i] == '\n';
    IndexIs(s, '\n', 0, i);
    var c := b[i := '\0'];
    assert c[0..i] == s[0..i];
    IndexIs(c, '\0', 0, i);
  }

  // ---------- what is logged ----------

  datatype Event =
    | MsgFrom(user: string, words: seq<string>)
    | MsgTo(user: string, words: seq<string>)
    | Login(server: string, port: string, success: bool, msg: string)
    | Logout(intentional: bool)
    | Error(msg: string)
    | Command(cmd: string, success: bool)

  datatype Entry = Entry(time: string, name: string, event: Event)

  function Verb(e: Event): string {
    match e
    case MsgFrom(_, _) => "MSG"
    case MsgTo(_, _) => "MSG"
    case Login(_, _, _, _) => "LOGIN"
    case Logout(_) => "LOGOUT"
    case Error(_) => "ERR"
    case Command(_, _) => "CMD"
  }

  function Info(e: Event): string {
    match e
    case MsgFrom(user, words) => "from, " + user + ", " + Spaced(words)
    case MsgTo(user, words) => "to, " + user + ", " + Spaced(words)
    case Login(server, port, success, msg) => server + ":" + port + ", " + (if success then "success, " else "fail, ") + Trimmed(msg)
    case Logout(intentional) => if intentional then "intentional" else "error"
    case Error(msg) => Trimmed(msg)
    case Command(cmd, success) => Trimmed(cmd) + ", " + (if success then "success, " else "failure, ") + "client"
  }

  /** writeMsgEvent, writeLoginEvent, writeLogoutEvent, writeErrorEvent and writeCmdEvent: each
      starts with its verb. */
  function EventText(e: Event): string {
    Verb(e) + ", " + Info(e)
  }

  /** writeLogEvent: the time stamp and two more pieces. */
  function Line(e: Entry): string {
    e.time + (", " + e.name) + (", " + EventText(e.event) + "\n")
  }

  function LogText(es: seq<Entry>): string {
    if es == [] then "" else Line(es[0]) + LogText(es[1..])
  }

  function RecordOf(e: Entry): Record {
    Record(e.time, e.name, Verb(e.event), Info(e.event))
  }

  function RecordsOf(es: seq<Entry>): seq<Record> {
    seq(|es|, i requires 0 <= i < |es| => RecordOf(es[i]))
  }

  /** The entry takes one line. */
  predicate OneLine(e: Entry) {
    '\n' !in e.time && '\n' !in e.name && '\n' !in Info(e.event)
  }

  predicate CommaFree(e: Entry) {
    ',' !in e.time && ',' !in e.name
  }

  // ---------- what is read back ----------

  /** parseMessage. None stands for the lines on which it follows a null pointer or counts a
      negative length. */
  function ParseLine(m: string): Option<Record> {
    var firstComma := IndexOf(m, ',', 0);
    if firstComma == |m| then None
    else
      var secondComma := IndexOf(m, ',', firstComma + 1);
      if secondComma == |m| then None
      else
        var thirdComma := IndexOf(m, ',', secondComma + 1);
        var end := IndexOf(m, '\n', 0);
        if thirdComma == |m| || end == |m| || secondComma < firstComma + 2 || thirdComma < secondComma + 2 || end < thirdComma + 2 then None
        else Some(Record(m[..firstComma], m[firstComma + 2..secondComma], m[secondComma + 2..thirdComma], m[thirdComma + 2..end]))
  }

  function Prepend(rs: seq<Record>, o: Option<seq<Record>>): Option<seq<Record>> {
    match o
    case None => None
    case Some(more) => Some(rs + more)
  }

  /** fillAudit: line by line; bytes after the last line feed are dropped. */
  function ParseLog(s: string): Option<seq<Record>>
    decreases |s|
  {
    var i := IndexOf(s, '\n', 0);
    if i == |s| then Some([])
    else match ParseLine(s[..i + 1])
      case None => None
      case Some(r) => Prepend([r], ParseLog(s[i + 1..]))
  }

  lemma VerbPlain(e: Event)
    ensures ',' !in Verb(e) && '\n' !in Verb(e)
  {
  }

  /** A line as its four fields. */
  function Fields(r: Record): string {
    r.time + ", " + r.name + ", " + r.cmd + ", " + r.info + "\n"
  }

  lemma LineFields(e: Entry)
    ensures Line(e) == Fields(RecordOf(e))
    ensures Line(e) == e.time + ", " + e.name + ", " + Verb(e.event) + ", " + Info(e.event) + "\n"
  {
  }

  // ---------- the records in so many words ----------

  /** The end of a text that is cut off: nothing, or what begins with a line feed. */
  predicate IsTail(tail: string) {
    tail == "" || tail[0] == '\n'
  }

  lemma TrimmedIs(text: string, tail: string)
    requires '\n' !in text && IsTail(tail)
    ensures Trimmed(text + tail) == text
  {
    IndexIs(text + tail, '\n', 0, |text|);
  }

  /** The four columns each event fills; Line writes these with a comma and a blank between them
      (LineFields). */
  lemma MessageRecord(t: string, n: string, user: string, words: seq<string>)
    ensures RecordOf(Entry(t, n, MsgFrom(user, words))) == Record(t, n, "MSG", "from, " + user + ", " + Spaced(words))
    ensures RecordOf(Entry(t, n, MsgTo(user, words))) == Record(t, n, "MSG", "to, " + user + ", " + Spaced(words))
  {
  }

  lemma LoginRecord(t: string, n: string, server: string, port: string, msg: string, tail: string)
    requires '\n' !in msg && IsTail(tail)
    ensures RecordOf(Entry(t, n, Login(server, port, true, msg + tail))) == Record(t, n, "LOGIN", server + ":" + port + ", " + "success, " + msg)
    ensures RecordOf(Entry(t, n, Login(server, port, false, msg + tail))) == Record(t, n, "LOGIN", server + ":" + port + ", " + "fail, " + msg)
  {
    TrimmedIs(msg, tail);
  }

  lemma SessionRecord(t: string, n: string, msg: string, tail: string)
    requires '\n' !in msg && IsTail(tail)
    ensures RecordOf(Entry(t, n, Logout(true))) == Record(t, n, "LOGOUT", "intentional")
    ensures RecordOf(Entry(t, n, Logout(false))) == Record(t, n, "LOGOUT", "error")
    ensures RecordOf(Entry(t, n, Error(msg + tail))) == Record(t, n, "ERR", msg)
    ensures RecordOf(Entry(t, n, Command(msg + tail, true))) == Record(t, n, "CMD", msg + ", " + "success, " + "client")
    ensures RecordOf(Entry(t, n, Command(msg + tail, false))) == Record(t, n, "CMD", msg + ", " + "failure, " + "client")
  {
    TrimmedIs(msg, tail);
  }

  lemma FieldsEnd(r: Record)
    requires '\n' !in r.time && '\n' !in r.name && '\n' !in r.cmd && '\n' !in r.info
    ensures IndexOf(Fields(r), '\n', 0) == |Fields(r)| - 1
  {
    var body := r.time + ", " + r.name + ", " + r.cmd + ", " + r.info;
    assert Fields(r)[0..|body|] == body;
    IndexIs(Fields(r), '\n', 0, |body|);
  }

  lemma FirstComma(r: Record)
    ensures if ',' in r.time then IndexOf(Fields(r), ',', 0) < |r.time| else IndexOf(Fields(r), ',', 0) == |r.time|
  {
    var m := Fields(r);
    var i := IndexOf(r.time, ',', 0);
    assert m[0..i] == r.time[0..i];
    IndexIs(m, ',', 0, i);
  }

  lemma SecondComma(r: Record)
    ensures var k := |r.time| + 2 + |r.name|; var c := IndexOf(Fields(r), ',', |r.time| + 1);
            if ',' in r.name then c < k else c == k
  {
    var m := Fields(r);
    var i := IndexOf(r.name, ',', 0);
    var from := |r.time| + 1;
    assert m[from..from + 1 + i] == [' '] + r.name[0..i];
    IndexIs(m, ',', from, from + 1 + i);
  }

  lemma ThirdComma(r: Record)
    requires ',' !in r.cmd
    ensures var k := |r.time| + 2 + |r.name| + 2 + |r.cmd|;
            IndexOf(Fields(r), ',', |r.time| + 2 + |r.name| + 1) == k
  {
    var m := Fields(r);
    var from := |r.time| + 2 + |r.name| + 1;
    assert m[from..from + 1 + |r.cmd|] == [' '] + r.cmd;
    IndexIs(m, ',', from, from + 1 + |r.cmd|);
  }

  ghost predicate PlainRecord(r: Record) {
    '\n' !in r.time && '\n' !in r.name && '\n' !in r.cmd && '\n' !in r.info && ',' !in r.cmd
  }

  lemma ParseFields(r: Record)
    requires PlainRecord(r) && ',' !in r.time && ',' !in r.name
    ensures ParseLine(Fields(r)) == Some(r)
  {
    var c1 := |r.time|;
    var c2 := c1 + 2 + |r.name|;
    var c3 := c2 + 2 + |r.cmd|;
    FirstComma(r);
    SecondComma(r);
    ThirdComma(r);
    FieldsEnd(r);
    FieldsApart(r);
    ParseAt(Fields(r), c1, c2, c3, r);
  }

  lemma ParseAt(m: string, c1: nat, c2: nat, c3: nat, r: Record)
    requires c1 + 2 <= c2 && c2 + 2 <= c3 && c3 + 2 <= |m| - 1
    requires IndexOf(m, ',', 0) == c1 && IndexOf(m, ',', c1 + 1) == c2 && IndexOf(m, ',', c2 + 1) == c3
    requires IndexOf(m, '\n', 0) == |m| - 1
    requires m[..c1] == r.time && m[c1 + 2..c2] == r.name && m[c2 + 2..c3] == r.cmd && m[c3 + 2..|m| - 1] == r.info
    ensures ParseLine(m) == Some(r)
  {
  }

  lemma FieldsApart(r: Record)
    ensures var m := Fields(r);
      var c1 := |r.time|;
      var c2 := c1 + 2 + |r.name|;
      var c3 := c2 + 2 + |r.cmd|;
      |m| == c3 + 2 + |r.info| + 1
      && m[..c1] == r.time && m[c1 + 2..c2] == r.name && m[c2 + 2..c3] == r.cmd && m[c3 + 2..|m| - 1] == r.info
  {
  }

  /** A line feed in a field ends the line early. */
  lemma LineFeedMisread(r: Record)
    requires '\n' in r.time || '\n' in r.name || '\n' in r.info
    ensures ParseLine(Fields(r)) != Some(r)
  {
    var m := Fields(r);
    var at := |r.time| + 2 + |r.name| + 2 + |r.cmd| + 2;
    assert forall j | 0 <= j < |r.time| :: r.time[j] == m[j];
    assert forall j | 0 <= j < |r.name| :: r.name[j] == m[|r.time| + 2 + j];
    assert forall j | 0 <= j < |r.info| :: r.info[j] == m[at + j];
    if ParseLine(m) == Some(r) {
      SameCommas(r);
    }
  }

  /** Parsing back the same fields finds the commas where they were written. */
  lemma SameCommas(r: Record)
    requires ParseLine(Fields(r)) == Some(r)
    ensures IndexOf(Fields(r), '\n', 0) == |Fields(r)| - 1
  {
    var m := Fields(r);
    var c1 := IndexOf(m, ',', 0);
    var c2 := IndexOf(m, ',', c1 + 1);
    var c3 := IndexOf(m, ',', c2 + 1);
    assert c1 == |r.time| && c2 == c1 + 2 + |r.name| && c3 == c2 + 2 + |r.cmd|;
  }

  lemma CommaMisread(r: Record)
    requires ',' in r.time || ',' in r.name
    ensures ParseLine(Fields(r)) != Some(r)
  {
    FirstComma(r);
    if ',' !in r.time {
      SecondComma(r);
    }
    var parsed := ParseLine(Fields(r));
    assert parsed.Some? ==> |parsed.value.time| < |r.time| || |parsed.value.name| < |r.name|;
  }

  /** A written line is parsed back to its record exactly when no field holds a line feed and
      neither time nor name holds a comma. What follows the verb may hold any number of them. */
  lemma LineRoundTrip(e: Entry)
    ensures ParseLine(Line(e)) == Some(RecordOf(e)) <==> OneLine(e) && CommaFree(e)
  {
    LineFields(e);
    VerbPlain(e.event);
    if !OneLine(e) {
      LineFeedMisread(RecordOf(e));
    } else if CommaFree(e) {
      ParseFields(RecordOf(e));
    } else {
      CommaMisread(RecordOf(e));
    }
  }

  lemma FirstLine(e: Entry, rest: string)
    requires OneLine(e)
    ensures var i := IndexOf(Line(e) + rest, '\n', 0);
            i < |Line(e) + rest| && (Line(e) + rest)[..i + 1] == Line(e) && (Line(e) + rest)[i + 1..] == rest
  {
    VerbPlain(e.event);
    LineFields(e);
    FieldsEnd(RecordOf(e));
    var n := |Line(e)| - 1;
    assert (Line(e) + rest)[0..n] == Line(e)[0..n];
    IndexIs(Line(e) + rest, '\n', 0, n);
  }

  lemma ParseFirst(e: Entry, rest: string)
    requires OneLine(e)
    ensures ParseLog(Line(e) + rest) == match ParseLine(Line(e)) case None => None case Some(r) => Prepend([r], ParseLog(rest))
  {
    FirstLine(e, rest);
  }

  lemma OneMore(e: Entry, rest: string, rs: seq<Record>)
    requires OneLine(e)
    ensures ParseLog(Line(e) + rest) == Some([RecordOf(e)] + rs) <==> CommaFree(e) && ParseLog(rest) == Some(rs)
  {
    ParseFirst(e, rest);
    LineRoundTrip(e);
    TwoParts(RecordOf(e), rs, ParseLine(Line(e)), ParseLog(rest));
  }

  lemma TwoParts(r: Record, rs: seq<Record>, first: Option<Record>, others: Option<seq<Record>>)
    ensures (match first case None => None case Some(x) => Prepend([x], others)) == Some([r] + rs) <==> first == Some(r) && others == Some(rs)
  {
    if first.Some? && others.Some? && [first.value] + others.value == [r] + rs {
      assert ([first.value] + others.value)[0] == r && ([first.value] + others.value)[1..] == rs;
    }
  }

  predicate AllOneLine(es: seq<Entry>) {
    forall e <- es :: OneLine(e)
  }

  predicate AllCommaFree(es: seq<Entry>) {
    forall e <- es :: CommaFree(e)
  }

  lemma AllParts(es: seq<Entry>)
    requires es != []
    ensures AllCommaFree(es) <==> CommaFree(es[0]) && AllCommaFree(es[1..])
    ensures AllOneLine(es) ==> OneLine(es[0]) && AllOneLine(es[1..])
  {
    assert forall x <- es :: x == es[0] || x in es[1..];
    assert es[0] in es;
  }

  lemma NoLine(tail: string)
    requires '\n' !in tail
    ensures ParseLog(tail) == Some([])
  {
    IndexIs(tail, '\n', 0, |tail|);
  }

  lemma LinesApart(es: seq<Entry>, tail: string)
    requires es != []
    ensures LogText(es) + tail == Line(es[0]) + (LogText(es[1..]) + tail)
  {
    Concatenated(Line(es[0]), LogText(es[1..]), tail);
  }

  lemma RecordsApart(es: seq<Entry>)
    requires es != []
    ensures RecordsOf(es) == [RecordOf(es[0])] + RecordsOf(es[1..])
  {
  }

  // ---------- line feeds ----------

  function LineFeeds(s: string): nat {
    if s == "" then 0 else (if s[0] == '\n' then 1 else 0) + LineFeeds(s[1..])
  }

  lemma {:induction false} LineFeedsSplit(s: string, t: string)
    ensures LineFeeds(s + t) == LineFeeds(s) + LineFeeds(t)
  {
    if s == "" {
      assert s + t == t;
    } else {
      assert (s + t)[1..] == s[1..] + t;
      LineFeedsSplit(s[1..], t);
    }
  }

  lemma {:induction false} NoLineFeeds(s: string)
    ensures LineFeeds(s) == 0 <==> '\n' !in s
  {
    if s != "" {
      NoLineFeeds(s[1..]);
      assert s == [s[0]] + s[1..];
    }
  }

  /** A log is read into one record per line feed, if it is read at all. */
  lemma {:induction false} RecordPerLineFeed(s: string)
    requires ParseLog(s).Some?
    ensures |ParseLog(s).value| == LineFeeds(s)
    decreases |s|
  {
    var i := IndexOf(s, '\n', 0);
    if i == |s| {
      NoLineFeeds(s);
    } else {
      LineFeedsAfter(s, i);
      RecordPerLineFeed(s[i + 1..]);
    }
  }

  lemma {:induction false} LineFeedsAfter(s: string, i: nat)
    requires i < |s| && s[i] == '\n' && forall j | 0 <= j < i :: s[j] != '\n'
    ensures LineFeeds(s) == 1 + LineFeeds(s[i + 1..])
    decreases i
  {
    if i > 0 {
      LineFeedsAfter(s[1..], i - 1);
      assert s[1..][i..] == s[i + 1..];
    }
  }

  lemma LineFeedsOfLine(e: Entry)
    ensures LineFeeds(Line(e)) >= 1
    ensures LineFeeds(Line(e)) == 1 <==> OneLine(e)
  {
    var r := RecordOf(e);
    var body := r.time + ", " + r.name + ", " + r.cmd + ", " + r.info;
    LineFields(e);
    VerbPlain(e.event);
    BodyPlain(r);
    NoLineFeeds(body);
    LineFeedsSplit(body, "\n");
    assert LineFeeds("\n") == 1 + LineFeeds("");
  }

  lemma BodyPlain(r: Record)
    ensures '\n' !in r.time + ", " + r.name + ", " + r.cmd + ", " + r.info <==>
      '\n' !in r.time && '\n' !in r.name && '\n' !in r.cmd && '\n' !in r.info
  {
  }

  lemma {:induction false} LineFeedsOfLog(es: seq<Entry>)
    ensures LineFeeds(LogText(es)) >= |es|
    ensures LineFeeds(LogText(es)) == |es| <==> AllOneLine(es)
  {
    if es != [] {
      LineFeedsOfLine(es[0]);
      LineFeedsOfLog(es[1..]);
      LineFeedsSplit(Line(es[0]), LogText(es[1..]));
      AllParts(es);
    }
  }

  // ---------- the whole log ----------

  lemma {:induction false} OneLineLog(es: seq<Entry>, tail: string)
    requires AllOneLine(es) && '\n' !in tail
    ensures ParseLog(LogText(es) + tail) == Some(RecordsOf(es)) <==> AllCommaFree(es)
  {
    if es == [] {
      NoLine(tail);
      assert LogText(es) + tail == tail && RecordsOf(es) == [];
    } else {
      AllParts(es);
      LinesApart(es, tail);
      RecordsApart(es);
      OneLineLog(es[1..], tail);
      OneMore(es[0], LogText(es[1..]) + tail, RecordsOf(es[1..]));
    }
  }

  /** Reading a log gives the records of the events that were written, in order, exactly when no
      event holds a line feed and no time and no name a comma. A line not yet complete does not
      matter. */
  lemma LogRoundTrip(es: seq<Entry>, tail: string)
    requires '\n' !in tail
    ensures ParseLog(LogText(es) + tail) == Some(RecordsOf(es)) <==> AllOneLine(es) && AllCommaFree(es)
  {
    if AllOneLine(es) {
      OneLineLog(es, tail);
    } else if ParseLog(LogText(es) + tail) == Some(RecordsOf(es)) {
      RecordPerLineFeed(LogText(es) + tail);
      LineFeedsSplit(LogText(es), tail);
      NoLineFeeds(tail);
      LineFeedsOfLog(es);
    }
  }

  /** A MSG text with a line feed, which the server relays and writeMsgEvent does not trim: if what
      follows the line feed has no comma, the reader follows a null pointer on it. */
  lemma LineFeedCrashes(time: string, name: string, user: string, before: string, after: string)
    requires '\n' !in time && '\n' !in name && '\n' !in user && '\n' !in before
    requires ',' !in after && '\n' !in after
    ensures ParseLog(LogText([Entry(time, name, MsgFrom(user, [before + "\n" + after]))])) == None
  {
    var e := Entry(time, name, MsgFrom(user, [before + "\n" + after]));
    var start := time + ", " + name + ", MSG, from, " + user + ", " + before;
    var second := after + " \n";
    MessageBroken(e, user, before, after);
    BrokenLog(e, start, second);
  }

  lemma BrokenLog(e: Entry, start: string, second: string)
    requires Line(e) == start + "\n" + second && '\n' !in start
    requires ',' !in second && second != "" && second[|second| - 1] == '\n' && '\n' !in second[..|second| - 1]
    ensures ParseLog(LogText([e])) == None
  {
    var first := start + "\n";
    assert first[..|first| - 1] == start;
    LineAt(first, second);
    SecondLineCrashes(second);
    LogOfOne(e);
  }

  lemma LogOfOne(e: Entry)
    ensures LogText([e]) == Line(e)
  {
    assert [e][1..] == [] && LogText([]) == "";
    assert Line(e) + "" == Line(e);
  }

  lemma MessageBroken(e: Entry, user: string, before: string, after: string)
    requires e.event == MsgFrom(user, [before + "\n" + after])
    ensures Line(e) == e.time + ", " + e.name + ", MSG, from, " + user + ", " + before + "\n" + (after + " \n")
  {
    var words := before + "\n" + after;
    assert Spaced([words]) == words + " ";
    assert Info(e.event) == "from, " + user + ", " + (words + " ");
    assert words + " " + "\n" == before + "\n" + (after + " \n");
  }

  lemma SecondLineCrashes(line: string)
    requires ',' !in line && line != "" && line[|line| - 1] == '\n' && '\n' !in line[..|line| - 1]
    ensures ParseLog(line) == None
  {
    IndexIs(line, ',', 0, |line|);
    LineAt(line, "");
    assert line + "" == line;
  }

  /** parseMessage: the parsed record goes to the end of the list. */
  method ParseMessage(audit: Log, message: string) returns (crashed: bool)
    requires audit.Valid()
    modifies audit, audit.nodes
    ensures crashed <==> ParseLine(message) == None
    ensures !crashed ==> audit.Valid() && audit.Contents() == old(audit.Contents()) + [ParseLine(message).value]
    ensures !crashed ==> exists n :: fresh(n) && audit.nodes == old(audit.nodes) + [n]
  {
    var parsed := ParseLine(message);
    crashed := parsed == None;
    if !crashed {
      var newAudit := new Node(parsed.value);
      audit.InsertIntoAudit(newAudit);
    }
  }

  /** Of the file, got has been parsed and s is still to be. */
  ghost predicate ReadSoFar(file: string, got: seq<Record>, s: string) {
    ParseLog(file) == Prepend(got, ParseLog(s))
  }

  /** fillAudit on the bytes of the log file, read while it is locked. */
  method FillAudit(file: string) returns (audit: Log, crashed: bool)
    ensures fresh(audit) && (crashed <==> ParseLog(file) == None)
    ensures !crashed ==> audit.Valid() && Some(audit.Contents()) == ParseLog(file)
  {
    audit := new Log();
    crashed := false;
    var message, i := "", 0;
    ghost var got: seq<Record> := [];
    ReadStart(file);
    while i < |file|
      invariant 0 <= i <= |file| && '\n' !in message
      invariant audit.Valid() && fresh(audit) && audit.Contents() == got && forall k | 0 <= k < |audit.nodes| :: fresh(audit.nodes[k])
      invariant ReadSoFar(file, got, message + file[i..])
    {
      var lastChar := file[i];
      ReadByte(file, got, message, i);
      message := message + [lastChar];
      i := i + 1;
      if lastChar == '\n' {
        ReadLine(file, got, message, file[i..]);
        crashed := ParseMessage(audit, message);
        if crashed {
          return;
        }
        got := got + [ParseLine(message).value];
        message := "";
      }
    }
    ReadEnd(file, got, message, file[i..]);
  }

  lemma ReadStart(file: string)
    ensures ReadSoFar(file, [], "" + file[0..])
  {
    assert "" + file[0..] == file;
    PrependNil(ParseLog(file));
  }

  lemma ReadByte(file: string, got: seq<Record>, message: string, i: nat)
    requires i < |file| && ReadSoFar(file, got, message + file[i..])
    ensures ReadSoFar(file, got, message + [file[i]] + file[i + 1..])
  {
    assert message + file[i..] == message + [file[i]] + file[i + 1..];
  }

  lemma ReadLine(file: string, got: seq<Record>, line: string, rest: string)
    requires ReadSoFar(file, got, line + rest)
    requires line != "" && line[|line| - 1] == '\n' && '\n' !in line[..|line| - 1]
    ensures match ParseLine(line) case None => ParseLog(file) == None case Some(r) => ReadSoFar(file, got + [r], "" + rest)
  {
    assert "" + rest == rest;
    LineAt(line, rest);
    if ParseLine(line).Some? {
      PrependJoin(got, [ParseLine(line).value], ParseLog(rest));
    }
  }

  lemma ReadEnd(file: string, got: seq<Record>, message: string, rest: string)
    requires '\n' !in message && rest == "" && ReadSoFar(file, got, message + rest)
    ensures ParseLog(file) == Some(got)
  {
    assert message + rest == message && got + [] == got;
    IndexIs(message, '\n', 0, |message|);
  }

  lemma PrependNil(o: Option<seq<Record>>)
    ensures Prepend([], o) == o
  {
    if o.Some? {
      assert [] + o.value == o.value;
    }
  }

  lemma PrependJoin(a: seq<Record>, b: seq<Record>, o: Option<seq<Record>>)
    ensures Prepend(a, Prepend(b, o)) == Prepend(a + b, o)
  {
    if o.Some? {
      assert a + (b + o.value) == a + b + o.value;
    }
  }

  lemma LineAt(line: string, rest: string)
    requires line != "" && line[|line| - 1] == '\n' && '\n' !in line[..|line| - 1]
    ensures ParseLog(line + rest) == if ParseLine(line) == None then None else Prepend([ParseLine(line).value], ParseLog(rest))
  {
    var n := |line| - 1;
    assert (line + rest)[0..n] == line[..n];
    IndexIs(line + rest, '\n', 0, n);
    assert (line + rest)[..n + 1] == line && (line + rest)[n + 1..] == rest;
  }
}

/** The client's two login dialogues (handleLoginProtocol and handleNewUserLoginProtocol of
    client.c) as a machine that writes whole messages and reads whole messages. */
module LoginClient {
  import opened Wrappers
  import opened Text
  import opened Framing
  import opened Wire
  import opened LoginServer

  datatype ClientPc =
    | SendHello
    | AwaitEiflow
    | SendName
    | AwaitChallenge                   // HINEW or AUTH
    | SendPass
    | AwaitGrant                       // SSAPWEN or SSAP
    | AwaitHi
    | AwaitMotd
    | AwaitBye(error: Msg)             // after anything but the expected reply
    | AwaitLateBye(error: Msg)         // after an ERR in the place of HI
    | InSession
    | LoggedOut(error: Msg, bye: Msg)

  /** sent: bytes written that the server has not read; got: number of messages read. */
  datatype Client = Client(isNew: bool, name: string, password: string, pc: ClientPc, sent: string, got: nat)

  function Message(ws: seq<string>): string {
    Spaced(ws) + TERMINATION
  }

  function NameVerb(isNew: bool): string {
    if isNew then "IAMNEW" else "IAM"
  }

  function PassVerb(isNew: bool): string {
    if isNew then "NEWPASS" else "PASS"
  }

  function NameMessage(c: Client): string {
    Message([NameVerb(c.isNew), c.name])
  }

  function PassMessage(c: Client): string {
    Message([PassVerb(c.isNew), c.password])
  }

  /** handleProtocolInput: the message read is a well-formed one of this verb. */
  predicate Hears(motd: string, m: Msg, verb: string) {
    Validate(Tokens(Render(motd, m)), verb)
  }

  function Heard(motd: string, c: Client, m: Msg): (pc: ClientPc) {
    match c.pc
    case AwaitEiflow => SendName // whatever was read
    case AwaitChallenge => if Hears(motd, m, if c.isNew then "HINEW" else "AUTH") then SendPass else AwaitBye(m)
    case AwaitGrant => if Hears(motd, m, if c.isNew then "SSAPWEN" else "SSAP") then AwaitHi else AwaitBye(m)
    case AwaitHi => if Hears(motd, m, "HI") then AwaitMotd else if Hears(motd, m, "ERR") then AwaitLateBye(m) else InSession
    case AwaitMotd => InSession
    case AwaitBye(error) => LoggedOut(error, m)
    case AwaitLateBye(error) => if Hears(motd, m, "BYE") then LoggedOut(error, m) else InSession
    case other => other
  }

  predicate Awaiting(pc: ClientPc) {
    match pc
    case AwaitEiflow => true
    case AwaitChallenge => true
    case AwaitGrant => true
    case AwaitHi => true
    case AwaitMotd => true
    case AwaitBye(_) => true
    case AwaitLateBye(_) => true
    case _ => false
  }

  predicate Finished(pc: ClientPc) {
    pc.InSession? || pc.LoggedOut?
  }

  /** One step of the client; t is all the server has written to it. */
  function ClientStep(motd: string, c: Client, t: seq<Msg>): Option<Client> {
    match c.pc
    case SendHello => Some(c.(pc := AwaitEiflow, sent := c.sent + Message(["WOLFIE"])))
    case SendName => Some(c.(pc := AwaitChallenge, sent := c.sent + NameMessage(c)))
    case SendPass => Some(c.(pc := AwaitGrant, sent := c.sent + PassMessage(c)))
    case _ =>
      if !Awaiting(c.pc) || c.got >= |t| then None
      else
        var pc := Heard(motd, c, t[c.got]);
        var bye := if c.pc.AwaitLateBye? && pc.LoggedOut? then Message(["BYE"]) else "";
        Some(c.(pc := pc, got := c.got + 1, sent := c.sent + bye))
  }

  // ---------- what the two sides make of each other's messages ----------

  /** What the client writes, in so many words. */
  lemma ClientTexts(c: Client)
    ensures Message(["WOLFIE"]) == "WOLFIE" + " " + TERMINATION
    ensures NameMessage(c) == (if c.isNew then "IAMNEW" else "IAM") + " " + c.name + " " + TERMINATION
    ensures PassMessage(c) == (if c.isNew then "NEWPASS" else "PASS") + " " + c.password + " " + TERMINATION
  {
    SpacedTexts("WOLFIE", "");
    SpacedTexts(NameVerb(c.isNew), c.name);
    SpacedTexts(PassVerb(c.isNew), c.password);
  }

  lemma ClientVerbs(isNew: bool)
    ensures IsWord(NameVerb(isNew)) && Unterminated(NameVerb(isNew))
    ensures IsWord(PassVerb(isNew)) && Unterminated(PassVerb(isNew))
  {
  }

  lemma MessageVerb(ws: seq<string>, verb: string)
    requires ws != [] && IsWord(ws[0])
    ensures Validate(Tokens(Message(ws)), verb) <==> ws[0] == verb
  {
    TokensOfSpaced(ws, TERMINATION);
    TokensOfWord(ws[0]);
    assert TokensEach(ws) == [ws[0]] + TokensEach(ws[1..]);
  }

  lemma VerbsAreWords(motd: string, m: Msg)
    requires !m.Relay?
    ensures Words(motd, m) != [] && IsWord(Words(motd, m)[0])
  {
  }

  /** The client recognises exactly the verb the server wrote. */
  lemma HearsExactly(motd: string, m: Msg, verb: string)
    requires !m.Relay?
    ensures Hears(motd, m, verb) <==> Words(motd, m)[0] == verb
  {
    VerbsAreWords(motd, m);
    MessageVerb(Words(motd, m), verb);
  }

  /** In place of the HI an ERR may come: if BYE follows it, the client answers BYE and gives up with
      these two; anything else, in either place, it takes for its session. */
  lemma LateRefusal(motd: string, c: Client, t: seq<Msg>, n: Client)
    requires c.pc == AwaitHi && c.got + 1 < |t| && !t[c.got].Relay? && !t[c.got + 1].Relay?
    requires ClientStep(motd, c, t) == Some(n)
    ensures n.got == c.got + 1 && n.sent == c.sent
    ensures t[c.got].Err? && t[c.got + 1] == Bye ==>
      ClientStep(motd, n, t) == Some(c.(pc := LoggedOut(t[c.got], Bye), got := c.got + 2, sent := c.sent + ("BYE" + " " + TERMINATION)))
    ensures t[c.got].Err? && t[c.got + 1] != Bye ==> ClientStep(motd, n, t) == Some(c.(pc := InSession, got := c.got + 2))
    ensures !t[c.got].Err? && t[c.got] != HiNew && !t[c.got].Hi? ==> n.pc == InSession
  {
    InPlaceOfHi(motd, c, t, n);
    if t[c.got].Err? {
      AfterLateError(motd, n, t, t[c.got]);
    }
  }

  lemma InPlaceOfHi(motd: string, c: Client, t: seq<Msg>, n: Client)
    requires c.pc == AwaitHi && c.got < |t| && !t[c.got].Relay? && ClientStep(motd, c, t) == Some(n)
    ensures var m := t[c.got];
      n == c.(got := c.got + 1, pc := if m == HiNew || m.Hi? then AwaitMotd else if m.Err? then AwaitLateBye(m) else InSession)
  {
    HearsExactly(motd, t[c.got], "HI");
    HearsExactly(motd, t[c.got], "ERR");
    assert c.sent + "" == c.sent;
  }

  lemma AfterLateError(motd: string, c: Client, t: seq<Msg>, error: Msg)
    requires c.pc == AwaitLateBye(error) && c.got < |t| && !t[c.got].Relay?
    ensures ClientStep(motd, c, t) == Some(
      if t[c.got] == Bye then c.(pc := LoggedOut(error, Bye), got := c.got + 1, sent := c.sent + ("BYE" + " " + TERMINATION))
      else c.(pc := InSession, got := c.got + 1))
  {
    HearsExactly(motd, t[c.got], "BYE");
    SpacedTexts("BYE", "");
    assert c.sent + "" == c.sent;
  }

  /** The message a client writes, as the server's scanner hands it over: cut off at the buffer's
      end, it does not count as closed. */
  lemma CutOffRefused(ws: seq<string>, frame: string, expected: string)
    requires forall i | 0 <= i < |ws| :: Unterminated(ws[i])
    requires frame == NextFrame(Message(ws)) && Carries(Tokens(frame), expected)
    ensures frame == Message(ws)
  {
    ClosedEndsOnce(ws);
    NextFrameEndsOnce(Message(ws));
    var o := TokenInside(frame, 2);
    var last := frame[o..o + 4];
    assert last == TERMINATION && last[0] == frame[o] && last[1] == frame[o + 1] && last[2] == frame[o + 2];
    assert TerminatorAt(frame, o) && TerminatorAt(Message(ws), o);
  }

  /** The server takes a field from the message a client writes exactly when the verb is the
      expected one, what was typed is one token, and the message fits the buffer; then it has read
      the whole message, and the field is that token. */
  lemma ServerReads(verb: string, field: string, frame: string, expected: string)
    requires IsWord(verb) && Unterminated(verb) && Unterminated(field)
    requires frame == NextFrame(Message([verb, field]))
    ensures Carries(Tokens(frame), expected) <==> verb == expected && |Tokens(field)| == 1 && |Message([verb, field])| <= FRAME_LIMIT
    ensures Carries(Tokens(frame), expected) ==> frame == Message([verb, field]) && Tokens(field) == [Tokens(frame)[1]]
  {
    var msg := Message([verb, field]);
    FieldTokens(verb, field);
    ClosedEndsOnce([verb, field]);
    NextFrameExact(msg, "");
    assert msg + "" == msg;
    if Carries(Tokens(frame), expected) {
      CutOffRefused([verb, field], frame, expected);
    }
  }

  lemma MessageLength(verb: string, field: string)
    ensures |Message([verb, field])| == |verb| + |field| + 6
  {
    assert [verb, field][1..] == [field] && [field][1..] == [];
    assert |Spaced([field])| == |field| + 1;
  }

  lemma FieldTokens(verb: string, field: string)
    requires IsWord(verb)
    ensures Tokens(Message([verb, field])) == [verb] + Tokens(field) + [TERMINATION]
  {
    TokensOfSpaced([verb, field], TERMINATION);
    TokensOfWord(verb);
    assert TokensEach([field]) == Tokens(field) + TokensEach([]);
    assert [verb, field][1..] == [field];
  }

  /** The scanner never waits in the middle of a message the client wrote, and there is something
      in it to tokenise. */
  lemma MessageDelivered(ws: seq<string>)
    requires (forall i | 0 <= i < |ws| :: Unterminated(ws[i])) && ws != [] && IsWord(ws[0])
    ensures var f := NextFrame(Message(ws)); f != "" && (Terminated(f) || |f| == FRAME_LIMIT) && Receivable(f)
  {
    ClosedEndsOnce(ws);
    var n := Scan(Message(ws), 0);
    assert StopsAfter(Message(ws), n);
    NextFrameEndsOnce(Message(ws));
    assert NextFrame(Message(ws))[0] == ws[0][0] && ws[0][0] in ws[0];
  }

  lemma HelloRead()
    ensures NextFrame(Message(["WOLFIE"])) == Message(["WOLFIE"])
    ensures Tokens(Message(["WOLFIE"])) == ["WOLFIE", TERMINATION]
  {
    ClosedEndsOnce(["WOLFIE"]);
    assert |Spaced(["WOLFIE"])| == 7;
    NextFrameExact(Message(["WOLFIE"]), "");
    assert Message(["WOLFIE"]) + "" == Message(["WOLFIE"]);
    TokensOfSpaced(["WOLFIE"], TERMINATION);
    TokensOfWord("WOLFIE");
    assert TokensEach(["WOLFIE"]) == ["WOLFIE"] + [];
  }
}

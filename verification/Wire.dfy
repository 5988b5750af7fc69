/** The messages the server writes (server.c) and the text of each. */
module Wire {
  import opened Text
  import opened Framing

  datatype Msg =
    | Eiflow
    | Hinew(name: string)
    | Ssapwen
    | HiNew               // the HI of a new account carries no name
    | Auth(name: string)
    | Ssap
    | Hi(name: string)
    | Motd
    | Err(code: nat)
    | Bye
    | Uoff(name: string)
    | Emit(seconds: string)
    | Utsil(names: seq<string>)
    | Relay(text: string) // a MSG passed on as it was read

  /** Each name followed by a line break of its own. */
  function Lines(names: seq<string>): seq<string> {
    if names == [] then [] else [names[0], "\r\n"] + Lines(names[1..])
  }

  function ErrorWords(code: nat): seq<string> {
    if code == 0 then ["ERR", "00", "USER", "NAME", "TAKEN"]
    else if code == 1 then ["ERR", "01", "USER", "NOT", "AVAILABLE"]
    else if code == 2 then ["ERR", "02", "BAD", "PASSWORD"]
    else ["ERR", "100", "INTERNAL", "SERVER", "ERROR"]
  }

  function Words(motd: string, m: Msg): seq<string>
    requires !m.Relay?
  {
    match m
    case Eiflow => ["EIFLOW"]
    case Hinew(n) => ["HINEW", n]
    case Ssapwen => ["SSAPWEN"]
    case HiNew => ["HI"]
    case Auth(n) => ["AUTH", n]
    case Ssap => ["SSAP"]
    case Hi(n) => ["HI", n]
    case Motd => ["MOTD", motd]
    case Err(c) => ErrorWords(c)
    case Bye => ["BYE"]
    case Uoff(n) => ["UOFF", n]
    case Emit(t) => ["EMIT", t]
    case Utsil(ns) => ["UTSIL"] + Lines(ns)
  }

  function Render(motd: string, m: Msg): string {
    match m
    case Relay(text) => text
    case _ => Spaced(Words(motd, m)) + TERMINATION
  }

  // ---------- the texts in so many words ----------

  lemma SpacedTexts(v: string, w: string)
    ensures Spaced([v]) == v + " " && Spaced([v, w]) == v + " " + w + " "
  {
    assert [v][1..] == [] && [v, w][1..] == [w] && [w][1..] == [];
    assert Spaced([w]) == w + " " && v + " " + (w + " ") == v + " " + w + " ";
  }

  /** The messages without a field: EIFLOW, SSAPWEN, HI, SSAP, BYE. */
  lemma PlainTexts(motd: string)
    ensures Render(motd, Eiflow) == "EIFLOW" + " " + TERMINATION && Render(motd, Bye) == "BYE" + " " + TERMINATION
    ensures Render(motd, Ssapwen) == "SSAPWEN" + " " + TERMINATION && Render(motd, HiNew) == "HI" + " " + TERMINATION
    ensures Render(motd, Ssap) == "SSAP" + " " + TERMINATION
  {
    SpacedTexts("EIFLOW", "");
    SpacedTexts("BYE", "");
    SpacedTexts("SSAPWEN", "");
    SpacedTexts("HI", "");
    SpacedTexts("SSAP", "");
  }

  /** The messages with one: a name, the time, the message of the day. */
  lemma FieldTexts(motd: string, n: string)
    ensures Render(motd, Hinew(n)) == "HINEW" + " " + n + " " + TERMINATION && Render(motd, Auth(n)) == "AUTH" + " " + n + " " + TERMINATION
    ensures Render(motd, Hi(n)) == "HI" + " " + n + " " + TERMINATION && Render(motd, Uoff(n)) == "UOFF" + " " + n + " " + TERMINATION
    ensures Render(motd, Emit(n)) == "EMIT" + " " + n + " " + TERMINATION && Render(n, Motd) == "MOTD" + " " + n + " " + TERMINATION
  {
    SpacedTexts("HINEW", n);
    SpacedTexts("AUTH", n);
    SpacedTexts("HI", n);
    SpacedTexts("UOFF", n);
    SpacedTexts("EMIT", n);
    SpacedTexts("MOTD", n);
  }

  /** Names as loginProtocol accepts them. */
  ghost predicate CleanName(n: string) {
    IsWord(n) && Unterminated(n)
  }

  /** The names in a message are clean. The UOFF of a connection that never logged in carries
      the empty name. */
  ghost predicate CleanMsg(motd: string, m: Msg) {
    match m
    case Hinew(n) => CleanName(n)
    case Auth(n) => CleanName(n)
    case Hi(n) => CleanName(n)
    case Uoff(n) => n == "" || CleanName(n)
    case Emit(t) => CleanName(t)
    case Utsil(ns) => forall i | 0 <= i < |ns| :: CleanName(ns[i])
    case Motd => Unterminated(motd)
    case _ => true
  }

  lemma {:induction false} LinesUnterminated(names: seq<string>)
    requires forall i | 0 <= i < |names| :: CleanName(names[i])
    ensures forall i | 0 <= i < |Lines(names)| :: CleanName(Lines(names)[i])
  {
    if names != [] {
      LinesUnterminated(names[1..]);
    }
  }

  lemma WordsUnterminated(motd: string, m: Msg)
    requires !m.Relay? && CleanMsg(motd, m)
    ensures forall i | 0 <= i < |Words(motd, m)| :: Unterminated(Words(motd, m)[i])
  {
    if m.Utsil? {
      LinesUnterminated(m.names);
    }
  }

  /** Message hygiene: the terminator ends each message and occurs nowhere else in it. */
  lemma MessageEndsOnce(motd: string, m: Msg)
    requires !m.Relay? && CleanMsg(motd, m)
    ensures Terminated(Render(motd, m)) && EndsOnce(Render(motd, m))
  {
    WordsUnterminated(motd, m);
    ClosedEndsOnce(Words(motd, m));
  }

  /** Tokenising a message gives back the words it was built from, then the terminator. */
  lemma MessageTokens(motd: string, m: Msg)
    requires !m.Relay?
    ensures Tokens(Render(motd, m)) == TokensEach(Words(motd, m)) + [TERMINATION]
  {
    TokensOfSpaced(Words(motd, m), TERMINATION);
  }

  lemma ErrorTokens(motd: string, code: nat)
    ensures Tokens(Render(motd, Err(code))) == ErrorWords(code) + [TERMINATION]
  {
    MessageTokens(motd, Err(code));
    ErrorWordsPlain(code);
    TokensEachOfWords(ErrorWords(code));
  }

  lemma ErrorWordsPlain(code: nat)
    ensures forall i | 0 <= i < |ErrorWords(code)| :: IsWord(ErrorWords(code)[i])
  {
  }

  /** The error messages, as their tokens. */
  lemma ErrorTexts(motd: string)
    ensures Tokens(Render(motd, Err(0))) == ["ERR", "00", "USER", "NAME", "TAKEN", TERMINATION]
    ensures Tokens(Render(motd, Err(1))) == ["ERR", "01", "USER", "NOT", "AVAILABLE", TERMINATION]
    ensures Tokens(Render(motd, Err(2))) == ["ERR", "02", "BAD", "PASSWORD", TERMINATION]
    ensures Tokens(Render(motd, Err(100))) == ["ERR", "100", "INTERNAL", "SERVER", "ERROR", TERMINATION]
  {
    ErrorTokens(motd, 0);
    ErrorTokens(motd, 1);
    ErrorTokens(motd, 2);
    ErrorTokens(motd, 100);
  }

  /** A LISTU reply is read whole exactly when it fits the client's buffer, and its tokens are
      then the listed names in order, a line break after each. */
  lemma UtsilReadBack(motd: string, names: seq<string>, rest: string)
    requires forall i | 0 <= i < |names| :: CleanName(names[i])
    ensures var text := Render(motd, Utsil(names));
            && (NextFrame(text + rest) == text <==> |text| <= FRAME_LIMIT)
            && Tokens(text) == ["UTSIL"] + Lines(names) + [TERMINATION]
            && |Lines(names)| == 2 * |names|
            && forall i | 0 <= i < |names| :: Tokens(text)[1 + 2 * i] == names[i] && Tokens(text)[2 + 2 * i] == "\r\n"
  {
    MessageEndsOnce(motd, Utsil(names));
    NextFrameExact(Render(motd, Utsil(names)), rest);
    MessageTokens(motd, Utsil(names));
    LinesUnterminated(names);
    TokensEachOfWords(["UTSIL"] + Lines(names));
    LinesAt(names);
  }

  lemma {:induction false} LinesAt(names: seq<string>)
    ensures |Lines(names)| == 2 * |names|
    ensures forall i | 0 <= i < |names| :: Lines(names)[2 * i] == names[i] && Lines(names)[2 * i + 1] == "\r\n"
  {
    if names != [] {
      LinesAt(names[1..]);
      forall i | 0 <= i < |names| ensures Lines(names)[2 * i] == names[i] && Lines(names)[2 * i + 1] == "\r\n" {
        if i > 0 {
          assert names[i] == names[1..][i - 1] && Lines(names)[2 * i] == Lines(names[1..])[2 * (i - 1)];
        }
      }
    }
  }

  function RenderAll(motd: string, ms: seq<Msg>): seq<string> {
    seq(|ms|, i requires 0 <= i < |ms| => Render(motd, ms[i]))
  }

  /** The byte stream of any written messages is cut back into exactly these messages, as long
      as each fits a buffer. */
  lemma MessagesReadBack(motd: string, ms: seq<Msg>, tail: string)
    requires forall i | 0 <= i < |ms| :: !ms[i].Relay? && CleanMsg(motd, ms[i]) && |Render(motd, ms[i])| <= FRAME_LIMIT
    ensures ReadAll(Concat(RenderAll(motd, ms)) + tail) == RenderAll(motd, ms) + ReadAll(tail)
  {
    var fs := RenderAll(motd, ms);
    forall f | f in fs ensures IsFrame(f) {
      var i :| 0 <= i < |ms| && fs[i] == f;
      MessageEndsOnce(motd, ms[i]);
    }
    FramesRoundTrip(fs, tail);
  }

  /** validateMessage */
  predicate Validate(msg: seq<string>, verb: string) {
    msg != [] && msg[0] == verb && msg[|msg| - 1] == TERMINATION
  }

  /** A three-token message of a given verb, the only shape that carries a name or a password. */
  predicate Carries(msg: seq<string>, verb: string) {
    Validate(msg, verb) && |msg| == 3
  }

  /** What a message carries leaves room in a buffer for a salt. */
  lemma CarriedFits(f: string, verb: string)
    requires |f| <= FRAME_LIMIT && Carries(Tokens(f), verb)
    ensures |Tokens(f)[1]| + 8 <= MAX_INPUT
  {
    var ts := Tokens(f);
    TokensLength(f);
    assert ts[0] in ts && ts[1..][1..] == [TERMINATION];
    assert TotalLength(ts) == |ts[0]| + (|ts[1]| + TotalLength([TERMINATION]));
  }

  /** What a login message carries is a word without terminator: every accepted name is clean. */
  lemma CarriedWordClean(f: string, verb: string)
    requires EndsOnce(f) && Carries(Tokens(f), verb)
    ensures CleanName(Tokens(f)[1])
  {
    InnerTokenUnterminated(f, 1);
    assert Tokens(f)[1] in Tokens(f);
  }
}

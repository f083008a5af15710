/** The conversation side of the client (client/src/App.jsx): the transcript, the
    input box, the `loading` flag and the mood log, and `sendMessage`, which
    appends the user's message, awaits the server and appends the reply (and a
    mood sample) or a fixed apology. The server's answer is an input: either a
    reply with its mood score, or a failure (a rejected request). */
module Conversation {
  import opened Wrappers
  import opened JsonValues
  import opened Mood

  datatype Sender = User | Ai

  datatype Message = Message(sender: Sender, text: string)

  const Greeting := Message(Ai, "Hi, I'm MindEase. How are you feeling today?")
  const TurnFailedText := "Sorry, server error. Try again later."

  /** How the request to /chat ended: the `reply` and `moodScore` fields of a
      successful answer, or an exception (network error, non-2xx status). */
  datatype ChatOutcome = Replied(reply: string, moodScore: Option<int>) | Failed

  datatype SessionState = SessionState(messages: seq<Message>, input: string,
                                       loading: bool, moodHistory: seq<MoodSample>)

  // ------------------------------------------------------- String.trim()

  /** The characters `String.prototype.trim` removes: ECMAScript's WhiteSpace
      (tab, vertical tab, form feed, space, no-break space, byte order mark and
      the other space separators) and LineTerminator characters. */
  const JsWhitespace: set<char> :=
    {'\t', '\n', '\U{000B}', '\U{000C}', '\r', ' ', '\U{00A0}', '\U{1680}',
     '\U{2000}', '\U{2001}', '\U{2002}', '\U{2003}', '\U{2004}', '\U{2005}',
     '\U{2006}', '\U{2007}', '\U{2008}', '\U{2009}', '\U{200A}',
     '\U{2028}', '\U{2029}', '\U{202F}', '\U{205F}', '\U{3000}', '\U{FEFF}'}

  predicate IsJsWhitespace(c: char) {
    c in JsWhitespace
  }

  /** Drops leading whitespace. */
  function TrimStart(s: string): string {
    if s != [] && IsJsWhitespace(s[0]) then TrimStart(s[1..]) else s
  }

  /** Drops trailing whitespace. */
  function TrimEnd(s: string): string {
    if s != [] && IsJsWhitespace(s[|s| - 1]) then TrimEnd(s[..|s| - 1]) else s
  }

  /** `String.prototype.trim` */
  function Trim(s: string): string {
    TrimStart(TrimEnd(s))
  }

  /** `!input.trim()` */
  predicate IsBlank(s: string) {
    Trim(s) == ""
  }

  /** `TrimStart` keeps a suffix of its input that does not start with
      whitespace, and everything it drops is whitespace. */
  lemma {:induction false} TrimStartDropsLeadingWhitespace(s: string)
    ensures var r := TrimStart(s);
      && |r| <= |s| && r == s[|s| - |r|..]
      && (r != [] ==> !IsJsWhitespace(r[0]))
      && forall i | 0 <= i < |s| - |r| :: IsJsWhitespace(s[i])
  {
    if s != [] && IsJsWhitespace(s[0]) {
      TrimStartDropsLeadingWhitespace(s[1..]);
    }
  }

  /** `TrimEnd` keeps a prefix of its input that does not end with
      whitespace, and everything it drops is whitespace. */
  lemma {:induction false} TrimEndDropsTrailingWhitespace(s: string)
    ensures var r := TrimEnd(s);
      && |r| <= |s| && r == s[..|r|]
      && (r != [] ==> !IsJsWhitespace(r[|r| - 1]))
      && forall i | |r| <= i < |s| :: IsJsWhitespace(s[i])
  {
    if s != [] && IsJsWhitespace(s[|s| - 1]) {
      TrimEndDropsTrailingWhitespace(s[..|s| - 1]);
    }
  }

  /** The input is blank exactly when every character of it is whitespace. */
  lemma BlankIffAllWhitespace(s: string)
    ensures IsBlank(s) <==> forall i | 0 <= i < |s| :: IsJsWhitespace(s[i])
  {
    if IsBlank(s) {
      BlankOnlyWhitespace(s);
    } else {
      NonBlankHasNonWhitespace(s);
    }
  }

  /** A blank input holds nothing but whitespace. */
  lemma BlankOnlyWhitespace(s: string)
    requires IsBlank(s)
    ensures forall i | 0 <= i < |s| :: IsJsWhitespace(s[i])
  {
    var t := TrimEnd(s);
    TrimEndDropsTrailingWhitespace(s);
    TrimStartDropsLeadingWhitespace(t);
    assert t == [];
  }

  /** A non-blank input keeps a character that is not whitespace. */
  lemma NonBlankHasNonWhitespace(s: string)
    requires !IsBlank(s)
    ensures exists i | 0 <= i < |s| :: !IsJsWhitespace(s[i])
  {
    var t := TrimEnd(s);
    TrimEndDropsTrailingWhitespace(s);
    assert t != [];
    assert !IsJsWhitespace(t[|t| - 1]);
    assert s[|t| - 1] == t[|t| - 1];
  }

  // ------------------------------------------------------------ one turn

  function Initial(history: seq<MoodSample>): SessionState {
    SessionState([Greeting], "", false, history)
  }

  /** The synchronous start of `sendMessage` on a non-blank input. */
  function Begin(st: SessionState): SessionState {
    st.(messages := st.messages + [Message(User, st.input)], input := "", loading := true)
  }

  /** What follows the awaited request: the `try` branch or the `catch`
      branch, then the `finally`. */
  function Settle(st: SessionState, outcome: ChatOutcome, now: string): SessionState {
    match outcome
    case Replied(reply, moodScore) =>
      st.(messages := st.messages + [Message(Ai, reply)],
          moodHistory := st.moodHistory + [MoodSample(moodScore, now)],
          loading := false)
    case Failed =>
      st.(messages := st.messages + [Message(Ai, TurnFailedText)], loading := false)
  }

  /** A whole turn. A blank input changes nothing. Otherwise exactly one user
      message carrying the untrimmed input and exactly one AI message are
      appended, in that order, the earlier transcript is untouched, the input is
      cleared and `loading` ends false; a mood sample is appended only on a
      reply, and a failure leaves the mood log as it was. */
  function Send(st: SessionState, outcome: ChatOutcome, now: string): (r: SessionState)
    ensures IsBlank(st.input) ==> r == st
    ensures !IsBlank(st.input) ==>
      && |r.messages| == |st.messages| + 2
      && r.messages[..|st.messages|] == st.messages
      && r.messages[|st.messages|] == Message(User, st.input)
      && r.messages[|st.messages| + 1].sender == Ai
      && r.input == ""
      && !r.loading
    ensures !IsBlank(st.input) && outcome.Replied? ==>
      r.messages[|st.messages| + 1].text == outcome.reply &&
      r.moodHistory == st.moodHistory + [MoodSample(outcome.moodScore, now)]
    ensures !IsBlank(st.input) && outcome.Failed? ==>
      r.messages[|st.messages| + 1].text == TurnFailedText && r.moodHistory == st.moodHistory
  {
    if IsBlank(st.input) then st else Settle(Begin(st), outcome, now)
  }

  // ------------------------------------------------------- many turns

  /** What the user can do: type into the box, or send (with how the request
      ends and the clock at that moment). */
  datatype UiAction = Type(text: string) | Submit(outcome: ChatOutcome, now: string)

  function Step(st: SessionState, a: UiAction): SessionState {
    match a
    case Type(text) => st.(input := text)
    case Submit(outcome, now) => Send(st, outcome, now)
  }

  function Run(st: SessionState, actions: seq<UiAction>): SessionState
    decreases |actions|
  {
    if actions == [] then st else Run(Step(st, actions[0]), actions[1..])
  }

  /** The transcript and the mood log only grow at the end: whatever they held
      before stays, in place, after any sequence of actions. */
  lemma {:induction false} RunOnlyAppends(st: SessionState, actions: seq<UiAction>)
    ensures st.messages <= Run(st, actions).messages
    ensures st.moodHistory <= Run(st, actions).moodHistory
    decreases |actions|
  {
    if actions != [] {
      var next := Step(st, actions[0]);
      RunOnlyAppends(next, actions[1..]);
      if actions[0].Submit? && !IsBlank(st.input) {
        assert next.messages[..|st.messages|] == st.messages;
      }
    }
  }

  /** The number of sends among `actions` that found a non-blank input. */
  function Turns(st: SessionState, actions: seq<UiAction>): nat
    decreases |actions|
  {
    if actions == [] then 0
    else (if actions[0].Submit? && !IsBlank(st.input) then 1 else 0) + Turns(Step(st, actions[0]), actions[1..])
  }

  /** Each turn adds exactly two messages (one user, one AI) and at most one
      mood sample; typing and blank sends add nothing. A session that starts
      idle ends idle: no turn is left loading. */
  lemma {:induction false} RunCountsTurns(st: SessionState, actions: seq<UiAction>)
    ensures |Run(st, actions).messages| == |st.messages| + 2 * Turns(st, actions)
    ensures |st.moodHistory| <= |Run(st, actions).moodHistory| <= |st.moodHistory| + Turns(st, actions)
    ensures !st.loading ==> !Run(st, actions).loading
    decreases |actions|
  {
    if actions != [] {
      var next := Step(st, actions[0]);
      StepCountsTurn(st, actions[0]);
      RunCountsTurns(next, actions[1..]);
    }
  }

  /** One action: a send on a non-blank input adds two messages and at most
      one sample; anything else adds neither. */
  lemma StepCountsTurn(st: SessionState, a: UiAction)
    ensures var turn := a.Submit? && !IsBlank(st.input);
      && |Step(st, a).messages| == |st.messages| + (if turn then 2 else 0)
      && |st.moodHistory| <= |Step(st, a).moodHistory| <= |st.moodHistory| + (if turn then 1 else 0)
      && (!st.loading ==> !Step(st, a).loading)
  {
  }

  /** From the start of the page, the greeting is always the first message. */
  lemma GreetingStaysFirst(history: seq<MoodSample>, actions: seq<UiAction>)
    ensures |Run(Initial(history), actions).messages| >= 1
    ensures Run(Initial(history), actions).messages[0] == Greeting
  {
    RunOnlyAppends(Initial(history), actions);
  }

  // ------------------------------------------------------ the component

  /** The `App` component's state. `stored` is the "moodHistory" entry of
      local storage, which the persistence effect rewrites whenever the mood
      log changes. */
  class Session {
    var messages: seq<Message>
    var input: string
    var loading: bool
    var moodHistory: seq<MoodSample>
    var stored: Option<string>
    const stringify: Json -> string

    ghost function State(): SessionState
      reads this
    {
      SessionState(messages, input, loading, moodHistory)
    }

    /** The greeting opens the transcript, and storage holds the current log. */
    ghost predicate Valid()
      reads this
    {
      && messages != []
      && messages[0] == Greeting
      && stored == Some(StoredText(moodHistory, stringify))
    }

    /** Mounting: one greeting, an empty box, not loading, the log loaded from
        storage (never failing), and the mount-time write of that log. */
    constructor (storedAtStart: Option<string>, parse: string -> Parsed, stringify: Json -> string)
      ensures Valid()
      ensures State() == Initial(LoadHistory(storedAtStart, parse))
      ensures this.stringify == stringify
    {
      messages := [Greeting];
      input := "";
      loading := false;
      moodHistory := LoadHistory(storedAtStart, parse);
      this.stringify := stringify;
      stored := Some(StoredText(LoadHistory(storedAtStart, parse), stringify));
    }

    /** The input box's `onChange`. */
    method Edit(text: string)
      requires Valid()
      modifies this
      ensures Valid()
      ensures State() == old(State()).(input := text)
      ensures stored == old(stored)
    {
      input := text;
    }

    /** The synchronous part of `sendMessage`, up to the request. */
    method BeginTurn() returns (started: bool)
      requires Valid()
      modifies this
      ensures Valid()
      ensures started == !IsBlank(old(input))
      ensures State() == if started then Begin(old(State())) else old(State())
      ensures stored == old(stored)
    {
      var text := input;
      started := !IsBlank(text);
      if started {
        messages := messages + [Message(User, text)];
        input := "";
        loading := true;
      }
    }

    /** The awaited part of `sendMessage`, once the request has ended. */
    method SettleTurn(outcome: ChatOutcome, now: string)
      requires Valid()
      modifies this
      ensures Valid()
      ensures State() == Settle(old(State()), outcome, now)
    {
      match outcome {
        case Replied(reply, moodScore) =>
          messages := messages + [Message(Ai, reply)];
          moodHistory := moodHistory + [MoodSample(moodScore, now)];
          stored := Some(StoredText(moodHistory, stringify));
        case Failed =>
          messages := messages + [Message(Ai, TurnFailedText)];
      }
      loading := false;
    }

    /** `sendMessage`, start to finish. */
    method SendMessage(outcome: ChatOutcome, now: string)
      requires Valid()
      modifies this
      ensures Valid()
      ensures State() == Send(old(State()), outcome, now)
    {
      var started := BeginTurn();
      if started {
        SettleTurn(outcome, now);
      }
    }
  }

  /** What a reload after any session reads from storage is the session's
      current mood log. */
  lemma ReloadSeesCurrentLog(s: Session, parse: string -> Parsed)
    requires s.Valid()
    requires parse(StoredText(s.moodHistory, s.stringify)) == ParsedValue(EncodeHistory(s.moodHistory))
    ensures LoadHistory(s.stored, parse) == s.moodHistory
  {
    ReloadRestores(s.moodHistory, parse, s.stringify);
  }
}

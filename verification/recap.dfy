/** The rolling recap of a session transcript: old messages are folded into a summary and only
    a live window of recent ones is shown raw. */
module Recap {
  import opened Text

  const RAW_TAIL := 8
  const MIN_NEW := 8
  const MAX_FOLD := 40
  const MSG_CHARS := 400

  datatype Message = Message(role: string, content: string)

  /** The part of the session state that the recap reads and writes; `upto` is stored unchecked. */
  datatype State = State(messages: seq<Message>, summary: string, upto: int)

  /** How the summarising call ends: no credentials, a failure, or a text. */
  datatype Outcome = NoCredentials | Failed | Text(summary: string)

  function PrefixLen(s: State): nat {
    if |s.messages| > RAW_TAIL then |s.messages| - RAW_TAIL else 0
  }

  /** How many leading messages count as folded. */
  function Folded(s: State): (upto: nat)
    ensures upto <= PrefixLen(s)
  {
    var upto := if s.upto < 0 then 0 else s.upto;
    if upto < PrefixLen(s) then upto else PrefixLen(s)
  }

  /** Where the live window starts. */
  function LiveFrom(s: State): (from: nat)
    ensures from <= |s.messages|
  {
    var cap := |s.messages| - (RAW_TAIL + MIN_NEW - 1);
    if Folded(s) > cap then Folded(s) else cap
  }

  function Live(s: State): seq<Message> {
    s.messages[LiveFrom(s)..]
  }

  predicate Due(s: State) {
    PrefixLen(s) - Folded(s) >= MIN_NEW
  }

  /** Where the slice that a fold reads starts: at most the last 40 aged messages are read. */
  function FoldFrom(s: State): (from: nat)
    ensures Folded(s) <= from <= PrefixLen(s)
  {
    if PrefixLen(s) - MAX_FOLD > Folded(s) then PrefixLen(s) - MAX_FOLD else Folded(s)
  }

  function FoldSlice(s: State): seq<Message> {
    s.messages[FoldFrom(s)..PrefixLen(s)]
  }

  /** Only the user's and the assistant's non-blank messages are summarised, cut to 400 characters. */
  function Payload(messages: seq<Message>): seq<Message> {
    if messages == [] then []
    else
      var m := messages[0];
      if m.role in {"user", "assistant"} && Strip(m.content) != "" then
        [Message(m.role, if |m.content| <= MSG_CHARS then m.content else m.content[..MSG_CHARS])] + Payload(messages[1..])
      else Payload(messages[1..])
  }

  /** One run of the recap node. */
  function Step(s: State, o: Outcome): State {
    if !Due(s) || o.NoCredentials? then s
    else if Payload(FoldSlice(s)) == [] then s.(upto := PrefixLen(s))
    else if o.Failed? || Strip(o.summary) == "" then s
    else s.(summary := Strip(o.summary), upto := PrefixLen(s))
  }

  /** The fold goes through: there is nothing to summarise, or the call returns a text. */
  predicate Succeeds(s: State, o: Outcome) {
    !o.NoCredentials? && (Payload(FoldSlice(s)) == [] || (o.Text? && Strip(o.summary) != ""))
  }

  // ----- runs of turns -----

  /** One turn: the messages added since the last recap, and how the recap call ends. */
  datatype Turn = Turn(added: seq<Message>, outcome: Outcome)

  function Grown(s: State, t: Turn): State {
    s.(messages := s.messages + t.added)
  }

  function After(s: State, t: Turn): State {
    Step(Grown(s, t), t.outcome)
  }

  /** What the turn's fold reads. */
  function ReadBy(s: State, t: Turn): seq<Message> {
    var g := Grown(s, t);
    if Due(g) && Succeeds(g, t.outcome) then FoldSlice(g) else []
  }

  function Run(s: State, turns: seq<Turn>): State
    decreases turns
  {
    if turns == [] then s else Run(After(s, turns[0]), turns[1..])
  }

  function ReadDuring(s: State, turns: seq<Turn>): seq<Message>
    decreases turns
  {
    if turns == [] then [] else ReadBy(s, turns[0]) + ReadDuring(After(s, turns[0]), turns[1..])
  }

  /** What was said in the turns. */
  function Transcript(turns: seq<Turn>): seq<Message>
    decreases turns
  {
    if turns == [] then [] else turns[0].added + Transcript(turns[1..])
  }

  /** A session starts with an empty transcript. */
  const Start := State([], "", 0)

  // ----- what a fold is told -----

  /** The message counts for the summary. */
  predicate Tells(m: Message) {
    (m.role == "user" || m.role == "assistant") && !Blank(m.content)
  }

  lemma {:induction false} PayloadAppend(messages: seq<Message>, m: Message)
    ensures Payload(messages + [m]) == Payload(messages) + Payload([m])
  {
    hide Strip;
    if messages != [] {
      assert (messages + [m])[1..] == messages[1..] + [m];
      PayloadAppend(messages[1..], m);
    } else {
      assert messages + [m] == [m];
    }
  }

  /** A fold is told, in order, every message of the user and the assistant that is not blank, by its first
      400 characters. */
  lemma PayloadOf(messages: seq<Message>, m: Message)
    ensures Payload([]) == []
    ensures Payload(messages + [m]) ==
            if Tells(m) then Payload(messages) + [Message(m.role, m.content[..if |m.content| < 400 then |m.content| else 400])]
            else Payload(messages)
  {
    PayloadAppend(messages, m);
    BlankStrips(m.content);
    hide Strip, Blank;
    assert m.content[..|m.content|] == m.content;
    assert [m][1..] == [];
    assert Payload(messages) + [] == Payload(messages);
  }

  // ----- coverage -----

  /** The fold point lies in the aged part of the transcript. */
  predicate Regular(s: State) {
    0 <= s.upto <= PrefixLen(s)
  }

  /** Between turns fewer than eight aged messages wait to be folded. */
  predicate Settled(s: State) {
    Regular(s) && PrefixLen(s) - s.upto < MIN_NEW
  }

  /** Everything the folds have read so far, followed by the live window, is the transcript. */
  predicate Covers(read: seq<Message>, s: State) {
    read == s.messages[..Folded(s)] && read + Live(s) == s.messages
  }

  /** The live window never exceeds 15 messages, whatever the recap calls do. */
  lemma LiveIsBounded(s: State)
    ensures |Live(s)| <= 15
  {
  }

  /** The live window is exactly the unfolded tail when fewer than eight messages wait, and only then. */
  lemma LiveIsTailIff(s: State)
    ensures Live(s) == s.messages[Folded(s)..] <==> !Due(s)
  {
    if Due(s) {
      assert |Live(s)| < |s.messages[Folded(s)..]|;
    }
  }

  lemma RegularAfter(s: State, t: Turn)
    requires Regular(s)
    ensures Regular(After(s, t))
  {
  }

  /** The fold of this turn takes in no more than it can read. */
  predicate FoldFits(s: State, t: Turn) {
    var g := Grown(s, t);
    Due(g) && Succeeds(g, t.outcome) ==> PrefixLen(g) - Folded(g) <= MAX_FOLD
  }

  /** Every fold of the run that goes through does. */
  predicate NoSkip(s: State, turns: seq<Turn>)
    decreases turns
  {
    turns == [] || (FoldFits(s, turns[0]) && NoSkip(After(s, turns[0]), turns[1..]))
  }

  /** What the folds have read is what lies before the fold point, or for ever shorter. */
  predicate Exact(read: seq<Message>, s: State) {
    read == s.messages[..Folded(s)]
  }

  predicate Short(read: seq<Message>, s: State) {
    |read| < Folded(s)
  }

  lemma TurnReads(s: State, t: Turn, read: seq<Message>)
    requires Regular(s) && Exact(read, s)
    ensures var all := read + ReadBy(s, t);
            if FoldFits(s, t) then Exact(all, After(s, t)) else Short(all, After(s, t))
  {
    var g := Grown(s, t);
    assert g.messages[..s.upto] == s.messages[..s.upto];
    if Due(g) && Succeeds(g, t.outcome) {
      assert After(s, t).upto == PrefixLen(g);
      if FoldFits(s, t) {
        assert g.messages[..s.upto] + g.messages[s.upto..PrefixLen(g)] == g.messages[..PrefixLen(g)];
      }
    } else {
      assert read + [] == read;
    }
  }

  lemma ShortStays(s: State, t: Turn, read: seq<Message>)
    requires Regular(s) && Short(read, s)
    ensures Short(read + ReadBy(s, t), After(s, t))
  {
  }

  lemma {:induction false} RunStaysShort(s: State, turns: seq<Turn>, read: seq<Message>)
    requires Regular(s) && Short(read, s)
    ensures Regular(Run(s, turns)) && Short(read + ReadDuring(s, turns), Run(s, turns))
    decreases turns
  {
    if turns == [] {
      assert read + [] == read;
    } else {
      var t := turns[0];
      RegularAfter(s, t);
      ShortStays(s, t, read);
      hide Regular, Short, After, ReadBy;
      RunStaysShort(After(s, t), turns[1..], read + ReadBy(s, t));
      Regroup(read, ReadBy(s, t), ReadDuring(After(s, t), turns[1..]));
    }
  }

  lemma {:induction false} RunReads(s: State, turns: seq<Turn>, read: seq<Message>)
    requires Regular(s) && Exact(read, s)
    ensures Regular(Run(s, turns))
    ensures var all := read + ReadDuring(s, turns);
            if NoSkip(s, turns) then Exact(all, Run(s, turns)) else Short(all, Run(s, turns))
    decreases turns
  {
    if turns == [] {
      assert read + [] == read;
    } else {
      var t := turns[0];
      RegularAfter(s, t);
      TurnReads(s, t, read);
      hide Regular, Exact, Short, After, ReadBy, FoldFits;
      if FoldFits(s, t) {
        RunReads(After(s, t), turns[1..], read + ReadBy(s, t));
      } else {
        RunStaysShort(After(s, t), turns[1..], read + ReadBy(s, t));
      }
      Regroup(read, ReadBy(s, t), ReadDuring(After(s, t), turns[1..]));
    }
  }

  lemma WindowCompletes(s: State, read: seq<Message>)
    ensures Exact(read, s) ==> (read + Live(s) == s.messages <==> !Due(s))
    ensures Short(read, s) ==> read + Live(s) != s.messages
  {
    LiveIsTailIff(s);
    assert s.messages[..Folded(s)] + s.messages[Folded(s)..] == s.messages;
    if Short(read, s) || (Exact(read, s) && Due(s)) {
      assert |read + Live(s)| < |s.messages|;
    }
  }

  lemma {:induction false} RunSays(s: State, turns: seq<Turn>)
    ensures Run(s, turns).messages == s.messages + Transcript(turns)
    decreases turns
  {
    if turns != [] {
      RunSays(After(s, turns[0]), turns[1..]);
      Regroup(s.messages, turns[0].added, Transcript(turns[1..]));
    }
  }

  /** Over any run of turns from an empty session, whatever their length and however their recaps end,
      what the folds read followed by the live window is the whole transcript exactly when every fold
      that went through had at most 40 messages waiting and none is due in the end. */
  lemma TranscriptCoveredIff(turns: seq<Turn>)
    ensures ReadDuring(Start, turns) + Live(Run(Start, turns)) == Transcript(turns) <==>
            NoSkip(Start, turns) && !Due(Run(Start, turns))
  {
    RunReads(Start, turns, []);
    RunSays(Start, turns);
    assert [] + ReadDuring(Start, turns) == ReadDuring(Start, turns);
    WindowCompletes(Run(Start, turns), ReadDuring(Start, turns));
  }

  /** One turn from a covered state keeps the transcript covered exactly when no fold was due, or it went
      through and had at most 40 messages waiting. */
  lemma TurnKeepsCoverage(s: State, t: Turn, read: seq<Message>)
    requires Regular(s) && Covers(read, s)
    ensures Covers(read + ReadBy(s, t), After(s, t)) <==>
            var g := Grown(s, t);
            !Due(g) || (Succeeds(g, t.outcome) && PrefixLen(g) - s.upto <= MAX_FOLD)
    ensures Settled(After(s, t)) <==> !Due(Grown(s, t)) || Succeeds(Grown(s, t), t.outcome)
  {
    TurnReads(s, t, read);
    var after := After(s, t);
    WindowCompletes(after, read + ReadBy(s, t));
    hide ReadBy, Live;
    assert Due(after) <==> Due(Grown(s, t)) && !Succeeds(Grown(s, t), t.outcome);
  }

  /** Every turn succeeds and adds at most 33 messages. */
  predicate Smooth(s: State, turns: seq<Turn>)
    decreases turns
  {
    turns == [] ||
    (Succeeds(Grown(s, turns[0]), turns[0].outcome) && |turns[0].added| <= MAX_FOLD - MIN_NEW + 1
     && Smooth(After(s, turns[0]), turns[1..]))
  }

  lemma {:induction false} SmoothSkipsNothing(s: State, turns: seq<Turn>)
    requires Settled(s) && Smooth(s, turns)
    ensures NoSkip(s, turns) && Settled(Run(s, turns))
    decreases turns
  {
    if turns != [] {
      assert FoldFits(s, turns[0]) && Settled(After(s, turns[0]));
      hide FoldFits, Settled, After, Succeeds;
      SmoothSkipsNothing(After(s, turns[0]), turns[1..]);
    }
  }

  /** So with turns of at most 33 messages whose recaps succeed the transcript is always covered. */
  lemma TranscriptCovered(turns: seq<Turn>)
    requires Smooth(Start, turns)
    ensures ReadDuring(Start, turns) + Live(Run(Start, turns)) == Transcript(turns)
  {
    SmoothSkipsNothing(Start, turns);
    TranscriptCoveredIff(turns);
  }

  /** A turn leaves aged messages in neither the summary nor the window exactly when a fold was due and
      did not go through, whether for want of credentials, by a failure or by a blank answer. */
  lemma GapIff(s: State, t: Turn)
    requires Regular(s)
    ensures LiveFrom(After(s, t)) > Folded(After(s, t)) <==> Due(Grown(s, t)) && !Succeeds(Grown(s, t), t.outcome)
    ensures Due(Grown(s, t)) && !Succeeds(Grown(s, t), t.outcome) ==> After(s, t) == Grown(s, t)
  {
  }

  /** A later success folds what earlier failures left, up to 40 messages. */
  lemma LaterSuccessCatchesUp(s: State, o: Outcome)
    requires Regular(s) && Due(s) && Succeeds(s, o)
    ensures Step(s, o).upto == PrefixLen(s) && Live(Step(s, o)) == s.messages[PrefixLen(s)..]
    ensures FoldSlice(s) == s.messages[s.upto..PrefixLen(s)] <==> PrefixLen(s) - s.upto <= MAX_FOLD
  {
    if PrefixLen(s) - s.upto > MAX_FOLD {
      assert |FoldSlice(s)| == MAX_FOLD;
    }
  }
}

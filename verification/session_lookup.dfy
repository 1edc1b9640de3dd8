/** What a turn of a session looks up, and which angle a post is written to. */
module SessionLookup {
  import opened Wrappers
  import opened Text
  import opened Angles
  import opened SessionGraph

  /** The open turn so far: whether the rule and the router asked for facts, in which mode the router was
      asked, whether the turn did research, and the latest reply to the angles at hand. */
  datatype Notes = Notes(facts: Option<bool>, mode: Mode, researched: bool, reply: Option<string>)

  const NoNotes := Notes(None, Chatting, false, None)

  function Noting(t: Notes, c: Config, m: Move): Notes {
    match m
    case Message => NoNotes
    case Reply(text) => t.(reply := Some(text))
    case Run(a) =>
      if c.node.RouteIntent? then t.(facts := Some(c.s.rulePass && a.needFacts), mode := c.s.mode)
      else if c.node.QueryGenerator? then t.(researched := true)
      else if c.node.Brainstormer? then t.(reply := None)
      else t
  }

  function NotesOf(c: Config, t: Notes, moves: seq<Move>): Notes
    decreases |moves|
  {
    if moves == [] then t else NotesOf(Apply(c, moves[0]), Noting(t, c, moves[0]), moves[1..])
  }

  // ----- what is looked up -----

  /** Facts are looked up when the rule and the router ask for them, and only then; and the revision of a
      parked version is heard as one of a preview. */
  predicate Informed(c: Config, t: Notes) {
    if c.node.Done? then true
    else if IsOpening(c.node) then !t.researched && (c.past.held ==> c.s.mode == Previewing)
    else
      && (if c.node.QueryGenerator? then !t.researched && t.facts == Some(true) else t.facts == Some(t.researched))
      && (c.node.ResearchIngest? ==> t.researched)
      && (c.past.held ==> t.mode == Previewing)
  }

  lemma HeldStays(n: Node, s: State, past: Past, a: Answer)
    ensures SessionGraph.Noted(n, s, past, a).held == past.held
  {
  }

  lemma OpeningInforms(c: Config, t: Notes, a: Answer)
    requires Informed(c, t) && IsOpening(c.node)
    ensures Informed(Exec(c, a), Noting(t, c, Run(a)))
  {
    HeldStays(c.node, c.s, c.past, a);
    RouteOfIntent(IntentOf(c.s, a));
    hide IntentOf, RouteOf, SessionGraph.Noted;
  }

  lemma ResearchInforms(c: Config, t: Notes, a: Answer)
    requires Informed(c, t) && IsResearch(c.node)
    ensures Informed(Exec(c, a), Noting(t, c, Run(a)))
  {
    HeldStays(c.node, c.s, c.past, a);
    RouteOfIntent(c.s.intent);
    hide RouteOf, SessionGraph.Noted;
  }

  lemma LateRoutes(n: Node, s: State)
    requires !IsOpening(n) && !IsResearch(n)
    ensures !IsOpening(Next(n, s)) && !IsResearch(Next(n, s)) && (n.Done? ==> Next(n, s).Done?)
  {
  }

  lemma LateInforms(c: Config, t: Notes, a: Answer)
    requires Informed(c, t) && !IsOpening(c.node) && !IsResearch(c.node)
    ensures Informed(Exec(c, a), Noting(t, c, Run(a)))
  {
    HeldStays(c.node, c.s, c.past, a);
    LateRoutes(c.node, After(c.node, c.s, a));
    hide After, Next, SessionGraph.Noted;
  }

  lemma ExecInforms(c: Config, t: Notes, a: Answer)
    requires Informed(c, t)
    ensures Informed(Exec(c, a), Noting(t, c, Run(a)))
  {
    hide Informed, Exec, Noting;
    if IsOpening(c.node) {
      OpeningInforms(c, t, a);
    } else if IsResearch(c.node) {
      ResearchInforms(c, t, a);
    } else {
      LateInforms(c, t, a);
    }
  }

  // ----- what is picked -----

  /** What is chosen where: the reply at the gate, what it resolves to at the post, and nothing elsewhere. */
  predicate Picked(c: Config, t: Notes) {
    match c.node
    case AngleGate => c.s.chosen == (if t.reply.Some? then Strip(t.reply.value) else "")
    case ExecutorPost =>
      if Offered(c.s.angles) == [] then c.s.chosen == ""
      else t.reply.Some? && Resolve(Strip(t.reply.value), c.s.angles) == Some(c.s.chosen)
    case Brainstormer => c.s.chosen == "" && (t.reply.Some? ==> Resolve(Strip(t.reply.value), c.s.angles) == None)
    case _ => c.s.chosen == "" && (IsOpening(c.node) || IsGathering(c.node) || IsResearch(c.node) ==> t.reply.None?)
  }

  lemma NothingResolves(angles: seq<string>)
    ensures Resolve("", angles) == None
  {
    assert Words("") == [];
    assert Plain("") == "";
  }

  lemma StripTwice(s: string)
    ensures Strip(Strip(s)) == Strip(s) && Strip("") == ""
  {
    StripTrimmed(s);
    StripOfTrimmed(Strip(s));
    StripOfTrimmed("");
  }

  /** The gate passes on what its pick resolves to. */
  lemma GateMeaning(s: State, reply: string)
    requires s.chosen == Strip(reply)
    ensures var r, t := Resolve(Strip(reply), s.angles), s.(chosen := GateOf(s));
            t.chosen == (if r.Some? then r.value else "") && RouteAfterAngleGate(t) == (if r.Some? then ExecutorPost else Brainstormer)
    ensures Resolve(Strip(reply), s.angles).Some? ==> Offered(s.angles) != []
  {
    StripTwice(reply);
    NothingResolves(s.angles);
    PickIsOffered(Strip(reply), s.angles);
    hide Resolve, Strip, Blank;
    var r := Resolve(Strip(reply), s.angles);
    if r.Some? {
      BlankStrips(r.value);
      assert r.value in Offered(s.angles);
    }
  }

  lemma GateStep(c: Config, t: Notes, a: Answer)
    requires c.node.AngleGate?
    ensures var d := Exec(c, a);
            && d.s == c.s.(chosen := GateOf(c.s)) && d.node == RouteAfterAngleGate(d.s)
            && Noting(t, c, Run(a)) == t
  {
    hide GateOf, RouteAfterAngleGate, SessionGraph.Noted;
  }

  lemma PickedOf(d: Config, t: Notes, r: Option<string>)
    requires t.reply.Some? ==> r == Resolve(Strip(t.reply.value), d.s.angles)
    requires t.reply.None? ==> r == None
    requires d.s.chosen == (if r.Some? then r.value else "") && (r.Some? ==> Offered(d.s.angles) != [])
    requires d.node == (if r.Some? then ExecutorPost else Brainstormer)
    ensures Picked(d, t)
  {
    hide Resolve, Strip, Offered;
  }

  lemma ReplyOf(c: Config, t: Notes) returns (reply: string)
    requires c.node.AngleGate? && Picked(c, t)
    ensures reply == (if t.reply.Some? then t.reply.value else "") && c.s.chosen == Strip(reply)
  {
    reply := if t.reply.Some? then t.reply.value else "";
    StripTwice("");
    hide Strip;
  }

  lemma GatePicks(c: Config, t: Notes, a: Answer)
    requires c.node.AngleGate? && Picked(c, t)
    ensures Picked(Exec(c, a), Noting(t, c, Run(a)))
  {
    hide Resolve, Strip, Offered, GateOf, RouteAfterAngleGate, Exec, Noting, Picked;
    var reply := ReplyOf(c, t);
    StripTwice("");
    NothingResolves(c.s.angles);
    GateStep(c, t, a);
    GateMeaning(c.s, reply);
    PickedOf(Exec(c, a), t, Resolve(Strip(reply), c.s.angles));
  }

  lemma BriefPicks(c: Config, t: Notes, a: Answer)
    requires c.node.Brainstormer? && Picked(c, t)
    ensures Picked(Exec(c, a), Noting(t, c, Run(a)))
  {
    hide Resolve, Strip, Offered;
  }

  lemma ChosenStays(n: Node, s: State, a: Answer)
    requires !n.AngleGate? && !n.Brainstormer?
    ensures After(n, s, a).chosen == if n.ExecutorPost? then "" else s.chosen
  {
    hide IntentOf, EditedNeedImage;
  }

  /** Where the nodes other than these two lead. */
  lemma RestRoutes(n: Node, s: State)
    requires !n.AngleGate? && !n.Brainstormer?
    ensures var m := Next(n, s);
            && !m.AngleGate? && !m.ExecutorPost? && (m.Brainstormer? ==> IsGathering(n))
            && (IsOpening(m) || IsGathering(m) || IsResearch(m) ==> IsOpening(n) || IsGathering(n) || IsResearch(n))
  {
    RouteOfIntent(s.intent);
    hide RouteOf;
  }

  lemma RestPicks(c: Config, t: Notes, a: Answer)
    requires !c.node.AngleGate? && !c.node.Brainstormer? && Picked(c, t)
    ensures Picked(Exec(c, a), Noting(t, c, Run(a)))
  {
    ChosenStays(c.node, c.s, a);
    RestRoutes(c.node, After(c.node, c.s, a));
    hide After, Next, SessionGraph.Noted, Resolve, Offered, Strip;
  }

  lemma ExecPicks(c: Config, t: Notes, a: Answer)
    requires Picked(c, t)
    ensures Picked(Exec(c, a), Noting(t, c, Run(a)))
  {
    hide Picked, Exec, Noting;
    if c.node.AngleGate? {
      GatePicks(c, t, a);
    } else if c.node.Brainstormer? {
      BriefPicks(c, t, a);
    } else {
      RestPicks(c, t, a);
    }
  }

  // ----- sessions -----

  predicate NotesInv(c: Config, t: Notes) {
    Informed(c, t) && Picked(c, t)
  }

  lemma MoveKeepsNotes(c: Config, t: Notes, m: Move)
    requires NotesInv(c, t) && Enabled(c, m)
    ensures NotesInv(Apply(c, m), Noting(t, c, m))
  {
    hide Exec, Strip, Resolve, Offered;
    if m.Run? {
      hide Informed, Picked, Noting;
      ExecInforms(c, t, m.answer);
      ExecPicks(c, t, m.answer);
    }
  }

  lemma {:induction false} SessionKeepsNotes(c: Config, t: Notes, moves: seq<Move>)
    requires NotesInv(c, t) && Possible(c, moves)
    ensures NotesInv(Session(c, moves), NotesOf(c, t, moves))
    decreases |moves|
  {
    hide NotesInv, Apply, Enabled, Noting;
    if moves != [] {
      MoveKeepsNotes(c, t, moves[0]);
      SessionKeepsNotes(Apply(c, moves[0]), Noting(t, c, moves[0]), moves[1..]);
    }
  }

  /** In every session a post is written to the angle that the latest reply resolves to among those at
      hand, or to none when none was offered; and angles are thought up again only after a reply that
      resolves to none. */
  lemma PostIsPicked(moves: seq<Move>)
    requires Possible(Initial, moves)
    ensures var c, t := Session(Initial, moves), NotesOf(Initial, NoNotes, moves);
            && (c.node.ExecutorPost? ==>
                  if Offered(c.s.angles) == [] then c.s.chosen == ""
                  else t.reply.Some? && Resolve(Strip(t.reply.value), c.s.angles) == Some(c.s.chosen))
            && (c.node.Brainstormer? && t.reply.Some? ==> Resolve(Strip(t.reply.value), c.s.angles) == None)
  {
    SessionKeepsNotes(Initial, NoNotes, moves);
    hide Possible, Session, NotesOf, Informed, Offered, Resolve, Strip;
  }

  /** In every session a turn that has left the router and the research has done research exactly when the
      rule and the router asked for facts; and a message to a parked version is heard as one to a preview. */
  lemma ResearchIff(moves: seq<Move>)
    requires Possible(Initial, moves)
    ensures var c, t := Session(Initial, moves), NotesOf(Initial, NoNotes, moves);
            !c.node.Done? && !IsOpening(c.node) ==>
              && t.facts.Some? && (!IsResearch(c.node) ==> (t.researched <==> t.facts.value)) && (IsResearch(c.node) ==> t.facts.value)
              && (c.past.held ==> t.mode == Previewing)
  {
    SessionKeepsNotes(Initial, NoNotes, moves);
    hide Possible, Session, NotesOf, Picked;
  }
}

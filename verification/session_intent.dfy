/** Where a turn of a session goes: what the router heard decides which nodes it reaches, and what was
    asked for decides whether the version is rendered. */
module SessionIntent {
  import opened Wrappers
  import opened Text
  import opened Angles
  import opened SessionGraph

  /** What the intent router had before it. */
  datatype Heard = Heard(mode: Mode, rulePass: bool, answer: Answer)

  /** The open turn so far: what the router heard, what the product match said, whether a review has
      taken place and a draft was written, whether a picture was wanted from before and whether an
      edit asked for one, whether the turn revises a parked version, and whether it was rendered. */
  datatype Turn = Turn(
    heard: Option<Heard>, clarify: Option<bool>, reviewed: bool, drafted: bool, left: bool, asked: bool, held: bool, rendered: bool)

  const NoTurn := Turn(None, None, false, false, false, false, false, false)

  function Noting(t: Turn, c: Config, m: Move): Turn {
    match m
    case Message => NoTurn.(left := c.s.needImage, held := c.node == ExecutorImageGen)
    case Reply(_) => t
    case Run(a) =>
      match c.node
      case RouteIntent => t.(heard := Some(Heard(c.s.mode, c.s.rulePass, a)))
      case ProductMatcher => t.(clarify := Some(a.productClarify))
      case ExecutorPost => t.(drafted := true)
      case Reviewer => t.(reviewed := true)
      case EditCopy => t.(asked := t.asked || a.editAsksImage || a.userAsksImage)
      case ExecutorImageGen => t.(rendered := true)
      case _ => t
  }

  function Told(c: Config, t: Turn, moves: seq<Move>): Turn
    decreases |moves|
  {
    if moves == [] then t else Told(Apply(c, moves[0]), Noting(t, c, moves[0]), moves[1..])
  }

  // ----- what was heard -----

  function Said(h: Heard): Intent {
    if h.answer.route.Some? then h.answer.route.value else h.answer.guess
  }

  /** A clear wish for a new post; without a preview, a revision that sounds like one counts. */
  predicate Starts(h: Heard) {
    !h.answer.unclear && (Said(h) == ToStart || (Said(h) == ToRevise && h.mode != Previewing && h.answer.guess == ToStart))
  }

  /** A clear wish to revise the version in the preview. */
  predicate Revises(h: Heard) {
    !h.answer.unclear && Said(h) == ToRevise && h.mode == Previewing
  }

  predicate Confirms(h: Heard) {
    Said(h) == ToConfirm && h.mode == Previewing
  }

  predicate Acts(h: Heard) {
    Starts(h) || Revises(h) || Confirms(h)
  }

  /** The intent that the router stores means what was heard. */
  predicate Means(intent: Intent, h: Heard) {
    && (intent == ToStart <==> Starts(h))
    && (intent == ToRevise <==> Revises(h))
    && (intent == ToConfirm <==> Confirms(h))
  }

  lemma IntentMeans(s: State, a: Answer)
    ensures Means(IntentOf(s, a), Heard(s.mode, s.rulePass, a))
  {
  }

  // ----- where the turn is -----

  predicate IsDrafting(n: Node) {
    n.Brainstormer? || n.AngleGate? || n.ExecutorPost?
  }

  /** What the place of an open turn says about what was heard. */
  predicate Routed(n: Node, s: State, t: Turn) {
    if n.Done? then true
    else if IsOpening(n) then t.heard.None? && !t.reviewed && t.clarify.None?
    else t.heard.Some? && Placed(n, s, t, t.heard.value)
  }

  predicate Placed(n: Node, s: State, t: Turn, h: Heard) {
    if IsResearch(n) then
      && !t.reviewed && t.clarify.None? && s.mode == h.mode
      && Means(s.intent, h) && h.rulePass && h.answer.needFacts
    else if IsGathering(n) then !t.reviewed && t.clarify.None? && Starts(h)
    else if IsDrafting(n) then !t.reviewed && t.clarify == Some(false) && Starts(h)
    else if n.AckConfirm? then Confirms(h) && s.mode == Previewing
    else if n.Chat? then !Acts(h) || t.clarify == Some(true)
    else if n.EditCopy? && !t.reviewed then Revises(h) && s.mode == Previewing
    else (Starts(h) || Revises(h)) && (n.ReviewerFailBump? ==> t.reviewed)
  }

  /** The route of an intent that means what was heard. */
  lemma RouteIsPlaced(s: State, t: Turn, h: Heard)
    requires Means(s.intent, h) && s.mode == h.mode && !t.reviewed && t.clarify.None?
    ensures Placed(RouteOf(s.intent), s, t, h)
  {
  }

  lemma RouterRoutes(c: Config, t: Turn, a: Answer)
    requires c.node.RouteIntent? && Routed(c.node, c.s, t)
    ensures var d := Exec(c, a); Routed(d.node, d.s, Noting(t, c, Run(a)))
  {
    IntentMeans(c.s, a);
    var d, u, h := Exec(c, a), Noting(t, c, Run(a)), Heard(c.s.mode, c.s.rulePass, a);
    RouteIsPlaced(d.s, u, h);
    hide Means, IntentOf, RouteOf, Acts, Starts, Revises, Confirms;
    assert Means(d.s.intent, h);
    if d.node == QueryGenerator {
      assert d.s.rulePass && d.s.needFacts;
    } else {
      assert d.node == RouteOf(d.s.intent);
    }
    NoOpening(d.s.intent);
  }

  lemma NoOpening(intent: Intent)
    ensures var n := RouteOf(intent); !n.Done? && !IsOpening(n)
  {
  }

  lemma ExecRoutes(c: Config, t: Turn, a: Answer)
    requires Routed(c.node, c.s, t)
    ensures var d := Exec(c, a); Routed(d.node, d.s, Noting(t, c, Run(a)))
  {
    hide Starts, Revises, Confirms, Means, Strip, Offered, Resolve;
    if c.node.RouteIntent? {
      RouterRoutes(c, t, a);
    } else if c.node.ResearchIngest? {
      RouteIsPlaced(c.s, t, t.heard.value);
      NoOpening(c.s.intent);
    } else if IsDrafting(c.node) {
      AngleRoutes(After(c.node, c.s, a));
      hide RouteAfterAngleGate, RouteAfterBrainstormer;
    } else {
      OtherRoutes(c, t, a);
    }
  }

  lemma OtherRoutes(c: Config, t: Turn, a: Answer)
    requires Routed(c.node, c.s, t) && !c.node.RouteIntent? && !c.node.ResearchIngest? && !IsDrafting(c.node)
    ensures var d := Exec(c, a); Routed(d.node, d.s, Noting(t, c, Run(a)))
  {
    hide Routed, Exec, Noting;
    if InReview(c.node) {
      ReviewRoutes(c, t, a);
    } else if IsEnd(c.node) || c.node.Chat? || c.node.AckConfirm? {
      EndRoutes(c, t, a);
    } else {
      EarlyRoutes(c, t, a);
    }
  }

  lemma EarlyRoutes(c: Config, t: Turn, a: Answer)
    requires Routed(c.node, c.s, t) && (c.node.FastRuleChecker? || c.node.ThreadRecap? || c.node.QueryGenerator? || IsGathering(c.node))
    ensures var d := Exec(c, a); Routed(d.node, d.s, Noting(t, c, Run(a)))
  {
    hide Starts, Revises, Confirms, Means, GateOf, EditedNeedImage, IntentOf, RouteAfterAngleGate, RouteAfterBrainstormer,
         RouteAfterReviewer, RouteAfterIntent, RouteOf;
  }

  lemma ReviewRoutes(c: Config, t: Turn, a: Answer)
    requires Routed(c.node, c.s, t) && InReview(c.node)
    ensures var d := Exec(c, a); Routed(d.node, d.s, Noting(t, c, Run(a)))
  {
    hide Starts, Revises, Confirms, Means, GateOf, EditedNeedImage, IntentOf, RouteAfterAngleGate, RouteAfterBrainstormer,
         RouteAfterIntent, RouteOf;
  }

  lemma EndRoutes(c: Config, t: Turn, a: Answer)
    requires Routed(c.node, c.s, t) && (IsEnd(c.node) || c.node.Chat? || c.node.AckConfirm?)
    ensures var d := Exec(c, a); Routed(d.node, d.s, Noting(t, c, Run(a)))
  {
    hide Starts, Revises, Confirms, Means, GateOf, EditedNeedImage, IntentOf, RouteAfterAngleGate, RouteAfterBrainstormer,
         RouteAfterReviewer, RouteAfterIntent, RouteOf;
  }

  // ----- what was asked for -----

  /** Where a picture is wanted: in a turn that revises no parked version, exactly if a draft was written,
      an edit asked for one, or one was wanted from before; and where the version can be. */
  predicate Pictured(c: Config, t: Turn) {
    && t.held == c.past.held
    && (!t.held && !c.node.Done? ==> (c.s.needImage <==> t.drafted || t.asked || t.left))
    && (!IsPassed(c.node) && !c.node.Done? ==> !t.rendered)
    && (c.node.ExecutorImagePlan? ==> c.s.needImage && !t.rendered)
    && (c.node.HoldLockedPlan? ==> t.held && !t.rendered)
    && (c.node.ExecutorImageGen? ==> (t.held || c.s.needImage) && !t.rendered)
    && (c.node.PersistPreview? ==> (t.rendered <==> t.held || c.s.needImage))
  }

  lemma ExecPictures(c: Config, t: Turn, a: Answer)
    requires Inv(c) && Pictured(c, t)
    ensures Pictured(Exec(c, a), Noting(t, c, Run(a)))
  {
    hide Inv, Pictured, Exec, Noting;
    if InReview(c.node) {
      ReviewPictures(c, t, a);
    } else if IsPassed(c.node) {
      PassedPictures(c, t, a);
    } else {
      EarlyPictures(c, t, a);
    }
  }

  /** No other node leads past review. */
  lemma EarlyNext(n: Node, s: State)
    requires !InReview(n) && !IsPassed(n)
    ensures !IsPassed(Next(n, s))
  {
    RouteOfIntent(s.intent);
    AngleRoutes(s);
    hide RouteAfterAngleGate, RouteAfterBrainstormer, RouteAfterReviewer, RouteOf;
  }

  lemma EarlyPictures(c: Config, t: Turn, a: Answer)
    requires Pictured(c, t) && !InReview(c.node) && !IsPassed(c.node)
    ensures Pictured(Exec(c, a), Noting(t, c, Run(a)))
  {
    EarlyNext(c.node, After(c.node, c.s, a));
    hide IntentOf, GateOf, Next, EditedNeedImage;
    EarlyDone(c.node, After(c.node, c.s, a));
  }

  lemma EarlyDone(n: Node, s: State)
    ensures n.Done? ==> Next(n, s).Done?
  {
  }

  lemma ReviewPictures(c: Config, t: Turn, a: Answer)
    requires Inv(c) && Pictured(c, t) && InReview(c.node)
    ensures Pictured(Exec(c, a), Noting(t, c, Run(a)))
  {
    hide IntentOf, GateOf, RouteAfterAngleGate, RouteAfterBrainstormer, RouteAfterIntent, AngleAgreed, Reviewed;
  }

  lemma PassedPictures(c: Config, t: Turn, a: Answer)
    requires Inv(c) && Pictured(c, t) && IsPassed(c.node)
    ensures Pictured(Exec(c, a), Noting(t, c, Run(a)))
  {
    hide IntentOf, GateOf, RouteAfterAngleGate, RouteAfterBrainstormer, RouteAfterIntent, RouteAfterReviewer, AngleAgreed, Reviewed,
         EditedNeedImage;
  }

  // ----- sessions -----

  predicate TurnInv(c: Config, t: Turn) {
    Inv(c) && Routed(c.node, c.s, t) && Pictured(c, t)
  }

  lemma MoveKeepsTurn(c: Config, t: Turn, m: Move)
    requires TurnInv(c, t) && Enabled(c, m)
    ensures TurnInv(Apply(c, m), Noting(t, c, m))
  {
    MoveKeepsInv(c, m);
    if m.Run? {
      ExecRoutes(c, t, m.answer);
      ExecPictures(c, t, m.answer);
      hide Inv, Exec, Routed, Pictured, Noting;
    } else {
      hide Inv, Strip, Starts, Revises, Confirms;
    }
  }

  lemma {:induction false} SessionKeepsTurn(c: Config, t: Turn, moves: seq<Move>)
    requires TurnInv(c, t) && Possible(c, moves)
    ensures TurnInv(Session(c, moves), Told(c, t, moves))
    decreases |moves|
  {
    hide TurnInv, Apply, Enabled, Noting;
    if moves != [] {
      MoveKeepsTurn(c, t, moves[0]);
      SessionKeepsTurn(Apply(c, moves[0]), Noting(t, c, moves[0]), moves[1..]);
    }
  }

  lemma InitialTurn()
    ensures TurnInv(Initial, NoTurn)
  {
  }

  /** In every session a turn goes where it was heard to go: it is acknowledged only as a confirmation of
      the version in the preview; it edits before any review of its own only to revise that version; it
      gathers context only for a clear start, and drafts only if the product is clear as well; it does
      research only on the rule's word for facts; and it chats exactly when none of these was heard, or
      the product was not clear. So an unclear start or revision ends in chat. */
  lemma TurnGoesWhereHeard(moves: seq<Move>)
    requires Possible(Initial, moves)
    ensures var c, t := Session(Initial, moves), Told(Initial, NoTurn, moves);
            !c.node.Done? && !IsOpening(c.node) ==>
              && t.heard.Some?
              && var h := t.heard.value;
                 && (c.node.AckConfirm? ==> Confirms(h) && c.s.mode == Previewing)
                 && (c.node.EditCopy? && !t.reviewed ==> Revises(h) && c.s.mode == Previewing)
                 && (IsGathering(c.node) ==> Starts(h))
                 && (IsDrafting(c.node) ==> Starts(h) && t.clarify == Some(false))
                 && (IsResearch(c.node) ==> h.rulePass && h.answer.needFacts)
                 && (c.node.Chat? ==> !Acts(h) || t.clarify == Some(true))
  {
    InitialTurn();
    SessionKeepsTurn(Initial, NoTurn, moves);
    hide Possible, Session, Told, Inv, Pictured, Starts, Revises, Confirms, Acts, Means;
  }

  /** A version is published without rendering exactly in a turn that revises no parked version, writes no
      draft, and in which no picture was asked for or wanted from before. */
  lemma RenderedIff(moves: seq<Move>)
    requires Possible(Initial, moves) && Session(Initial, moves).node == PersistPreview
    ensures var t := Told(Initial, NoTurn, moves); t.rendered <==> t.held || t.drafted || t.asked || t.left
  {
    InitialTurn();
    SessionKeepsTurn(Initial, NoTurn, moves);
    hide Possible, Session, Told, Inv, Routed;
  }
}

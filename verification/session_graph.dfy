/** The session graph: routing, two parks where a person decides, and a bounded review loop. What
    models and classifiers return is arbitrary. */
module SessionGraph {
  import opened Wrappers
  import opened Text
  import opened Angles

  datatype Node =
    | FastRuleChecker | ThreadRecap | RouteIntent | QueryGenerator | ResearchIngest | LoadContext | TrendSearcher
    | ProductMatcher | Brainstormer | AngleGate | ExecutorPost | GroundingCheck | Reviewer | ReviewerFailBump
    | EditCopy | ExecutorImagePlan | HoldLockedPlan | ExecutorImageGen | PersistPreview | Chat | AckConfirm
    | ReviewExhausted | Done

  datatype Mode = Chatting | Working | Previewing

  datatype Intent = ToStart | ToRevise | ToConfirm | ToChat

  /** What the nodes share. `chosen` is the angle picked, or blank. */
  datatype State = State(
    mode: Mode, rulePass: bool, needFacts: bool, intent: Intent, productClarify: bool, angles: seq<string>, chosen: string,
    draft: string, groundingOk: bool, reviewerPassed: bool, reviewAttempts: nat, needImage: bool, holdImagePark: bool,
    plan: string)

  /** What a step gets from outside: classifier and model answers, look-ups, and what the user's
      text asks for. A verdict is missing when the reviewer's answer cannot be read. */
  datatype Answer = Answer(
    rulePass: bool, route: Option<Intent>, guess: Intent, needFacts: bool, unclear: bool, productClarify: bool,
    angles: seq<string>, draft: string, idsFound: bool, numbersFound: bool, verdict: Option<bool>,
    editAsksImage: bool, userAsksImage: bool, plan: string)

  /** What has happened: the draft the grounding check last accepted, the draft the reviewer last
      passed, the edits the reviewer caused; then, for the draft written last, whether it still has no picture,
      whether a plan was written for it, and whether its latest edit asked for a picture. `held` says
      that the turn revises a parked version. */
  datatype Past = Past(
    grounded: Option<string>, passed: Option<string>, edits: nat, owed: bool, planned: bool, lastEdit: Option<bool>, held: bool)

  datatype Config = Config(node: Node, s: State, past: Past)

  const MAX_REVIEW_RETRIES: nat := 2

  const Initial := Config(
    Done, State(Chatting, false, false, ToChat, false, [], "", "", true, false, 0, false, false, ""),
    Past(None, None, 0, false, false, None, false))

  // ----- routes -----

  function RouteOf(intent: Intent): Node {
    match intent
    case ToStart => LoadContext
    case ToRevise => EditCopy
    case ToConfirm => AckConfirm
    case ToChat => Chat
  }

  function RouteAfterIntent(s: State): Node {
    if s.rulePass && s.needFacts then QueryGenerator else RouteOf(s.intent)
  }

  function RouteAfterProductMatcher(s: State): Node {
    if s.productClarify then Chat else Brainstormer
  }

  function RouteAfterBrainstormer(s: State): Node {
    if |Offered(s.angles)| >= 1 then AngleGate else ExecutorPost
  }

  function RouteAfterAngleGate(s: State): Node {
    if Strip(s.chosen) != "" then ExecutorPost else Brainstormer
  }

  function RouteAfterReviewer(s: State): Node {
    if !s.reviewerPassed then
      if s.reviewAttempts + 1 > MAX_REVIEW_RETRIES then ReviewExhausted else ReviewerFailBump
    else if s.needImage then ExecutorImagePlan
    else if s.holdImagePark then HoldLockedPlan
    else PersistPreview
  }

  function Next(n: Node, s: State): Node {
    match n
    case FastRuleChecker => ThreadRecap
    case ThreadRecap => RouteIntent
    case RouteIntent => RouteAfterIntent(s)
    case QueryGenerator => ResearchIngest
    case ResearchIngest => RouteOf(s.intent)
    case LoadContext => TrendSearcher
    case TrendSearcher => ProductMatcher
    case ProductMatcher => RouteAfterProductMatcher(s)
    case Brainstormer => RouteAfterBrainstormer(s)
    case AngleGate => RouteAfterAngleGate(s)
    case ExecutorPost => GroundingCheck
    case GroundingCheck => Reviewer
    case Reviewer => RouteAfterReviewer(s)
    case ReviewerFailBump => EditCopy
    case EditCopy => GroundingCheck
    case ExecutorImagePlan => ExecutorImageGen
    case HoldLockedPlan => ExecutorImageGen
    case ExecutorImageGen => PersistPreview
    case PersistPreview => Done
    case Chat => Done
    case AckConfirm => Done
    case ReviewExhausted => Done
    case Done => Done
  }

  // ----- nodes -----

  predicate IsOpening(n: Node) {
    n.FastRuleChecker? || n.ThreadRecap? || n.RouteIntent?
  }

  predicate IsResearch(n: Node) {
    n.QueryGenerator? || n.ResearchIngest?
  }

  predicate IsGathering(n: Node) {
    n.LoadContext? || n.TrendSearcher? || n.ProductMatcher?
  }

  /** A revision or a confirmation needs a preview, and doubt leads to chat. */
  function IntentOf(s: State, a: Answer): Intent {
    var heard := if a.route.Some? then a.route.value else a.guess;
    var allowed :=
      if heard == ToRevise && s.mode != Previewing then (if a.guess == ToStart then ToStart else ToChat)
      else if heard == ToConfirm && s.mode != Previewing then ToChat
      else heard;
    if a.unclear && (allowed == ToStart || allowed == ToRevise) then ToChat else allowed
  }

  /** A pick that matches an offered angle locks it; anything else becomes feedback. */
  function GateOf(s: State): string {
    var pick := Strip(s.chosen);
    if pick == "" then s.chosen
    else match Resolve(pick, s.angles)
      case None => ""
      case Some(angle) => angle
  }

  function EditedNeedImage(s: State, a: Answer): bool {
    a.editAsksImage || a.userAsksImage || (s.needImage && !s.holdImagePark)
  }

  function After(n: Node, s: State, a: Answer): State {
    match n
    case FastRuleChecker => s.(rulePass := a.rulePass)
    case RouteIntent => s.(intent := IntentOf(s, a), needFacts := s.rulePass && a.needFacts)
    case ProductMatcher => s.(productClarify := a.productClarify)
    case Brainstormer => s.(mode := Working, angles := a.angles)
    case AngleGate => s.(chosen := GateOf(s))
    case ExecutorPost => s.(draft := a.draft, needImage := true, groundingOk := true, chosen := "")
    case GroundingCheck => s.(groundingOk := a.idsFound && a.numbersFound)
    case Reviewer => s.(reviewerPassed := s.groundingOk && a.verdict == Some(true))
    case ReviewerFailBump => if s.reviewerPassed then s else s.(reviewAttempts := s.reviewAttempts + 1)
    case EditCopy => s.(draft := a.draft, needImage := EditedNeedImage(s, a), groundingOk := true)
    case ExecutorImagePlan => s.(plan := a.plan)
    case HoldLockedPlan => s.(needImage := false, holdImagePark := false)
    case PersistPreview => s.(mode := Previewing, needImage := false)
    case ReviewExhausted => s.(reviewAttempts := s.reviewAttempts + 1)
    case _ => s
  }

  function Noted(n: Node, s: State, past: Past, a: Answer): Past {
    match n
    case ExecutorPost => past.(owed := true, planned := false, lastEdit := None)
    case GroundingCheck => past.(grounded := if a.idsFound && a.numbersFound then Some(s.draft) else None)
    case Reviewer => past.(passed := if s.groundingOk && a.verdict == Some(true) then Some(s.draft) else None)
    case ReviewerFailBump => past.(edits := past.edits + 1)
    case EditCopy => past.(lastEdit := Some(a.editAsksImage || a.userAsksImage))
    case ExecutorImagePlan => past.(planned := true)
    case ExecutorImageGen => past.(owed := false)
    case _ => past
  }

  function Exec(c: Config, a: Answer): Config {
    var s := After(c.node, c.s, a);
    Config(Next(c.node, s), s, Noted(c.node, c.s, c.past, a))
  }

  // ----- the turns of a session -----

  predicate Parked(c: Config) {
    c.node == AngleGate || c.node == ExecutorImageGen
  }

  predicate Stopped(c: Config) {
    c.node == Done || Parked(c)
  }

  /** A session moves on by a node, by a message, or by a reply at the angle park. */
  datatype Move = Run(answer: Answer) | Message | Reply(text: string)

  /** A message starts a turn when none is open; at the image park it revises the parked version. At
      the angle park only a reply counts. */
  predicate Enabled(c: Config, m: Move) {
    match m
    case Run(_) => c.node != Done
    case Message => c.node == Done || c.node == ExecutorImageGen
    case Reply(text) => c.node == AngleGate && Strip(text) != ""
  }

  function Apply(c: Config, m: Move): Config {
    match m
    case Run(a) => Exec(c, a)
    case Message =>
      var hold := c.node == ExecutorImageGen;
      Config(FastRuleChecker,
             c.s.(holdImagePark := hold, mode := if hold then Previewing else c.s.mode, chosen := if hold then "" else c.s.chosen),
             c.past.(owed := false, held := hold))
    case Reply(text) => c.(s := c.s.(chosen := Strip(text)))
  }

  predicate Possible(c: Config, moves: seq<Move>)
    decreases |moves|
  {
    moves == [] || (Enabled(c, moves[0]) && Possible(Apply(c, moves[0]), moves[1..]))
  }

  function Session(c: Config, moves: seq<Move>): Config
    decreases |moves|
  {
    if moves == [] then c else Session(Apply(c, moves[0]), moves[1..])
  }

  // ----- the invariant -----

  predicate InReview(n: Node) {
    n.GroundingCheck? || n.Reviewer? || n.ReviewerFailBump? || n.EditCopy?
  }

  /** The nodes that only a passed review leads to. */
  predicate IsPassed(n: Node) {
    n.ExecutorImagePlan? || n.HoldLockedPlan? || n.ExecutorImageGen? || n.PersistPreview?
  }

  /** The nodes after review. */
  predicate IsEnd(n: Node) {
    IsPassed(n) || n.ReviewExhausted? || n.Done?
  }

  /** What has been reviewed. */
  predicate Reviewed(c: Config) {
    && (c.node == Reviewer && c.s.groundingOk ==> c.past.grounded == Some(c.s.draft))
    && (IsPassed(c.node) ==>
          c.past.passed == Some(c.s.draft) && c.past.grounded == Some(c.s.draft))
    && (c.node == ReviewerFailBump ==> !c.s.reviewerPassed && c.s.reviewAttempts < MAX_REVIEW_RETRIES)
  }

  /** The angle that a draft may be written to. */
  predicate AngleAgreed(c: Config) {
    c.node == ExecutorPost ==> Offered(c.s.angles) == [] || c.s.chosen in Offered(c.s.angles)
  }

  /** A new draft asks for its picture, until an edit during the revision of a parked version does not. */
  predicate AsksPicture(p: Past) {
    !p.held || p.lastEdit != Some(false)
  }

  /** Where a draft without a picture can be, and what happens to its plan. */
  predicate PictureOwed(c: Config) {
    && (c.s.holdImagePark ==> c.past.held)
    && (c.past.held && !c.s.holdImagePark ==> c.node.ExecutorImageGen? || c.node.PersistPreview? || c.node.Done?)
    && (c.past.owed ==> InReview(c.node) || (IsEnd(c.node) && !c.node.PersistPreview?))
    && (c.past.owed && InReview(c.node) ==> !c.past.planned && (c.s.needImage <==> AsksPicture(c.past)))
    && (c.past.owed && c.node == ExecutorImagePlan ==> AsksPicture(c.past))
    && (c.past.owed && c.node == HoldLockedPlan ==> !c.past.planned && !AsksPicture(c.past))
    && (c.past.owed && c.node == ExecutorImageGen ==> (c.past.planned <==> AsksPicture(c.past)))
  }

  predicate Inv(c: Config) {
    Reviewed(c) && AngleAgreed(c) && PictureOwed(c)
  }

  lemma GateAgrees(s: State)
    ensures var t := s.(chosen := GateOf(s)); RouteAfterAngleGate(t) == ExecutorPost ==> t.chosen in Offered(t.angles)
  {
    assert Strip("") == "";
    hide Resolve, Strip;
    PickIsOffered(Strip(s.chosen), s.angles);
  }

  lemma RouteOfIntent(intent: Intent)
    ensures var n := RouteOf(intent); n.LoadContext? || n.EditCopy? || n.AckConfirm? || n.Chat?
  {
  }

  lemma NoShortcut(s: State)
    ensures !RouteAfterIntent(s).ExecutorPost? && !RouteAfterReviewer(s).ExecutorPost?
  {
  }

  lemma ExecAgrees(c: Config, a: Answer)
    ensures AngleAgreed(Exec(c, a))
  {
    hide RouteAfterAngleGate, RouteAfterReviewer, RouteAfterIntent, Offered, GateOf, IntentOf, EditedNeedImage;
    NoShortcut(After(c.node, c.s, a));
    GateAgrees(c.s);
    var o := Offered(a.angles);
    assert |o| < 1 ==> o == [];
  }

  lemma ExecReviewed(c: Config, a: Answer)
    requires Reviewed(c)
    ensures Reviewed(Exec(c, a))
  {
    hide RouteAfterAngleGate, RouteAfterBrainstormer, GateOf, IntentOf, EditedNeedImage;
    AngleRoutes(After(c.node, c.s, a));
  }

  lemma AngleRoutes(s: State)
    ensures RouteAfterAngleGate(s).ExecutorPost? || RouteAfterAngleGate(s).Brainstormer?
    ensures RouteAfterBrainstormer(s).ExecutorPost? || RouteAfterBrainstormer(s).AngleGate?
  {
  }

  lemma ReviewOwes(c: Config, a: Answer)
    requires PictureOwed(c) && InReview(c.node)
    ensures PictureOwed(Exec(c, a))
  {
    hide RouteAfterAngleGate, RouteAfterBrainstormer, RouteAfterIntent, GateOf, IntentOf;
  }

  lemma EndOwes(c: Config, a: Answer)
    requires PictureOwed(c) && IsEnd(c.node)
    ensures PictureOwed(Exec(c, a))
  {
    hide PictureOwed;
    EndSteps(c, a);
    OwesToTheEnd(c, Exec(c, a));
  }

  /** What the nodes after review do to a draft's picture. */
  predicate EndStep(c: Config, d: Config) {
    && d.past.held == c.past.held && d.past.lastEdit == c.past.lastEdit && (d.s.holdImagePark ==> c.s.holdImagePark)
    && (match c.node
        case ExecutorImagePlan => d.node == ExecutorImageGen && d.past.owed == c.past.owed && d.past.planned
        case HoldLockedPlan => d.node == ExecutorImageGen && d.past.owed == c.past.owed && d.past.planned == c.past.planned
        case ExecutorImageGen => d.node == PersistPreview && !d.past.owed
        case _ => d.node == Done && d.past.owed == c.past.owed)
    && (c.node != HoldLockedPlan ==> d.s.holdImagePark == c.s.holdImagePark)
  }

  lemma EndSteps(c: Config, a: Answer)
    requires IsEnd(c.node)
    ensures EndStep(c, Exec(c, a))
  {
    hide RouteAfterAngleGate, RouteAfterBrainstormer, RouteAfterReviewer, RouteAfterIntent, GateOf, IntentOf, EditedNeedImage;
  }

  lemma OwesToTheEnd(c: Config, d: Config)
    requires PictureOwed(c) && IsEnd(c.node) && EndStep(c, d)
    ensures PictureOwed(d)
  {
  }

  lemma StartOwes(c: Config, a: Answer)
    requires PictureOwed(c) && !c.past.owed && !InReview(c.node)
    requires !IsEnd(c.node)
    ensures PictureOwed(Exec(c, a))
  {
    hide RouteAfterAngleGate, RouteAfterBrainstormer, GateOf, IntentOf, RouteAfterReviewer, EditedNeedImage, PictureOwed;
    AngleRoutes(After(c.node, c.s, a));
    var d := Exec(c, a);
    StartSteps(c, a);
    OwesSame(c, d);
  }

  /** Before a draft there is nothing to owe; a new draft asks for its picture. */
  lemma StartSteps(c: Config, a: Answer)
    requires !InReview(c.node) && !IsEnd(c.node)
    ensures Exec(c, a).s.holdImagePark == c.s.holdImagePark && Exec(c, a).past.held == c.past.held
    ensures var d := Exec(c, a);
            if c.node == ExecutorPost then
              d.node == GroundingCheck && d.s.needImage && !d.past.planned && d.past.lastEdit == None
            else
              d.past == c.past
  {
    hide Next, GateOf, IntentOf, EditedNeedImage;
    assert Next(ExecutorPost, After(c.node, c.s, a)) == GroundingCheck by { PostIsChecked(After(c.node, c.s, a)); }
  }

  lemma PostIsChecked(s: State)
    ensures Next(ExecutorPost, s) == GroundingCheck
  {
  }

  lemma OwesSame(c: Config, d: Config)
    requires PictureOwed(c) && !c.past.owed && d.s.holdImagePark == c.s.holdImagePark && d.past.held == c.past.held
    requires !IsEnd(c.node)
    requires d.past.owed ==> d.node == GroundingCheck && d.s.needImage && !d.past.planned && d.past.lastEdit == None
    ensures PictureOwed(d)
  {
  }

  lemma ExecOwes(c: Config, a: Answer)
    requires PictureOwed(c)
    ensures PictureOwed(Exec(c, a))
  {
    hide RouteAfterAngleGate, RouteAfterBrainstormer, GateOf, IntentOf;
    AngleRoutes(After(c.node, c.s, a));
    if InReview(c.node) {
      ReviewOwes(c, a);
    } else if IsEnd(c.node) {
      EndOwes(c, a);
    } else {
      StartOwes(c, a);
    }
  }

  lemma MoveKeepsInv(c: Config, m: Move)
    requires Inv(c) && Enabled(c, m)
    ensures Inv(Apply(c, m))
  {
    hide Exec, Strip, Offered;
    if m.Run? {
      ExecAgrees(c, m.answer);
      ExecReviewed(c, m.answer);
      ExecOwes(c, m.answer);
    }
  }

  lemma {:induction false} SessionKeepsInv(c: Config, moves: seq<Move>)
    requires Inv(c) && Possible(c, moves)
    ensures Inv(Session(c, moves))
    decreases |moves|
  {
    hide Inv, Apply, Enabled;
    if moves != [] {
      MoveKeepsInv(c, moves[0]);
      SessionKeepsInv(Apply(c, moves[0]), moves[1..]);
    }
  }

  // ----- what is safe in every session -----

  /** A preview is published only with the draft as last reviewed, passed and grounded, and never before
      a newly written draft has been through the image park. */
  lemma PreviewIsReviewed(moves: seq<Move>)
    requires Possible(Initial, moves) && Session(Initial, moves).node == PersistPreview
    ensures var c := Session(Initial, moves);
            c.past.passed == Some(c.s.draft) && c.past.grounded == Some(c.s.draft) && !c.past.owed
  {
    SessionKeepsInv(Initial, moves);
    hide Session, Possible;
  }

  /** A post is written to an angle from the offer at hand, unless none was offered. */
  lemma PostFollowsPick(moves: seq<Move>)
    requires Possible(Initial, moves) && Session(Initial, moves).node == ExecutorPost
    ensures var s := Session(Initial, moves).s; Offered(s.angles) == [] || s.chosen in Offered(s.angles)
  {
    SessionKeepsInv(Initial, moves);
    hide Session, Possible, Offered;
  }

  /** At the image park the plan was written for the new draft, unless the turn revises a parked version
      and the latest edit asked for no picture: then the plan is that of another draft. */
  lemma PlanIsStaleIff(moves: seq<Move>)
    requires Possible(Initial, moves) && Session(Initial, moves).node == ExecutorImageGen && Session(Initial, moves).past.owed
    ensures var p := Session(Initial, moves).past; !p.planned <==> p.held && p.lastEdit == Some(false)
  {
    SessionKeepsInv(Initial, moves);
    hide Session, Possible;
  }

  // ----- runs between parks -----

  function Left(s: State): nat {
    if s.reviewAttempts < MAX_REVIEW_RETRIES then MAX_REVIEW_RETRIES - s.reviewAttempts else 0
  }

  /** How many nodes can still run. */
  function Measure(c: Config): nat {
    var retries := 4 * Left(c.s);
    match c.node
    case FastRuleChecker => 15 + retries
    case ThreadRecap => 14 + retries
    case RouteIntent => 13 + retries
    case QueryGenerator => 12 + retries
    case ResearchIngest => 11 + retries
    case LoadContext => 10 + retries
    case TrendSearcher => 9 + retries
    case ProductMatcher => 8 + retries
    case AngleGate => 8 + retries
    case Brainstormer => 7 + retries
    case ExecutorPost => 6 + retries
    case EditCopy => 6 + retries
    case GroundingCheck => 5 + retries
    case Reviewer => 4 + retries
    case ReviewerFailBump => 3 + retries
    case ExecutorImagePlan => 3
    case HoldLockedPlan => 3
    case ExecutorImageGen => 2
    case Done => 0
    case _ => 1
  }

  lemma ExecProgress(c: Config, a: Answer)
    requires Reviewed(c) && c.node != Done
    ensures Stopped(Exec(c, a)) || Measure(Exec(c, a)) < Measure(c)
  {
    hide RouteAfterAngleGate, RouteAfterBrainstormer, GateOf, IntentOf, EditedNeedImage;
    AngleRoutes(After(c.node, c.s, a));
  }

  /** Runs the graph from `c` to its end or to the next park. */
  function Continue(c: Config, answers: seq<Answer>): Config
    decreases |answers|
  {
    if answers == [] then c
    else
      var d := Exec(c, answers[0]);
      if Stopped(d) then d else Continue(d, answers[1..])
  }

  /** Every run ends or parks, whatever the models answer, within at most 23 nodes. */
  lemma {:induction false} RunsStop(c: Config, answers: seq<Answer>)
    requires Reviewed(c) && c.node != Done && |answers| >= Measure(c)
    ensures Stopped(Continue(c, answers))
    ensures Measure(c) <= 23
    decreases |answers|
  {
    hide Reviewed, Exec;
    ExecProgress(c, answers[0]);
    ExecReviewed(c, answers[0]);
    var d := Exec(c, answers[0]);
    if !Stopped(d) {
      RunsStop(d, answers[1..]);
    }
  }

  // ----- retries -----

  lemma MoveSpendsRetries(c: Config, m: Move)
    requires Reviewed(c)
    ensures var d := Apply(c, m);
            && c.past.edits <= d.past.edits && c.s.reviewAttempts <= d.s.reviewAttempts
            && d.past.edits + Left(d.s) <= c.past.edits + Left(c.s)
  {
    hide Next, GateOf, IntentOf, EditedNeedImage, Strip;
  }

  /** The reviewer causes at most as many edits as retries were left, over the rest of the session. */
  lemma {:induction false} EditsAreBounded(c: Config, moves: seq<Move>)
    requires Inv(c) && Possible(c, moves)
    ensures c.past.edits <= Session(c, moves).past.edits <= c.past.edits + Left(c.s)
    ensures Session(c, moves).past.edits + Left(Session(c, moves).s) <= c.past.edits + Left(c.s)
    decreases |moves|
  {
    hide Inv, Apply, Enabled, Left;
    if moves != [] {
      assert Reviewed(c) by { InvReviewed(c); }
      MoveSpendsRetries(c, moves[0]);
      MoveKeepsInv(c, moves[0]);
      EditsAreBounded(Apply(c, moves[0]), moves[1..]);
    }
  }

  lemma InvReviewed(c: Config)
    requires Inv(c)
    ensures Reviewed(c)
  {
  }

  /** The two retries are those of the whole session, not of each turn. */
  lemma SessionGetsTwoEdits(moves: seq<Move>)
    requires Possible(Initial, moves)
    ensures Session(Initial, moves).past.edits <= MAX_REVIEW_RETRIES
  {
    EditsAreBounded(Initial, moves);
    hide Session, Possible;
  }

  /** What a run without a passing review keeps. */
  predicate Failing(c: Config) {
    && (InReview(c.node) || c.node == ReviewExhausted)
    && (c.node == ReviewerFailBump ==> !c.s.reviewerPassed && c.s.reviewAttempts < MAX_REVIEW_RETRIES)
    && (c.node == ReviewExhausted ==> Left(c.s) == 0)
  }

  lemma FailingStep(c: Config, a: Answer)
    requires Failing(c) && a.verdict != Some(true)
    ensures var d := Exec(c, a);
            && d.past.edits + Left(d.s) == c.past.edits + Left(c.s)
            && (if c.node == ReviewExhausted then d.node == Done && d.s.reviewAttempts > MAX_REVIEW_RETRIES else Failing(d))
  {
    hide GateOf, IntentOf, EditedNeedImage;
  }

  /** A draft that no review passes uses up all retries that are left: the turn makes exactly that many
      edits and then gives up, and no later turn of the session has any retry left. */
  lemma {:induction false} FailingRunUsesAll(c: Config, answers: seq<Answer>)
    requires Failing(c) && |answers| >= Measure(c) && forall i :: 0 <= i < |answers| ==> answers[i].verdict != Some(true)
    ensures var d := Continue(c, answers);
            && d.node == Done && d.past.edits == c.past.edits + Left(c.s) && Left(d.s) == 0
            && (d.past.edits == c.past.edits + MAX_REVIEW_RETRIES <==> c.s.reviewAttempts == 0)
    decreases |answers|
  {
    hide Exec, Reviewed;
    FailingStep(c, answers[0]);
    FailingProgress(c, answers[0]);
    var d := Exec(c, answers[0]);
    if c.node != ReviewExhausted {
      assert forall i :: 0 <= i < |answers[1..]| ==> answers[1..][i] == answers[i + 1];
      FailingRunUsesAll(d, answers[1..]);
    }
  }

  lemma FailingProgress(c: Config, a: Answer)
    requires Failing(c) && a.verdict != Some(true)
    ensures !Parked(Exec(c, a)) && (c.node != ReviewExhausted ==> Measure(Exec(c, a)) < Measure(c))
  {
    hide GateOf, IntentOf, EditedNeedImage;
  }

  // ----- a stale plan -----

  lemma {:induction false} SessionAppend(c: Config, first: seq<Move>, second: seq<Move>)
    requires Possible(c, first) && Possible(Session(c, first), second)
    ensures Possible(c, first + second) && Session(c, first + second) == Session(Session(c, first), second)
    decreases |first|
  {
    hide Apply, Enabled;
    if first == [] {
      assert first + second == second;
    } else {
      assert (first + second)[1..] == first[1..] + second;
      SessionAppend(Apply(c, first[0]), first[1..], second);
    }
  }

  lemma OneMove(c: Config, m: Move)
    requires Enabled(c, m)
    ensures Possible(c, [m]) && Session(c, [m]) == Apply(c, m)
  {
    hide Apply, Enabled;
    var rest := [m][1..];
    assert rest == [];
    assert Session(Apply(c, m), rest) == Apply(c, m);
  }

  function Times(n: nat, a: Answer): seq<Move> {
    if n == 0 then [] else Times(n - 1, a) + [Run(a)]
  }

  /** One more node of a run. */
  lemma Further(c: Config, n: nat, a: Answer, d: Config)
    requires Possible(c, Times(n, a)) && Session(c, Times(n, a)) == d && d.node != Done
    ensures Possible(c, Times(n + 1, a)) && Session(c, Times(n + 1, a)) == Exec(d, a)
  {
    hide Exec;
    OneMove(d, Run(a));
    SessionAppend(c, Times(n, a), [Run(a)]);
  }

  /** A user who asks for a new post, whose draft no reviewer passes at first. */
  function NewPost(draft: string, verdict: Option<bool>): Answer {
    Answer(false, Some(ToStart), ToStart, false, false, false, [], draft, true, true, verdict, false, false, "")
  }

  lemma ToDraft(c: Config, a: Answer)
    requires c.node == FastRuleChecker && a == NewPost(a.draft, None)
    ensures var moves := Times(7, a);
            && Possible(c, moves) && Session(c, moves).node == ExecutorPost && Session(c, moves).past == c.past
            && Session(c, moves).s == c.s.(rulePass := false, needFacts := false, intent := ToStart, productClarify := false,
                                           mode := Working, angles := [])
  {
    hide Possible, Session, Times;
    NoMoves(c, a);
    var c1 := Exec(c, a);
    var c2 := Exec(c1, a);
    var c3 := Exec(c2, a);
    var c4 := Exec(c3, a);
    var c5 := Exec(c4, a);
    var c6 := Exec(c5, a);
    Further(c, 0, a, c);
    Further(c, 1, a, c1);
    Further(c, 2, a, c2);
    Further(c, 3, a, c3);
    Further(c, 4, a, c4);
    Further(c, 5, a, c5);
    Further(c, 6, a, c6);
  }

  lemma NoMoves(c: Config, a: Answer)
    ensures Possible(c, Times(0, a)) && Session(c, Times(0, a)) == c
  {
  }

  lemma ToBump(c: Config, a: Answer)
    requires c.node == ExecutorPost && a == NewPost(a.draft, None) && c.s.reviewAttempts < MAX_REVIEW_RETRIES
    ensures var moves := Times(3, a);
            var d := Session(c, moves);
            && Possible(c, moves) && d.node == ReviewerFailBump && !d.s.reviewerPassed
            && d.s.plan == c.s.plan && d.s.holdImagePark == c.s.holdImagePark
            && d.past.owed && !d.past.planned && d.past.held == c.past.held
  {
    hide Possible, Session, Times;
    NoMoves(c, a);
    var c1 := Exec(c, a);
    var c2 := Exec(c1, a);
    Further(c, 0, a, c);
    Further(c, 1, a, c1);
    Further(c, 2, a, c2);
  }

  lemma ToPark(c: Config, a: Answer)
    requires c.node == ReviewerFailBump && !c.s.reviewerPassed && a == NewPost(a.draft, Some(true)) && c.s.holdImagePark
    requires c.past.owed && !c.past.planned
    ensures var moves := Times(5, a);
            var d := Session(c, moves);
            && Possible(c, moves) && d.node == ExecutorImageGen && d.s.plan == c.s.plan && d.s.draft == a.draft
            && d.past.owed && !d.past.planned
  {
    hide Possible, Session, Times;
    NoMoves(c, a);
    var c1 := Exec(c, a);
    var c2 := Exec(c1, a);
    var c3 := Exec(c2, a);
    var c4 := Exec(c3, a);
    Further(c, 0, a, c);
    Further(c, 1, a, c1);
    Further(c, 2, a, c2);
    Further(c, 3, a, c3);
    Further(c, 4, a, c4);
  }

  /** At the image park, a message asking for a new post, one rejected draft and a repaired one lead back
      to the park with the new draft and the old plan. */
  lemma StalePlanRun(c: Config, draft: string)
    requires c.node == ExecutorImageGen && c.s.reviewAttempts < MAX_REVIEW_RETRIES
    ensures exists moves ::
              && Possible(c, moves)
              && var d := Session(c, moves);
                 d.node == ExecutorImageGen && d.s.draft == draft && d.s.plan == c.s.plan && d.past.owed && !d.past.planned
  {
    hide Possible, Session, Times;
    var bad, good := NewPost(draft, None), NewPost(draft, Some(true));
    OneMove(c, Message);
    var c1 := Apply(c, Message);
    ToDraft(c1, bad);
    SessionAppend(c, [Message], Times(7, bad));
    var first := [Message] + Times(7, bad);
    var c2 := Session(c, first);
    ToBump(c2, bad);
    SessionAppend(c, first, Times(3, bad));
    var second := first + Times(3, bad);
    var c3 := Session(c, second);
    ToPark(c3, good);
    SessionAppend(c, second, Times(5, good));
    assert Possible(c, second + Times(5, good));
  }
}

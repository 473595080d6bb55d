/**
 * The itinerary chat graph (`app/graph/chat/workflow.py`): four nodes,
 * `analyze_intent` as entry, two conditional edges and two fixed ones.
 * A run is modelled as the path it takes and the state it ends in; the
 * LLM replies, the Places search, the distance function and the schema
 * validation of each node are parameters (`Oracles`).
 */
module ChatWorkflow {
  import opened Wrappers
  import opened Itinerary
  import opened ChatSchema
  import opened ChatGraphState
  import PyText
  import ModifyUtils
  import VisitTimePolicy
  import AnalyzeIntent
  import ChatMutate
  import ChatCascade
  import ChatRespond

  /** The graph's nodes, and its END marker. */
  datatype NodeName = AnalyzeStep | MutateStep | CascadeStep | RespondStep | End

  /** `_route_after_intent`: `respond` on an error or a clarification question, else `mutate`. */
  function RouteAfterIntent(s: ChatState): (n: NodeName)
    ensures n == RespondStep <==> HasError(s) || s.status == Some(AskClarification)
    ensures n != RespondStep ==> n == MutateStep
  {
    if HasError(s) then RespondStep
    else if s.status == Some(AskClarification) then RespondStep
    else MutateStep
  }

  /** `_route_after_mutate`: `respond` on an error or a clarification question, else `cascade`. */
  function RouteAfterMutate(s: ChatState): (n: NodeName)
    ensures n == RespondStep <==> HasError(s) || s.status == Some(AskClarification)
    ensures n != RespondStep ==> n == CascadeStep
  {
    if HasError(s) then RespondStep
    else if s.status == Some(AskClarification) then RespondStep
    else CascadeStep
  }

  /** The edge set of `_create_chat_workflow`. */
  predicate Edge(a: NodeName, b: NodeName)
  {
    match a
    case AnalyzeStep => b == MutateStep || b == RespondStep
    case MutateStep => b == CascadeStep || b == RespondStep
    case CascadeStep => b == RespondStep
    case RespondStep => b == End
    case End => false
  }

  /** The position of a node in the graph's topological order. */
  function Rank(n: NodeName): nat
  {
    match n
    case AnalyzeStep => 0
    case MutateStep => 1
    case CascadeStep => 2
    case RespondStep => 3
    case End => 4
  }

  /** Every edge goes forward in the order, so the graph has no cycle; END has no successor. */
  lemma EdgesGoForward(a: NodeName, b: NodeName)
    ensures Edge(a, b) ==> Rank(a) < Rank(b)
    ensures a == End ==> !Edge(a, b)
  {
  }

  /** The graph has no path from a node back to itself. */
  lemma {:induction false} NoCycle(p: seq<NodeName>)
    requires |p| >= 2 && forall i :: 0 <= i < |p| - 1 ==> Edge(p[i], p[i + 1])
    ensures Rank(p[0]) < Rank(p[|p| - 1]) && p[0] != p[|p| - 1]
    decreases |p|
  {
    EdgesGoForward(p[0], p[1]);
    if |p| > 2 {
      assert forall i :: 0 <= i < |p[1..]| - 1 ==> Edge(p[1..][i], p[1..][i + 1]) by {
        forall i | 0 <= i < |p[1..]| - 1 ensures Edge(p[1..][i], p[1..][i + 1]) {
          assert Edge(p[i + 1], p[i + 2]);
        }
      }
      NoCycle(p[1..]);
    }
  }

  /** The collaborators of every node. */
  datatype Oracles = Oracles(
    intent: AnalyzeIntent.IntentEnv,
    search: ChatMutate.SearchEnv,
    cfg: VisitTimePolicy.Config,
    dist: ModifyUtils.Distance,
    validate: Roadmap -> bool,
    respondReply: ChatState -> Option<string>)

  /** A run: the nodes visited in order and the state the graph returns. */
  datatype Trace = Trace(path: seq<NodeName>, final: ChatState)

  /** The state a fresh request starts from: only the itinerary and the query are set. */
  function InitialState(itinerary: Option<Roadmap>, query: string): (s: ChatState)
    ensures s.currentItinerary == itinerary && s.userQuery == query
    ensures s.intent.None? && s.status.None? && s.error.None? && s.modifiedItinerary.None?
  {
    ChatState(itinerary, query, None, None, [], [], None, None, "", "", [], None, None, map[])
  }

  /**
   * Intent analysis leaves same-day MOVEs with a destination index, unless
   * it ends in a clarification question; so `mutate` is always entered in
   * a state it can handle.
   */
  lemma AnalyzeKeepsMoveIndex(s: ChatState, env: AnalyzeIntent.IntentEnv)
    requires ChatMutate.MoveIndexPresent(s)
    ensures var r := AnalyzeIntent.AnalyzeIntentNode(s, env);
      r.status != Some(AskClarification) ==> ChatMutate.MoveIndexPresent(r)
  {
    var r := AnalyzeIntent.AnalyzeIntentNode(s, env);
    AnalyzeIntent.AnalyzeStoresValidIntent(s, env);
    if r.intent != s.intent && r.status != Some(AskClarification) && r.intent.value.op.Move? {
      ValidMoveHasDestination(r.intent.value);
    }
  }

  /** What the compiled graph returns for a state, and the path it takes. */
  function RunChat(s0: ChatState, o: Oracles): (t: Trace)
    requires ChatMutate.MoveIndexPresent(s0)
    ensures 2 <= |t.path| <= 4 && t.path[0] == AnalyzeStep && t.path[|t.path| - 1] == RespondStep
    ensures forall i :: 0 <= i < |t.path| - 1 ==> Edge(t.path[i], t.path[i + 1])
  {
    var s1 := AnalyzeIntent.AnalyzeIntentNode(s0, o.intent);
    if RouteAfterIntent(s1) == RespondStep then
      Trace([AnalyzeStep, RespondStep], ChatRespond.RespondNode(s1, o.respondReply(s1)))
    else
      AnalyzeKeepsMoveIndex(s0, o.intent);
      var s2 := ChatMutate.MutateNode(s1, o.search);
      if RouteAfterMutate(s2) == RespondStep then
        Trace([AnalyzeStep, MutateStep, RespondStep], ChatRespond.RespondNode(s2, o.respondReply(s2)))
      else
        var s3 := ChatCascade.CascadeNode(s2, o.cfg, o.dist, o.validate);
        Trace([AnalyzeStep, MutateStep, CascadeStep, RespondStep], ChatRespond.RespondNode(s3, o.respondReply(s3)))
  }

  /** `compiled_chat_graph.ainvoke`: the nodes run one after another along the edges. */
  method Invoke(s0: ChatState, o: Oracles) returns (t: Trace)
    requires ChatMutate.MoveIndexPresent(s0)
    ensures t == RunChat(s0, o)
  {
    hide AnalyzeIntent.AnalyzeIntentNode, ChatMutate.MutateNode, ChatCascade.CascadeNode, ChatRespond.RespondNode;
    var s := AnalyzeIntent.AnalyzeIntentStep(s0, o.intent);
    var path := [AnalyzeStep];
    if RouteAfterIntent(s) == MutateStep {
      AnalyzeKeepsMoveIndex(s0, o.intent);
      s := ChatMutate.Mutate(s, o.search);
      path := path + [MutateStep];
      if RouteAfterMutate(s) == CascadeStep {
        s := ChatCascade.Cascade(s, o.cfg, o.dist, o.validate);
        path := path + [CascadeStep];
      }
    }
    t := Trace(path + [RespondStep], ChatRespond.RespondNode(s, o.respondReply(s)));
  }

  /** A run ends at END right after `respond`, and never visits a node twice. */
  lemma RunVisitsOnce(s0: ChatState, o: Oracles)
    requires ChatMutate.MoveIndexPresent(s0)
    ensures var p := RunChat(s0, o).path;
      Edge(p[|p| - 1], End) && forall i, j :: 0 <= i < j < |p| ==> p[i] != p[j]
  {
    hide RunChat;
    var p := RunChat(s0, o).path;
    forall i, j | 0 <= i < j < |p| ensures p[i] != p[j] {
      NoCycle(p[i..j + 1]);
    }
  }

  // ---------------------------------------------------------------- what a fresh request gets

  /**
   * For a fresh request the reply is REJECTED exactly when some node set an
   * error, and then its message is the fixed generic one: a rejection from
   * intent analysis reaches `mutate`, which fails for the missing intent, and
   * a rejection from `mutate` reaches `cascade`, which fails for the missing
   * modified itinerary, so no reason a node gave is shown to the user.
   */
  lemma RejectionsAreMasked(itinerary: Option<Roadmap>, query: string, o: Oracles)
    ensures var r := RunChat(InitialState(itinerary, query), o).final;
      (r.status == Some(Rejected) <==> HasError(r))
      && (r.status == Some(Rejected) ==> r.message == ChatRespond.InternalErrorMessage)
  {
    hide AnalyzeIntent.AnalyzeIntentNode, ChatMutate.MutateNode, ChatCascade.CascadeNode;
    var s0 := InitialState(itinerary, query);
    var s1 := AnalyzeIntent.AnalyzeIntentNode(s0, o.intent);
    AnalyzeIntent.AnalyzeStoresValidIntent(s0, o.intent);
    if RouteAfterIntent(s1) == MutateStep {
      AnalyzeKeepsMoveIndex(s0, o.intent);
      var s2 := ChatMutate.MutateNode(s1, o.search);
      if s1.status == Some(Rejected) {
        ChatMutate.MutateErrors(s1, o.search);
      } else if RouteAfterMutate(s2) == CascadeStep {
        MutateThenCascade(s1, s2, o);
      }
    }
  }

  /** The cascade leg of `RejectionsAreMasked`. */
  lemma MutateThenCascade(s1: ChatState, s2: ChatState, o: Oracles)
    requires ChatMutate.MoveIndexPresent(s1) && s2 == ChatMutate.MutateNode(s1, o.search)
    requires s1.modifiedItinerary.None? && s1.status != Some(Rejected)
    requires !HasError(s2) && s2.status != Some(AskClarification)
    ensures var s3 := ChatCascade.CascadeNode(s2, o.cfg, o.dist, o.validate);
      s3.status == Some(Rejected) ==> HasError(s3)
    ensures var s3 := ChatCascade.CascadeNode(s2, o.cfg, o.dist, o.validate);
      !HasError(s3) ==> s3.status == s2.status
  {
    ChatMutate.MutateOutcome(s1, o.search);
  }

  /**
   * A GENERAL_CHAT classification is not answered as chat: the graph routes
   * it to `mutate`, which fails for the missing intent, and the reply is the
   * generic rejection.
   */
  lemma GeneralChatRejected(itinerary: Roadmap, query: string, o: Oracles)
    requires |query| > 0
    requires AnalyzeIntent.RouteOf(InitialState(Some(itinerary), query), o.intent).intentType.GeneralChatIntent?
    ensures var t := RunChat(InitialState(Some(itinerary), query), o);
      t.path == [AnalyzeStep, MutateStep, RespondStep]
      && t.final.error == Some(ChatMutate.MissingInputError)
      && t.final.status == Some(Rejected) && t.final.message == ChatRespond.InternalErrorMessage
  {
    hide AnalyzeIntent.AnalyzeIntentNode, ChatMutate.MutateNode, ChatCascade.CascadeNode;
    var s0 := InitialState(Some(itinerary), query);
    AnalyzeIntent.AnalyzeRouteRows(s0, o.intent);
    var s1 := AnalyzeIntent.AnalyzeIntentNode(s0, o.intent);
    ChatMutate.MutateErrors(s1, o.search);
  }

  /**
   * A fresh request is answered SUCCESS only after all four nodes ran and
   * `mutate` produced an edit of the current itinerary with one diff key
   * naming the target day.
   */
  lemma SuccessIsAnEdit(itinerary: Option<Roadmap>, query: string, o: Oracles)
    ensures var s0 := InitialState(itinerary, query); var t := RunChat(s0, o);
      t.final.status == Some(Success) ==>
        t.path == [AnalyzeStep, MutateStep, CascadeStep, RespondStep]
        && t.final.intent.Some? && t.final.modifiedItinerary.Some?
        && |t.final.diffKeys| == 1
        && PyText.Split(t.final.diffKeys[0], '_')[0] == "day" + PyText.IntText(t.final.intent.value.targetDay)
  {
    hide AnalyzeIntent.AnalyzeIntentNode, ChatMutate.MutateNode, ChatCascade.CascadeNode;
    var s0 := InitialState(itinerary, query);
    var s1 := AnalyzeIntent.AnalyzeIntentNode(s0, o.intent);
    AnalyzeIntent.AnalyzeStoresValidIntent(s0, o.intent);
    if RouteAfterIntent(s1) == MutateStep {
      AnalyzeKeepsMoveIndex(s0, o.intent);
      var s2 := ChatMutate.MutateNode(s1, o.search);
      if RouteAfterMutate(s2) == CascadeStep {
        MutateThenSuccess(s1, s2, o);
      }
    }
  }

  /** The cascade leg of `SuccessIsAnEdit`: a cascade without error follows an edit. */
  lemma MutateThenSuccess(s1: ChatState, s2: ChatState, o: Oracles)
    requires ChatMutate.MoveIndexPresent(s1) && s2 == ChatMutate.MutateNode(s1, o.search)
    requires s1.modifiedItinerary.None?
    ensures var s3 := ChatCascade.CascadeNode(s2, o.cfg, o.dist, o.validate);
      !HasError(s3) ==> ChatMutate.EditOf(s1, s2)
  {
    ChatMutate.MutateOutcome(s1, o.search);
  }
}

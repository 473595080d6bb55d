/**
 * The visit-time proposal node of the chat graph
 * (`app/graph/chat/nodes/propose_visit_time.py`): the days the diff keys
 * name are sent, in itinerary order, to the proposal call, and its map is
 * stored in the state. Its day extraction is the same loop as the one of
 * the chat cascade and is taken from there.
 */
module ProposeVisitTime {
  import opened Wrappers
  import opened Itinerary
  import opened ChatGraphState
  import PyList
  import ChatCascade
  import VisitTimeLlm

  const MissingItineraryError: string := "propose_visit_time에는 modified_itinerary가 필요합니다."

  /** The days sent to the proposal call: those named, in itinerary order, with their places and no date. */
  function TargetDaysOf(modified: set<int>, days: seq<Day>): (r: seq<VisitTimeLlm.DayInput>)
    ensures |r| <= |days|
    ensures forall k :: 0 <= k < |r| ==> r[k].dayNumber in modified && r[k].dailyDate.None?
    decreases |days|
  {
    if |days| == 0 then []
    else
      var d := days[|days| - 1];
      TargetDaysOf(modified, days[..|days| - 1])
      + (if d.dayNumber in modified then [VisitTimeLlm.DayInput(d.dayNumber, None, d.places)] else [])
  }

  /** The selection keeps the itinerary's order: selecting from a concatenation concatenates the selections. */
  lemma {:induction false} TargetDaysAppend(modified: set<int>, a: seq<Day>, b: seq<Day>)
    ensures TargetDaysOf(modified, a + b) == TargetDaysOf(modified, a) + TargetDaysOf(modified, b)
    decreases |b|
  {
    if |b| == 0 {
      assert a + b == a;
    } else {
      var b' := b[..|b| - 1];
      var d := b[|b| - 1];
      assert (a + b)[..|a + b| - 1] == a + b';
      assert (a + b)[|a + b| - 1] == d;
      TargetDaysAppend(modified, a, b');
      PyList.AppendAssoc(TargetDaysOf(modified, a), TargetDaysOf(modified, b'),
                         if d.dayNumber in modified then [VisitTimeLlm.DayInput(d.dayNumber, None, d.places)] else []);
    }
  }

  /** Every named day of the itinerary is sent, with all its places. */
  lemma {:induction false} NamedDaySent(modified: set<int>, days: seq<Day>, j: nat)
    requires j < |days| && days[j].dayNumber in modified
    ensures VisitTimeLlm.DayInput(days[j].dayNumber, None, days[j].places) in TargetDaysOf(modified, days)
    decreases |days|
  {
    if j < |days| - 1 {
      assert days[..|days| - 1][j] == days[j];
      NamedDaySent(modified, days[..|days| - 1], j);
    }
  }

  /** The loop that collects the target days. */
  method TargetDays(modified: set<int>, days: seq<Day>) returns (targets: seq<VisitTimeLlm.DayInput>)
    ensures targets == TargetDaysOf(modified, days)
  {
    targets := [];
    var i := 0;
    while i < |days|
      invariant 0 <= i <= |days|
      invariant targets == TargetDaysOf(modified, days[..i])
    {
      assert days[..i + 1][..i] == days[..i];
      if days[i].dayNumber in modified {
        targets := targets + [VisitTimeLlm.DayInput(days[i].dayNumber, None, days[i].places)];
      }
      i := i + 1;
    }
    assert days[..i] == days;
  }

  /**
   * `propose_visit_time`: an error without an itinerary, an empty proposal
   * map when no day is named, and otherwise the proposals for the named days.
   * Nothing else of the state changes.
   */
  function ProposeNode(s: ChatState, reply: Option<string>, parse: string -> Option<VisitTimeLlm.ProposalPlan>): (r: ChatState)
    ensures s.modifiedItinerary.None? ==> r == s.(error := Some(MissingItineraryError))
    ensures s.modifiedItinerary.Some? ==> r == s.(visitTimeProposals := r.visitTimeProposals)
  {
    if s.modifiedItinerary.None? then s.(error := Some(MissingItineraryError))
    else
      var modified := ChatCascade.ModifiedDaysOf(s.diffKeys);
      if |modified| == 0 then s.(visitTimeProposals := map[])
      else
        var targets := TargetDaysOf(modified, s.modifiedItinerary.value.days);
        s.(visitTimeProposals := VisitTimeLlm.ProposeVisitTimes(targets, reply, parse))
  }

  /** The node as the source runs it, with its two loops. */
  method ProposeVisitTimeNode(s: ChatState, reply: Option<string>, parse: string -> Option<VisitTimeLlm.ProposalPlan>)
    returns (r: ChatState)
    ensures r == ProposeNode(s, reply, parse)
  {
    if s.modifiedItinerary.None? {
      return s.(error := Some(MissingItineraryError));
    }
    var modified := ChatCascade.ExtractModifiedDays(s.diffKeys);
    if |modified| == 0 {
      return s.(visitTimeProposals := map[]);
    }
    var targets := TargetDays(modified, s.modifiedItinerary.value.days);
    return s.(visitTimeProposals := VisitTimeLlm.ProposeVisitTimes(targets, reply, parse));
  }

  /** When no day of the itinerary has places, the proposal map stored is empty. */
  lemma NoPlacesNoProposals(s: ChatState, reply: Option<string>, parse: string -> Option<VisitTimeLlm.ProposalPlan>)
    requires s.modifiedItinerary.Some?
    requires forall k :: 0 <= k < |s.modifiedItinerary.value.days| ==> |s.modifiedItinerary.value.days[k].places| == 0
    ensures ProposeNode(s, reply, parse).visitTimeProposals == map[]
  {
    var modified := ChatCascade.ModifiedDaysOf(s.diffKeys);
    if |modified| > 0 {
      var targets := TargetDaysOf(modified, s.modifiedItinerary.value.days);
      forall k | 0 <= k < |targets| ensures |targets[k].places| == 0 {
        TargetDaysPlaces(modified, s.modifiedItinerary.value.days, k);
      }
    }
  }

  /** Each target day carries the places of an itinerary day with its number. */
  lemma {:induction false} TargetDaysPlaces(modified: set<int>, days: seq<Day>, k: nat)
    requires k < |TargetDaysOf(modified, days)|
    ensures exists j :: 0 <= j < |days| && days[j].dayNumber == TargetDaysOf(modified, days)[k].dayNumber
                        && days[j].places == TargetDaysOf(modified, days)[k].places
    decreases |days|
  {
    var init := days[..|days| - 1];
    if k < |TargetDaysOf(modified, init)| {
      TargetDaysPlaces(modified, init, k);
      var j :| 0 <= j < |init| && init[j].dayNumber == TargetDaysOf(modified, init)[k].dayNumber
               && init[j].places == TargetDaysOf(modified, init)[k].places;
      assert days[j] == init[j];
    } else {
      assert TargetDaysOf(modified, days)[k] == VisitTimeLlm.DayInput(days[|days| - 1].dayNumber, None, days[|days| - 1].places);
    }
  }
}

/**
 * A slide event: a manipulator sliding an individual, between a start and an
 * end time, identified by a pair id. It becomes a "SlidingSituation" event
 * individual, adds itself to an experiment document, prints a context, a
 * tooltip and an info line, and announces itself to KnowRob as a sub-action.
 */
module SlideEvents {
  import opened Wrappers
  import opened Text
  import opened OwlEvents

  datatype SlideEvent = SlideEvent(
    id: string, start: real, end: EndTime, pairId: UInt64,
    manipulator: BaseIndividual, individual: BaseIndividual, episodeId: string)

  /** The constructor with an end time: manipulator before individual. */
  function NewSlideEvent(id: string, start: real, end: real, pairId: UInt64,
                         manipulator: BaseIndividual, individual: BaseIndividual): (e: SlideEvent)
    ensures e.id == id && e.start == start && e.end == Some(end) && e.pairId == pairId
    ensures e.manipulator == manipulator && e.individual == individual && e.episodeId == ""
  {
    SlideEvent(id, start, Some(end), pairId, manipulator, individual, "")
  }

  /** The constructor without an end time takes the individual before the manipulator. */
  function NewSlideEventNoEnd(id: string, start: real, pairId: UInt64,
                              individual: BaseIndividual, manipulator: BaseIndividual): (e: SlideEvent)
    ensures e.id == id && e.start == start && e.end == None && e.pairId == pairId
    ensures e.manipulator == manipulator && e.individual == individual && e.episodeId == ""
  {
    SlideEvent(id, start, None, pairId, manipulator, individual, "")
  }

  /** Whatever the parameter order, both constructors store each participant under its own name. */
  lemma ConstructorsAgree(id: string, start: real, end: real, pairId: UInt64, manipulator: BaseIndividual, individual: BaseIndividual)
    ensures NewSlideEventNoEnd(id, start, pairId, individual, manipulator)
         == NewSlideEvent(id, start, end, pairId, manipulator, individual).(end := None)
  {
  }

  function ToOwlNode(e: SlideEvent): OwlNode {
    EventIndividual("log", e.id, "SlidingSituation", [
      StartTimeProperty("log", e.start),
      EndTimeProperty("log", e.end),
      PerformedByProperty("log", e.manipulator.id),
      ObjectActedOnProperty("log", e.individual.id),
      InEpisodeProperty("log", e.episodeId)])
  }

  /** What a slide event individual records about its event. */
  datatype SlideRecord = SlideRecord(id: string, start: real, end: EndTime, manipulatorId: string, individualId: string, episodeId: string)

  /**
   * Reads a slide event individual: namespace "log", class "SlidingSituation",
   * and exactly the five expected properties in order, all in "log".
   */
  function ReadSlideNode(n: OwlNode): Option<SlideRecord> {
    if n.ns == "log" && n.cls == "SlidingSituation" && |n.children| == 5 then
      match (n.children[0], n.children[1], n.children[2], n.children[3], n.children[4])
      case (StartTimeProperty("log", s), EndTimeProperty("log", t), PerformedByProperty("log", m),
            ObjectActedOnProperty("log", o), InEpisodeProperty("log", ep)) =>
        Some(SlideRecord(n.name, s, t, m, o, ep))
      case _ => None
    else None
  }

  function RecordOf(e: SlideEvent): SlideRecord {
    SlideRecord(e.id, e.start, e.end, e.manipulator.id, e.individual.id, e.episodeId)
  }

  /** The event individual reads back as the event: its id, times, manipulator as agent, individual as object, episode. */
  lemma ToOwlNodeReadsBack(e: SlideEvent)
    ensures ReadSlideNode(ToOwlNode(e)) == Some(RecordOf(e))
  {
  }

  /** A node that reads as an event's record is that event's individual: nothing else is in it. */
  lemma ReadSlideNodeExact(n: OwlNode, e: SlideEvent)
    requires ReadSlideNode(n) == Some(RecordOf(e))
    ensures n == ToOwlNode(e)
  {
    assert n.children == ToOwlNode(e).children;
  }

  /** Registers both times and both participants, manipulator first, then adds the event individual. */
  method AddToOwlDoc(e: SlideEvent, doc: OwlExperiment)
    modifies doc
    ensures doc.Doc() == WithPairEvent(old(doc.Doc()), e.start, e.end, e.manipulator, e.individual, ToOwlNode(e))
  {
    doc.AddPairEvent(e.start, e.end, e.manipulator, e.individual, ToOwlNode(e));
  }

  function Context(e: SlideEvent): string {
    PairContext("Slide", e.pairId)
  }

  function Tooltip(e: SlideEvent): string {
    PairTooltip(e.manipulator, e.individual, e.id)
  }

  /** The context names the slide and reads back as its pair id. */
  lemma {:induction false} ContextReadsBack(e: SlideEvent)
    ensures Context(e)[..8] == "Slide - " && ParseLld(Context(e)[8..]) == Some(AsInt64(e.pairId))
  {
    PairContextRoundTrip("Slide", e.pairId);
  }

  /** The tooltip names the manipulator as O1 and the individual as O2, then the event id. */
  lemma {:induction false} TooltipReadsBack(e: SlideEvent)
    requires ',' !in e.manipulator.cls && ',' !in e.manipulator.id
    requires ',' !in e.individual.cls && ',' !in e.individual.id && ',' !in e.id
    ensures ParseQuotedList(Tooltip(e)) ==
      Some(["O1", e.manipulator.cls, "Id", e.manipulator.id, "O2", e.individual.cls, "Id", e.individual.id, "Id", e.id])
  {
    PairTooltipRoundTrip(e.manipulator, e.individual, e.id);
  }

  /** The info line, as written: the manipulator's info under "Individual:" and the individual's under "Manipulator:". */
  function ToString(e: SlideEvent): string {
    InfoLine("Individual:[", e.manipulator.info, "] Manipulator:[", e.individual.info, e.pairId)
  }

  /** The swapped labels, stated on the printed line, and the pair id read back from its end. */
  lemma {:induction false} ToStringLabelsSwapped(e: SlideEvent)
    ensures var s := ToString(e);
      var m := |"Individual:["| + |e.manipulator.info|;
      var i := m + |"] Manipulator:["| + |e.individual.info|;
      && |s| > i + |"] PairId:"|
      && s[..|"Individual:["|] == "Individual:["
      && s[|"Individual:["|..m] == e.manipulator.info
      && s[m..m + |"] Manipulator:["|] == "] Manipulator:["
      && s[m + |"] Manipulator:["|..i] == e.individual.info
      && s[i..i + |"] PairId:"|] == "] PairId:"
      && ParseLld(s[i + |"] PairId:"|..]) == Some(AsInt64(e.pairId))
  {
    InfoLineReadsBack("Individual:[", e.manipulator.info, "] Manipulator:[", e.individual.info, e.pairId);
  }


  /** One create-sub-action request as the REST client is asked to send it. */
  datatype SubActionRequest = SubActionRequest(
    subActionType: string, taskType: string, objectsParticipated: string, additionalInfo: string,
    start: real, end: EndTime)

  /** The requests handed to the REST client, in order; the client itself is not part of this model. */
  class KnowRobRequests {
    var sent: seq<SubActionRequest>

    constructor ()
      ensures sent == []
    {
      sent := [];
    }

    method SendCreateSubActionRequest(request: SubActionRequest)
      modifies this
      ensures sent == old(sent) + [request]
    {
      sent := sent + [request];
    }
  }

  /** "[class:label,class:label]": the slid individual first, then the manipulator. */
  function ObjectsParticipated(e: SlideEvent): string {
    "[" + e.individual.cls + ":" + e.individual.actorLabel + ","
        + e.manipulator.cls + ":" + e.manipulator.actorLabel + "]"
  }

  /**
   * The participants are read back from the objects string, individual first,
   * when no class or label holds a separator.
   */
  lemma {:induction false} ObjectsParticipatedReadsBack(e: SlideEvent)
    requires ',' !in e.individual.cls && ',' !in e.individual.actorLabel
    requires ',' !in e.manipulator.cls && ',' !in e.manipulator.actorLabel
    requires ':' !in e.individual.cls && ':' !in e.individual.actorLabel
    requires ':' !in e.manipulator.cls && ':' !in e.manipulator.actorLabel
    ensures var s := ObjectsParticipated(e);
      && |s| >= 2 && s[0] == '[' && s[|s| - 1] == ']'
      && Split(s[1..|s| - 1], ',') == [e.individual.cls + ":" + e.individual.actorLabel, e.manipulator.cls + ":" + e.manipulator.actorLabel]
      && Split(e.individual.cls + ":" + e.individual.actorLabel, ':') == [e.individual.cls, e.individual.actorLabel]
      && Split(e.manipulator.cls + ":" + e.manipulator.actorLabel, ':') == [e.manipulator.cls, e.manipulator.actorLabel]
  {
    var a := e.individual.cls + ":" + e.individual.actorLabel;
    var b := e.manipulator.cls + ":" + e.manipulator.actorLabel;
    var s := ObjectsParticipated(e);
    assert s[1..|s| - 1] == Join([a, b], ',');
    assert ',' !in a && ',' !in b;
    SplitJoin([a, b], ',');
    assert Join([e.individual.cls, e.individual.actorLabel], ':') == a;
    SplitJoin([e.individual.cls, e.individual.actorLabel], ':');
    assert Join([e.manipulator.cls, e.manipulator.actorLabel], ':') == b;
    SplitJoin([e.manipulator.cls, e.manipulator.actorLabel], ':');
  }

  /** Sends one "Slide"/"Sliding" sub-action request with the event's times and always answers "Succeed!". */
  method RESTCallToKnowRob(e: SlideEvent, client: KnowRobRequests) returns (answer: string)
    modifies client
    ensures answer == "Succeed!"
    ensures client.sent == old(client.sent) + [SubActionRequest("soma:'Slide'", "soma:'Sliding'", ObjectsParticipated(e), "", e.start, e.end)]
  {
    var objects := ObjectsParticipated(e);
    var subActionType := "soma:'Slide'";
    var taskType := "soma:'Sliding'";
    var additionalInfo := "";
    client.SendCreateSubActionRequest(SubActionRequest(subActionType, taskType, objects, additionalInfo, e.start, e.end));
    return "Succeed!";
  }
}

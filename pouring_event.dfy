/**
 * A pouring event between two individuals, between a start and an end time,
 * identified by a pair id. It becomes a "PouringSituation" event individual,
 * adds itself to an experiment document, and prints a context, a tooltip and
 * an info line.
 */
module PouringEvents {
  import opened Wrappers
  import opened Text
  import opened OwlEvents

  datatype PouringEvent = PouringEvent(
    id: string, start: real, end: EndTime, pairId: UInt64,
    individual1: BaseIndividual, individual2: BaseIndividual, episodeId: string)

  /** The constructor with an end time. */
  function NewPouringEvent(id: string, start: real, end: real, pairId: UInt64,
                           individual1: BaseIndividual, individual2: BaseIndividual): (e: PouringEvent)
    ensures e.id == id && e.start == start && e.end == Some(end) && e.pairId == pairId
    ensures e.individual1 == individual1 && e.individual2 == individual2 && e.episodeId == ""
  {
    PouringEvent(id, start, Some(end), pairId, individual1, individual2, "")
  }

  /** The constructor without an end time, with the participants in the same order. */
  function NewPouringEventNoEnd(id: string, start: real, pairId: UInt64,
                                individual1: BaseIndividual, individual2: BaseIndividual): (e: PouringEvent)
    ensures e.id == id && e.start == start && e.end == None && e.pairId == pairId
    ensures e.individual1 == individual1 && e.individual2 == individual2 && e.episodeId == ""
  {
    PouringEvent(id, start, None, pairId, individual1, individual2, "")
  }

  /** The two constructors differ only in the end time. */
  lemma ConstructorsAgree(id: string, start: real, end: real, pairId: UInt64, individual1: BaseIndividual, individual2: BaseIndividual)
    ensures NewPouringEventNoEnd(id, start, pairId, individual1, individual2)
         == NewPouringEvent(id, start, end, pairId, individual1, individual2).(end := None)
  {
  }

  function ToOwlNode(e: PouringEvent): OwlNode {
    EventIndividual("log", e.id, "PouringSituation", [
      StartTimeProperty("log", e.start),
      EndTimeProperty("log", e.end),
      InEpisodeProperty("log", e.episodeId)])
  }

  /** What a pouring event individual records about its event. */
  datatype PouringRecord = PouringRecord(id: string, start: real, end: EndTime, episodeId: string)

  /**
   * Reads a pouring event individual: namespace "log", class
   * "PouringSituation", and exactly start, end and episode, all in "log".
   */
  function ReadPouringNode(n: OwlNode): Option<PouringRecord> {
    if n.ns == "log" && n.cls == "PouringSituation" && |n.children| == 3 then
      match (n.children[0], n.children[1], n.children[2])
      case (StartTimeProperty("log", s), EndTimeProperty("log", t), InEpisodeProperty("log", ep)) =>
        Some(PouringRecord(n.name, s, t, ep))
      case _ => None
    else None
  }

  function RecordOf(e: PouringEvent): PouringRecord {
    PouringRecord(e.id, e.start, e.end, e.episodeId)
  }

  /** The event individual reads back as the event's id, times and episode. */
  lemma ToOwlNodeReadsBack(e: PouringEvent)
    ensures ReadPouringNode(ToOwlNode(e)) == Some(RecordOf(e))
  {
  }

  /** A node that reads as an event's record is that event's individual: it names no participant. */
  lemma ReadPouringNodeExact(n: OwlNode, e: PouringEvent)
    requires ReadPouringNode(n) == Some(RecordOf(e))
    ensures n == ToOwlNode(e)
    ensures forall k :: 0 <= k < |n.children| ==> !n.children[k].PerformedByProperty? && !n.children[k].ObjectActedOnProperty?
  {
    assert n.children == ToOwlNode(e).children;
  }

  /** Registers both times and both individuals, first then second, then adds the event individual. */
  method AddToOwlDoc(e: PouringEvent, doc: OwlExperiment)
    modifies doc
    ensures doc.Doc() == WithPairEvent(old(doc.Doc()), e.start, e.end, e.individual1, e.individual2, ToOwlNode(e))
  {
    doc.AddPairEvent(e.start, e.end, e.individual1, e.individual2, ToOwlNode(e));
  }

  function Context(e: PouringEvent): string {
    PairContext("Pouring", e.pairId)
  }

  /** The context names the pouring and reads back as its pair id. */
  lemma {:induction false} ContextReadsBack(e: PouringEvent)
    ensures Context(e)[..10] == "Pouring - " && ParseLld(Context(e)[10..]) == Some(AsInt64(e.pairId))
  {
    PairContextRoundTrip("Pouring", e.pairId);
  }

  function Tooltip(e: PouringEvent): string {
    PairTooltip(e.individual1, e.individual2, e.id)
  }

  /** The tooltip names the first individual as O1 and the second as O2, then the event id. */
  lemma {:induction false} TooltipReadsBack(e: PouringEvent)
    requires ',' !in e.individual1.cls && ',' !in e.individual1.id
    requires ',' !in e.individual2.cls && ',' !in e.individual2.id && ',' !in e.id
    ensures ParseQuotedList(Tooltip(e)) ==
      Some(["O1", e.individual1.cls, "Id", e.individual1.id, "O2", e.individual2.cls, "Id", e.individual2.id, "Id", e.id])
  {
    PairTooltipRoundTrip(e.individual1, e.individual2, e.id);
  }

  function ToString(e: PouringEvent): string {
    InfoLine("Individual1:[", e.individual1.info, "] Individual2:[", e.individual2.info, e.pairId)
  }

  /** The info line lists Individual1's info, then Individual2's, then the pair id, which reads back. */
  lemma {:induction false} ToStringReadsBack(e: PouringEvent)
    ensures var s := ToString(e);
      var a := |"Individual1:["| + |e.individual1.info|;
      var b := a + |"] Individual2:["| + |e.individual2.info|;
      && |s| > b + |"] PairId:"|
      && s[..|"Individual1:["|] == "Individual1:["
      && s[|"Individual1:["|..a] == e.individual1.info
      && s[a..a + |"] Individual2:["|] == "] Individual2:["
      && s[a + |"] Individual2:["|..b] == e.individual2.info
      && s[b..b + |"] PairId:"|] == "] PairId:"
      && ParseLld(s[b + |"] PairId:"|..]) == Some(AsInt64(e.pairId))
  {
    InfoLineReadsBack("Individual1:[", e.individual1.info, "] Individual2:[", e.individual2.info, e.pairId);
  }

}

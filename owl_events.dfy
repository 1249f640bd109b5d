/**
 * What the symbolic events share: the individuals they refer to, the OWL
 * event individual they become, the experiment document they are added to,
 * and the context and tooltip strings of a pair event.
 */
module OwlEvents {
  import opened Wrappers
  import opened Text

  /**
   * The parts of a logged individual an event reads: its id and class values,
   * its info line, and the label of its parent actor.
   */
  datatype BaseIndividual = BaseIndividual(id: string, cls: string, info: string, actorLabel: string)

  /**
   * An event's time. The end time is absent when an event was constructed
   * without one and keeps the event base class's default.
   */
  type EndTime = Option<real>

  /** The properties an event individual carries, each in a namespace. */
  datatype OwlProperty =
    | StartTimeProperty(ns: string, start: real)
    | EndTimeProperty(ns: string, end: EndTime)
    | PerformedByProperty(ns: string, agentId: string)
    | ObjectActedOnProperty(ns: string, objectId: string)
    | InEpisodeProperty(ns: string, episodeId: string)

  /** An event individual: namespace, name, class and its ordered child properties. */
  datatype OwlNode = EventIndividual(ns: string, name: string, cls: string, children: seq<OwlProperty>)

  /** The experiment document: registered timepoints, registered objects and the individuals, in order. */
  datatype OwlDoc = OwlDoc(timepoints: seq<EndTime>, objects: seq<BaseIndividual>, individuals: seq<OwlNode>)

  /** A sequence without repeated elements. */
  predicate Distinct<T(==)>(s: seq<T>) {
    forall i, j :: 0 <= i < j < |s| ==> s[i] != s[j]
  }

  /** Registration keeps one entry per value: an element already present is not added again. */
  function Registered<T(==)>(s: seq<T>, x: T): (r: seq<T>)
    ensures x in r
    ensures x in s ==> r == s
    ensures x !in s ==> r == s + [x]
  {
    if x in s then s else s + [x]
  }

  lemma RegisteredKeepsDistinct<T>(s: seq<T>, x: T)
    requires Distinct(s)
    ensures Distinct(Registered(s, x))
    ensures forall y :: y in Registered(s, x) <==> y in s || y == x
  {
  }

  function WithTimepoint(doc: OwlDoc, t: EndTime): OwlDoc {
    doc.(timepoints := Registered(doc.timepoints, t))
  }

  function WithObject(doc: OwlDoc, o: BaseIndividual): OwlDoc {
    doc.(objects := Registered(doc.objects, o))
  }

  function WithIndividual(doc: OwlDoc, node: OwlNode): OwlDoc {
    doc.(individuals := doc.individuals + [node])
  }

  /**
   * The document after a pair event added itself: its start and end
   * timepoints, then its two objects, then its one individual.
   */
  function WithPairEvent(doc: OwlDoc, start: real, end: EndTime, o1: BaseIndividual, o2: BaseIndividual, node: OwlNode): OwlDoc {
    var timed := WithTimepoint(WithTimepoint(doc, Some(start)), end);
    WithIndividual(WithObject(WithObject(timed, o1), o2), node)
  }

  /**
   * Adding a pair event appends exactly its one individual, registers both
   * times and both objects without repeating any, and keeps everything that
   * was registered before.
   */
  lemma {:induction false} WithPairEventShape(doc: OwlDoc, start: real, end: EndTime, o1: BaseIndividual, o2: BaseIndividual, node: OwlNode)
    requires Distinct(doc.timepoints) && Distinct(doc.objects)
    ensures var r := WithPairEvent(doc, start, end, o1, o2, node);
      && r.individuals == doc.individuals + [node]
      && Distinct(r.timepoints) && Distinct(r.objects)
      && (forall t :: t in r.timepoints <==> t in doc.timepoints || t == Some(start) || t == end)
      && (forall o :: o in r.objects <==> o in doc.objects || o == o1 || o == o2)
      && r.timepoints[..|doc.timepoints|] == doc.timepoints
      && r.objects[..|doc.objects|] == doc.objects
  {
    var t1 := Registered(doc.timepoints, Some(start));
    RegisteredKeepsDistinct(doc.timepoints, Some(start));
    RegisteredKeepsDistinct(t1, end);
    var b1 := Registered(doc.objects, o1);
    RegisteredKeepsDistinct(doc.objects, o1);
    RegisteredKeepsDistinct(b1, o2);
  }

  /** The experiment document events add themselves to. */
  class OwlExperiment {
    var timepoints: seq<EndTime>
    var objects: seq<BaseIndividual>
    var individuals: seq<OwlNode>

    function Doc(): OwlDoc
      reads this
    {
      OwlDoc(timepoints, objects, individuals)
    }

    constructor ()
      ensures Doc() == OwlDoc([], [], [])
    {
      timepoints, objects, individuals := [], [], [];
    }

    method RegisterTimepoint(t: EndTime)
      modifies this
      ensures Doc() == WithTimepoint(old(Doc()), t)
    {
      timepoints := Registered(timepoints, t);
    }

    method RegisterObject(o: BaseIndividual)
      modifies this
      ensures Doc() == WithObject(old(Doc()), o)
    {
      objects := Registered(objects, o);
    }

    method AddIndividual(node: OwlNode)
      modifies this
      ensures Doc() == WithIndividual(old(Doc()), node)
    {
      individuals := individuals + [node];
    }

    /** The registration and appending every pair event's AddToOwlDoc performs. */
    method AddPairEvent(start: real, end: EndTime, o1: BaseIndividual, o2: BaseIndividual, node: OwlNode)
      modifies this
      ensures Doc() == WithPairEvent(old(Doc()), start, end, o1, o2, node)
    {
      RegisterTimepoint(Some(start));
      RegisterTimepoint(end);
      RegisterObject(o1);
      RegisterObject(o2);
      AddIndividual(node);
    }
  }

  /** A pair event's context: its kind, a dash, and the pair id as `%lld` prints it. */
  function PairContext(kind: string, pairId: UInt64): string {
    kind + " - " + FormatUInt64AsLld(pairId)
  }

  /** The pair id is read back from the context, and the context names the kind. */
  lemma {:induction false} PairContextRoundTrip(kind: string, pairId: UInt64)
    ensures var c := PairContext(kind, pairId);
      && |c| > |kind| + 3
      && c[..|kind| + 3] == kind + " - "
      && ParseLld(c[|kind| + 3..]) == Some(AsInt64(pairId))
  {
    var c := PairContext(kind, pairId);
    assert c[|kind| + 3..] == FormatUInt64AsLld(pairId);
    LldRoundTrip(AsInt64(pairId));
  }

  /** Two contexts with the same kind are equal only for the same pair id. */
  lemma {:induction false} PairContextInjective(kind: string, p: UInt64, q: UInt64)
    requires PairContext(kind, p) == PairContext(kind, q)
    ensures p == q
  {
    var c := PairContext(kind, p);
    assert c[|kind| + 3..] == FormatUInt64AsLld(p);
    assert PairContext(kind, q)[|kind| + 3..] == FormatUInt64AsLld(q);
    FormatUInt64AsLldInjective(p, q);
  }

  /** A pair event's info line: two labelled infos, then the pair id as `%lld` prints it. */
  function InfoLine(label1: string, info1: string, label2: string, info2: string, pairId: UInt64): string {
    label1 + info1 + label2 + info2 + "] PairId:" + FormatUInt64AsLld(pairId)
  }

  /** Each part of an info line is found at its place, and the pair id reads back from the end. */
  lemma {:induction false} InfoLineReadsBack(label1: string, info1: string, label2: string, info2: string, pairId: UInt64)
    ensures var s := InfoLine(label1, info1, label2, info2, pairId);
      var a := |label1| + |info1|;
      var b := a + |label2| + |info2|;
      && |s| > b + 9
      && s[..|label1|] == label1
      && s[|label1|..a] == info1
      && s[a..a + |label2|] == label2
      && s[a + |label2|..b] == info2
      && s[b..b + 9] == "] PairId:"
      && ParseLld(s[b + 9..]) == Some(AsInt64(pairId))
  {
    var p1 := label1 + info1;
    var p2 := p1 + label2;
    var p3 := p2 + info2;
    var p4 := p3 + "] PairId:";
    var digits := FormatUInt64AsLld(pairId);
    var s := p4 + digits;
    assert s == InfoLine(label1, info1, label2, info2, pairId);
    assert s[..|p4|] == p4 && s[|p4|..] == digits;
    assert p4[..|p3|] == p3 && p4[|p3|..] == "] PairId:";
    assert p3[..|p2|] == p2 && p3[|p2|..] == info2;
    assert p2[..|p1|] == p1 && p2[|p1|..] == label2;
    assert p1[..|label1|] == label1 && p1[|label1|..] == info1;
    LldRoundTrip(AsInt64(pairId));
    assert |digits| > 0;
  }

  /**
   * A pair event's tooltip: the first object's class and id as O1, the
   * second's as O2, then the event id, as single-quoted comma-separated fields.
   */
  function PairTooltip(o1: BaseIndividual, o2: BaseIndividual, id: string): string {
    QuotedList(["O1", o1.cls, "Id", o1.id, "O2", o2.cls, "Id", o2.id, "Id", id])
  }

  /** The tooltip's fields are read back in order when none of them holds a comma. */
  lemma PairTooltipRoundTrip(o1: BaseIndividual, o2: BaseIndividual, id: string)
    requires ',' !in o1.cls && ',' !in o1.id && ',' !in o2.cls && ',' !in o2.id && ',' !in id
    ensures ParseQuotedList(PairTooltip(o1, o2, id)) == Some(["O1", o1.cls, "Id", o1.id, "O2", o2.cls, "Id", o2.id, "Id", id])
  {
    QuotedListRoundTrip(["O1", o1.cls, "Id", o1.id, "O2", o2.cls, "Id", o2.id, "Id", id]);
  }
}

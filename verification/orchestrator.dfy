/**
 * DocumentProcessingOrchestrator of document_processing/orchestrator.py:
 * one run creates a session, runs the five stages in order, writes each
 * stage's result into the session, and files a pattern summary in the
 * memory bank.
 */
module Orchestrator {
  import opened Wrappers
  import opened Text
  import opened Models
  import opened Tools
  import opened Session
  import opened Agents

  /** The document id: the caller's when it is given and non-empty, otherwise one made from the clock. */
  function DocumentId(documentId: Option<string>, clockStamp: string): (id: string)
    ensures documentId.Some? && documentId.value != "" ==> id == documentId.value
    ensures documentId.None? || documentId.value == "" ==> id == "doc_" + clockStamp
  {
    match documentId
    case Some(d) => if d != "" then d else "doc_" + clockStamp
    case None => "doc_" + clockStamp
  }

  function SessionId(documentId: string): string {
    "session_" + documentId
  }

  /** Different documents get different sessions: the session id determines the document id. */
  lemma SessionIdInjective(a: string, b: string)
    ensures SessionId(a) == SessionId(b) ==> a == b
  {
    assert SessionId(a)[8..] == a && SessionId(b)[8..] == b;
  }

  /** The highest-ranked level of a non-empty list, under High=3 > Medium=2 > Low=1. */
  function MaxLevel(levels: seq<Level>): (top: Level)
    requires |levels| > 0
    ensures top in levels
    ensures forall l :: l in levels ==> Rank(l) <= Rank(top)
  {
    if |levels| == 1 then levels[0]
    else
      var rest := MaxLevel(levels[1..]);
      assert forall l :: l in levels ==> l == levels[0] || l in levels[1..];
      if Rank(levels[0]) >= Rank(rest) then levels[0] else rest
  }

  function Levels(risks: seq<Risk>): (levels: seq<Level>)
    ensures |levels| == |risks|
    ensures forall i :: 0 <= i < |risks| ==> levels[i] == risks[i].level
  {
    seq(|risks|, i requires 0 <= i < |risks| => risks[i].level)
  }

  /** The pattern a run files: dates plus amounts found, the number of actions, the most severe risk level. */
  function RunPattern(m: Metadata, actions: seq<ActionItem>, risks: seq<Risk>): (p: PatternRecord)
    requires |risks| > 0
    ensures p.entitiesFound == |m.dates| + |m.amounts| && p.actionCount == |actions|
    ensures exists i :: 0 <= i < |risks| && risks[i].level == p.riskLevel
    ensures forall i :: 0 <= i < |risks| ==> Rank(risks[i].level) <= Rank(p.riskLevel)
  {
    var levels := Levels(risks);
    assert forall i :: 0 <= i < |risks| ==> levels[i] in levels;
    var top := MaxLevel(levels);
    var k :| 0 <= k < |levels| && levels[k] == top;
    assert risks[k].level == top;
    PatternRecord(|m.dates| + |m.amounts|, |actions|, top)
  }

  /** The session a run leaves: the six stage results under their keys, and one history entry per write. */
  function RunSession(id: string, docType: string, confidence: real, m: Metadata, actions: seq<ActionItem>,
                      summary: string, risks: seq<Risk>, render: Value -> string): Session
  {
    var s0 := Session(id, map[], []);
    var s1 := Updated(s0, "doc_type", Str(docType), render(Str(docType)));
    var s2 := Updated(s1, "confidence", Number(confidence), render(Number(confidence)));
    var s3 := Updated(s2, "metadata", MetadataValue(m), render(MetadataValue(m)));
    var s4 := Updated(s3, "action_items", ActionsValue(actions), render(ActionsValue(actions)));
    var s5 := Updated(s4, "summary", Str(summary), render(Str(summary)));
    Updated(s5, "risks", RisksValue(risks), render(RisksValue(risks)))
  }

  /** The keys a run writes, in order. */
  const StageKeys := ["doc_type", "confidence", "metadata", "action_items", "summary", "risks"]

  /** After a run the session holds exactly the six keys with the stage results, and six history entries, one per key in order. */
  lemma RunSessionShape(id: string, docType: string, confidence: real, m: Metadata, actions: seq<ActionItem>,
                        summary: string, risks: seq<Risk>, render: Value -> string)
    ensures var s := RunSession(id, docType, confidence, m, actions, summary, risks, render);
      && s.id == id
      && s.state == map["doc_type" := Str(docType), "confidence" := Number(confidence), "metadata" := MetadataValue(m),
                        "action_items" := ActionsValue(actions), "summary" := Str(summary), "risks" := RisksValue(risks)]
      && s.state.Keys == {"doc_type", "confidence", "metadata", "action_items", "summary", "risks"}
      && |s.history| == 6
      && (forall k :: 0 <= k < 6 ==> s.history[k].action == "Updated " + StageKeys[k])
      && (forall k :: 0 <= k < 6 ==> |s.history[k].value| <= HistoryValueLimit)
  {
    var s := RunSession(id, docType, confidence, m, actions, summary, risks, render);
    assert s.history[0] == UpdateEntry("doc_type", render(Str(docType)));
    assert s.history[5] == UpdateEntry("risks", render(RisksValue(risks)));
  }

  class DocumentOrchestrator {
    const sessionService: SessionService
    const memoryBank: MemoryBank
    const extractor: ExtractionAgent

    /** The extraction stage reads the orchestrator's own session service. */
    predicate Valid()
      reads this, sessionService, memoryBank
    {
      extractor.sessionService == sessionService && sessionService.Valid() && memoryBank.Valid()
    }

    constructor(render: Value -> string)
      ensures Valid()
      ensures fresh(sessionService) && fresh(memoryBank)
      ensures sessionService.sessions == map[] && sessionService.render == render
      ensures forall key :: key in memoryBank.patterns ==> memoryBank.patterns[key] == []
    {
      var sessions := new SessionService(render);
      sessionService := sessions;
      memoryBank := new MemoryBank();
      extractor := new ExtractionAgent(sessions);
    }

    /**
     * process_document. The clock-made id, the timestamp and the elapsed
     * time are given by the caller.
     */
    method ProcessDocument(text: string, documentId: Option<string>, clockStamp: string, timestamp: string, elapsedMs: nat)
      returns (result: ProcessingResult)
      requires Valid()
      modifies sessionService, memoryBank
      ensures Valid()
      ensures result.documentId == DocumentId(documentId, clockStamp)
      ensures result.timestamp == timestamp && result.processingTimeMs == elapsedMs
      ensures var m := result.metadata;
        && m.docType == Classify(text).0 && m.confidence == Classify(text).1
        && m.dates == Take(Dates(text), MetadataLimit)
        && m.amounts == Take(ExtractAmounts(text), MetadataLimit)
        && m.references == Take(References(text), MetadataLimit)
        && NoDuplicates(m.parties) && |m.parties| == Min(MetadataLimit, |PartySet(text)|)
        && (forall p :: p in m.parties ==> PartyOfText(text, p))
      ensures result.actionItems == ExpectedActions(result.metadata, text)
      ensures result.summary == Summary(result.metadata, result.actionItems)
      ensures result.risks == ExpectedRisks(result.metadata, text)
      ensures |result.risks| > 0
      ensures var id := SessionId(result.documentId);
        sessionService.sessions == old(sessionService.sessions)[id :=
          RunSession(id, result.metadata.docType, result.metadata.confidence, result.metadata,
                     result.actionItems, result.summary, result.risks, sessionService.render)]
      ensures var key := PatternKey(result.metadata.docType);
        var pattern := RunPattern(result.metadata, result.actionItems, result.risks);
        if key in old(memoryBank.patterns) then memoryBank.patterns == old(memoryBank.patterns)[key := old(memoryBank.patterns)[key] + [pattern]]
        else memoryBank.patterns == old(memoryBank.patterns)
    {
      var id := DocumentId(documentId, clockStamp);
      var sessionId := SessionId(id);
      ghost var before := sessionService.sessions;
      var s0 := sessionService.CreateSession(sessionId);

      var classification := Classify(text);
      var docType := classification.0;
      var confidence := classification.1;
      ghost var s1 := Record(sessionId, "doc_type", Str(docType), before, s0);
      ghost var s2 := Record(sessionId, "confidence", Number(confidence), before, s1);

      assert sessionService.GetState(sessionId, "doc_type") == Some(Str(docType));
      assert sessionService.GetState(sessionId, "confidence") == Some(Number(confidence));
      var metadata := extractor.Extract(text, sessionId);
      assert metadata.docType == docType && metadata.confidence == confidence;
      ghost var s3 := Record(sessionId, "metadata", MetadataValue(metadata), before, s2);

      var actions := IdentifyActions(metadata, text);
      ghost var s4 := Record(sessionId, "action_items", ActionsValue(actions), before, s3);

      var summary := Summary(metadata, actions);
      ghost var s5 := Record(sessionId, "summary", Str(summary), before, s4);

      var risks := AssessRisks(metadata, text);
      ghost var s6 := Record(sessionId, "risks", RisksValue(risks), before, s5);

      RisksNonEmpty(metadata, text);
      memoryBank.StorePattern(docType, RunPattern(metadata, actions, risks));

      result := ProcessingResult(id, timestamp, metadata, actions, summary, risks, elapsedMs);
    }

    /** One stage write of a run: the run's session, filed under its id, takes one more update. */
    method Record(sessionId: string, key: string, v: Value, ghost before: map<string, Session>, ghost s: Session)
      returns (ghost next: Session)
      requires Valid()
      requires sessionService.sessions == before[sessionId := s]
      modifies sessionService
      ensures Valid()
      ensures next == Updated(s, key, v, sessionService.render(v))
      ensures sessionService.sessions == before[sessionId := next]
    {
      sessionService.UpdateState(sessionId, key, v);
      next := Updated(s, key, v, sessionService.render(v));
    }
  }

  /** The pattern a run files counts at most ten entities, since at most five dates and five amounts are kept. */
  lemma RunPatternBounds(m: Metadata, actions: seq<ActionItem>, risks: seq<Risk>)
    requires |m.dates| <= MetadataLimit && |m.amounts| <= MetadataLimit
    requires |risks| > 0
    ensures RunPattern(m, actions, risks).entitiesFound <= 10
    ensures RunPattern(m, actions, risks).riskLevel == Low <==> forall i :: 0 <= i < |risks| ==> risks[i].level == Low
  {
    var top := MaxLevel(Levels(risks));
    if top == Low {
      forall i | 0 <= i < |risks|
        ensures risks[i].level == Low
      {
        assert Levels(risks)[i] in Levels(risks);
      }
    } else {
      var i :| 0 <= i < |risks| && Levels(risks)[i] == top;
    }
  }

  /** Of the five classifications, only Invoice and Contract have a pattern list in the memory bank. */
  lemma KeptDocTypes()
    ensures PatternKey("Invoice") in InitialKeys && PatternKey("Contract") in InitialKeys
    ensures PatternKey("Report") !in InitialKeys && PatternKey("Proposal") !in InitialKeys
    ensures PatternKey("General Document") !in InitialKeys
  {
    LowerInvoice();
    LowerContract();
    assert Lower("Proposal")[0] == 'p';
    KeptTypes("Invoice");
    KeptTypes("Contract");
    KeptTypes("Report");
    KeptTypes("Proposal");
    KeptTypes("General Document");
  }

  lemma LowerInvoice()
    ensures Lower("Invoice") == "invoice"
  {
  }

  lemma LowerContract()
    ensures Lower("Contract") == "contract"
  {
  }
}

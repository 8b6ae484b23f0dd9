/** The record types of document_processing/models.py. */
module Models {
  import opened Wrappers

  /** Action priority and risk level: the strings "High", "Medium" and "Low" of the source. */
  datatype Level = High | Medium | Low

  /** The ordering used to pick the most severe risk of a run: High=3, Medium=2, Low=1. */
  function Rank(l: Level): nat {
    match l
    case High => 3
    case Medium => 2
    case Low => 1
  }

  datatype Metadata = Metadata(
    docType: string,
    confidence: real,
    dates: seq<string>,
    amounts: seq<string>,
    parties: seq<string>,
    references: seq<string>)

  datatype ActionItem = ActionItem(priority: Level, action: string, assignee: string, dueDate: Option<string>)

  datatype Risk = Risk(level: Level, description: string, recommendation: string)

  datatype ProcessingResult = ProcessingResult(
    documentId: string,
    timestamp: string,
    metadata: Metadata,
    actionItems: seq<ActionItem>,
    summary: string,
    risks: seq<Risk>,
    processingTimeMs: nat)

  /** The outcome summary the orchestrator files in the memory bank after each run. */
  datatype PatternRecord = PatternRecord(entitiesFound: nat, actionCount: nat, riskLevel: Level)
}

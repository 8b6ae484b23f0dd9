/**
 * The session service and the memory bank of document_processing/session.py:
 * a map of sessions, each with a state map and an append-only history, and a
 * store of per-document-type pattern lists that only accepts existing keys.
 */
module Session {
  import opened Wrappers
  import opened Text
  import opened Models

  /** The values the pipeline writes into a session's state. */
  datatype Value =
    | Str(s: string)
    | Number(x: real)
    | MetadataValue(m: Metadata)
    | ActionsValue(items: seq<ActionItem>)
    | RisksValue(risks: seq<Risk>)

  /** One history record: the action performed and the value's rendering, cut to 100 characters. */
  datatype HistoryEntry = HistoryEntry(action: string, value: string)

  datatype Session = Session(id: string, state: map<string, Value>, history: seq<HistoryEntry>)

  /** The longest rendering a history entry keeps. */
  const HistoryValueLimit: nat := 100

  /** The record update_state appends: the action names the key, the value is cut to the limit. */
  function UpdateEntry(key: string, rendered: string): (e: HistoryEntry)
    ensures e.action == "Updated " + key
    ensures |e.value| == Min(|rendered|, HistoryValueLimit) && e.value == rendered[..|e.value|]
    ensures |rendered| <= HistoryValueLimit ==> e.value == rendered
  {
    HistoryEntry("Updated " + key, Take(rendered, HistoryValueLimit))
  }

  /** The session after one effective update_state. */
  function Updated(s: Session, key: string, v: Value, rendered: string): Session {
    Session(s.id, s.state[key := v], s.history + [UpdateEntry(key, rendered)])
  }

  /** Python's `str()` of a stored value is not modelled; each service is given its rendering. */
  class SessionService {
    var sessions: map<string, Session>
    const render: Value -> string

    /** Every session is filed under its own id, and every history entry keeps at most 100 characters. */
    predicate Valid()
      reads this
    {
      forall id :: id in sessions ==>
        sessions[id].id == id &&
        forall k :: 0 <= k < |sessions[id].history| ==> |sessions[id].history[k].value| <= HistoryValueLimit
    }

    constructor(render: Value -> string)
      ensures sessions == map[]
      ensures this.render == render
      ensures Valid()
    {
      sessions := map[];
      this.render := render;
    }

    /** create_session: a fresh session with empty state and history, replacing any session with the same id. */
    method CreateSession(id: string) returns (s: Session)
      requires Valid()
      modifies this
      ensures s == Session(id, map[], [])
      ensures sessions == old(sessions)[id := s]
      ensures Valid()
    {
      s := Session(id, map[], []);
      sessions := sessions[id := s];
    }

    /** get_session. */
    function GetSession(id: string): (r: Option<Session>)
      reads this
      ensures r.Some? <==> id in sessions
      ensures r.Some? ==> r.value == sessions[id]
    {
      if id in sessions then Some(sessions[id]) else None
    }

    /** update_state: nothing happens for an unknown id; otherwise the key is set and one history entry appended. */
    method UpdateState(id: string, key: string, v: Value)
      requires Valid()
      modifies this
      ensures id !in old(sessions) ==> sessions == old(sessions)
      ensures id in old(sessions) ==> sessions == old(sessions)[id := Updated(old(sessions)[id], key, v, render(v))]
      ensures Valid()
      ensures id in old(sessions) ==> GetState(id, key) == Some(v)
      ensures forall k :: k != key ==> GetState(id, k) == old(GetState(id, k))
      ensures forall other :: other != id ==> GetSession(other) == old(GetSession(other))
      ensures id in old(sessions) ==> |sessions[id].history| == |old(sessions[id].history)| + 1
    {
      if id !in sessions {
        return;
      }
      sessions := sessions[id := Updated(sessions[id], key, v, render(v))];
    }

    /** get_state: None when the session or the key is absent. */
    function GetState(id: string, key: string): (r: Option<Value>)
      reads this
      ensures r.Some? <==> id in sessions && key in sessions[id].state
      ensures r.Some? ==> r.value == sessions[id].state[key]
    {
      match GetSession(id)
      case None => None
      case Some(s) => if key in s.state then Some(s.state[key]) else None
    }
  }

  /** The keys a memory bank starts with; none is ever added. */
  const InitialKeys: set<string> := {"invoice_patterns", "contract_patterns", "common_entities", "action_templates"}

  /** The key a document type's patterns are filed under. */
  function PatternKey(docType: string): (key: string)
    ensures |key| == |docType| + 9
    ensures key[..|docType|] == Lower(docType) && key[|docType|..] == "_patterns"
  {
    Lower(docType) + "_patterns"
  }

  class MemoryBank {
    var patterns: map<string, seq<PatternRecord>>

    predicate Valid()
      reads this
    {
      patterns.Keys == InitialKeys
    }

    constructor()
      ensures patterns == map["invoice_patterns" := [], "contract_patterns" := [], "common_entities" := [], "action_templates" := []]
      ensures Valid()
    {
      patterns := map["invoice_patterns" := [], "contract_patterns" := [], "common_entities" := [], "action_templates" := []];
    }

    /** store_pattern: append under the type's key when that key exists; otherwise drop the pattern. */
    method StorePattern(docType: string, pattern: PatternRecord)
      requires Valid()
      modifies this
      ensures var key := PatternKey(docType);
        if key in old(patterns) then patterns == old(patterns)[key := old(patterns)[key] + [pattern]]
        else patterns == old(patterns)
      ensures Valid()
      ensures PatternKey(docType) in patterns ==> RetrievePatterns(docType) == old(RetrievePatterns(docType)) + [pattern]
    {
      var key := PatternKey(docType);
      if key in patterns {
        patterns := patterns[key := patterns[key] + [pattern]];
      }
    }

    /** retrieve_patterns: the list under the type's key, or the empty list when there is none. */
    function RetrievePatterns(docType: string): (r: seq<PatternRecord>)
      reads this
      ensures PatternKey(docType) in patterns ==> r == patterns[PatternKey(docType)]
      ensures PatternKey(docType) !in patterns ==> r == []
    {
      var key := PatternKey(docType);
      if key in patterns then patterns[key] else []
    }
  }

  /**
   * Only the invoice and contract types have a pattern list: "common_entities"
   * and "action_templates" do not end in "_patterns", so no type reaches them.
   */
  lemma KeptTypes(docType: string)
    ensures PatternKey(docType) in InitialKeys <==> Lower(docType) == "invoice" || Lower(docType) == "contract"
  {
    var low := Lower(docType);
    assert PatternKey(docType) == low + "_patterns";
    SuffixedKeys(low);
  }

  /** Which of the initial keys a name followed by "_patterns" can be. */
  lemma SuffixedKeys(low: string)
    ensures low + "_patterns" != "common_entities"
    ensures low + "_patterns" != "action_templates"
    ensures low + "_patterns" == "invoice_patterns" <==> low == "invoice"
    ensures low + "_patterns" == "contract_patterns" <==> low == "contract"
  {
    var key := low + "_patterns";
    assert key[|key| - 8] == 'p';
    assert "common_entities"[7] == 'e';
    assert "action_templates"[8] == 'e';
    if key == "invoice_patterns" {
      assert low == key[..7];
    }
    if key == "contract_patterns" {
      assert low == key[..8];
    }
  }
}

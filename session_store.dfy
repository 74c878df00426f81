/**
 * The global session store: the list of session summaries shown on the home screen,
 * replaced wholesale when the saved index is loaded and appended to after each export.
 */
module SessionStore {
  import opened Wrappers

  /** A recorded session's summary; counts are naturals (the backend's u32 bound is not modelled), means and durations reals. */
  datatype SessionSummary = SessionSummary(
    id: string,
    subjectName: string,
    exportedAt: string,
    csvPath: string,
    sampleCount: nat,
    durationSecs: real,
    focusedCount: nat,
    unfocusedCount: nat,
    meanAlpha: real,
    meanTheta: real,
    meanAttention: real,
    meanMeditation: real,
    signalQualityPct: real)

  /** The updater addSession hands to `set`: a new list with the summary at the end. */
  function WithSession(sessions: seq<SessionSummary>, summary: SessionSummary): (r: seq<SessionSummary>)
    ensures |r| == |sessions| + 1
    ensures r[..|sessions|] == sessions && r[|sessions|] == summary
  {
    sessions + [summary]
  }

  /** The list after one addSession call per summary, in call order. */
  function AfterAdds(sessions: seq<SessionSummary>, summaries: seq<SessionSummary>): seq<SessionSummary>
    decreases |summaries|
  {
    if summaries == [] then sessions
    else AfterAdds(WithSession(sessions, summaries[0]), summaries[1..])
  }

  /** Successive adds keep every earlier summary and append the new ones in the order they were added. */
  lemma {:induction false} AddsKeepCallOrder(sessions: seq<SessionSummary>, summaries: seq<SessionSummary>)
    ensures AfterAdds(sessions, summaries) == sessions + summaries
    decreases |summaries|
  {
    if summaries != [] {
      AddsKeepCallOrder(WithSession(sessions, summaries[0]), summaries[1..]);
      assert sessions + [summaries[0]] + summaries[1..] == sessions + summaries;
    }
  }

  class SessionStore {
    var sessions: seq<SessionSummary>

    constructor ()
      ensures sessions == []
    {
      sessions := [];
    }

    /**
     * loadSessions: the saved index, when the backend returns one, replaces the list;
     * a failed load leaves it as it was.
     */
    method LoadSessions(loaded: Option<seq<SessionSummary>>)
      modifies this
      ensures loaded.Some? ==> sessions == loaded.value
      ensures loaded.None? ==> sessions == old(sessions)
    {
      if loaded.Some? {
        sessions := loaded.value;
      }
    }

    /** addSession. */
    method AddSession(summary: SessionSummary)
      modifies this
      ensures sessions == WithSession(old(sessions), summary)
    {
      sessions := WithSession(sessions, summary);
    }
  }

  /**
   * Two exports in a row list both summaries in export order; a load that completes
   * afterwards replaces them with the saved index.
   */
  method ExportsThenLoad(first: SessionSummary, second: SessionSummary, saved: seq<SessionSummary>)
    returns (afterExports: seq<SessionSummary>, afterLoad: seq<SessionSummary>)
    ensures afterExports == [first, second]
    ensures afterLoad == saved
  {
    var store := new SessionStore();
    store.AddSession(first);
    store.AddSession(second);
    afterExports := store.sessions;
    store.LoadSessions(Some(saved));
    afterLoad := store.sessions;
  }

  /** A failed load after an export keeps the exported summary. */
  method FailedLoadKeepsSessions(summary: SessionSummary) returns (sessions: seq<SessionSummary>)
    ensures sessions == [summary]
  {
    var store := new SessionStore();
    store.AddSession(summary);
    store.LoadSessions(None);
    sessions := store.sessions;
  }
}

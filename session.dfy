/**
 * The browser client's session state: the form, the displayed result, the
 * loading and error flags, the auto-analysis switch, the history list and its
 * persisted mirror in local storage.
 */
module Session {
  import opened Wrappers
  import opened Patient
  import opened Payload
  import opened History

  const ConnectionFailed := "Server Connection Failed."
  const DefaultApiUrl := "http://localhost:5001"

  predicate StartsWith(s: string, prefix: string) {
    |prefix| <= |s| && s[..|prefix|] == prefix
  }

  /**
   * The service's base URL: the configured value, or the local default when
   * it is unset or empty, with "https://" put in front when it does not start
   * with "http".
   */
  function ApiBaseUrl(configured: Option<string>): (url: string)
    ensures StartsWith(url, "http")
    ensures configured.None? || configured.value == "" ==> url == DefaultApiUrl
    ensures configured.Some? && configured.value != "" ==>
              url == if StartsWith(configured.value, "http") then configured.value
                     else "https://" + configured.value
  {
    var base := if configured.Some? && configured.value != "" then configured.value else DefaultApiUrl;
    if StartsWith(base, "http") then base
    else
      assert ("https://" + base)[..4] == "http";
      "https://" + base
  }

  /** Normalising an already normalised URL changes nothing. */
  lemma ApiBaseUrlIdempotent(configured: Option<string>)
    ensures ApiBaseUrl(Some(ApiBaseUrl(configured))) == ApiBaseUrl(configured)
  {
  }

  /**
   * A host name that itself begins with "http" passes the prefix test and
   * keeps no scheme.
   */
  lemma HostNamedHttpKeepsNoScheme()
    ensures ApiBaseUrl(Some("httpbin.org")) == "httpbin.org"
    ensures !StartsWith(ApiBaseUrl(Some("httpbin.org")), "http://")
    ensures !StartsWith(ApiBaseUrl(Some("httpbin.org")), "https://")
  {
    assert "httpbin.org"[..4] == "http";
    assert "httpbin.org"[..7] != "http://" by { assert "httpbin.org"[4] != ':'; }
    assert "httpbin.org"[..8] != "https://" by { assert "httpbin.org"[4] != 's'; }
  }

  predicate HasScheme(s: string) {
    StartsWith(s, "http://") || StartsWith(s, "https://")
  }

  /** The base URL with the scheme test the normaliser evidently means: a full "http://" or "https://". */
  function ApiBaseUrlWithScheme(configured: Option<string>): (url: string)
    ensures HasScheme(url)
    ensures configured.Some? && HasScheme(configured.value) ==> url == configured.value
    ensures configured.Some? && configured.value != "" && !HasScheme(configured.value) ==>
              url == "https://" + configured.value
  {
    var base := if configured.Some? && configured.value != "" then configured.value else DefaultApiUrl;
    assert DefaultApiUrl[..7] == "http://";
    if HasScheme(base) then base
    else
      assert ("https://" + base)[..8] == "https://";
      "https://" + base
  }

  /** Outcome of one request to `/predict`, as the client sees it. */
  datatype Response = Success(body: PredictionResult) | Failure

  class Session {
    var formData: PatientRecord
    var result: Option<PredictionResult>
    var loading: bool
    var error: Option<string>
    var autoAnalyze: bool
    var history: seq<HistoryEntry>
    /** The value under the `safebeat_history` key of local storage; `None` when the key is absent. */
    var stored: Option<seq<HistoryEntry>>

    /** The persisted mirror holds the list in memory, or is absent while the list is empty. */
    ghost predicate Persisted()
      reads this
    {
      stored == Some(history) || (stored == None && history == [])
    }

    /** The list is within capacity and free of repeated keys. */
    ghost predicate Bounded()
      reads this
    {
      |history| <= Capacity && KeysUnique(history)
    }

    /** The session at start-up, restoring the history from `saved` when the key is present. */
    constructor (saved: Option<seq<HistoryEntry>>)
      ensures formData == InitialData && result == None && !loading && error == None && !autoAnalyze
      ensures stored == saved && history == saved.GetOr([])
      ensures Persisted()
    {
      formData := InitialData;
      result := None;
      loading := false;
      error := None;
      autoAnalyze := false;
      stored := saved;
      history := if saved.Some? then saved.value else [];
    }

    /** Records the pair (`data`, `res`) and writes the new list to local storage. */
    method UpdateHistory(data: PatientRecord, res: PredictionResult, now: int, date: string)
      modifies this
      ensures history == Updated(old(history), MakeEntry(now, date, data, res))
      ensures |history| <= Capacity && history[0].data == data && history[0].result == res
      ensures old(KeysUnique(history)) ==> Bounded()
      ensures stored == Some(history) && Persisted()
      ensures formData == old(formData) && result == old(result) && loading == old(loading)
      ensures error == old(error) && autoAnalyze == old(autoAnalyze)
    {
      if KeysUnique(history) {
        UpdatedKeepsKeysUnique(history, MakeEntry(now, date, data, res));
      }
      history := Updated(history, MakeEntry(now, date, data, res));
      stored := Some(history);
    }

    /** Puts a past entry's input and result back on screen. */
    method LoadHistoryItem(item: HistoryEntry)
      modifies this
      ensures formData == item.data && result == Some(item.result)
      ensures history == old(history) && stored == old(stored) && loading == old(loading)
      ensures error == old(error) && autoAnalyze == old(autoAnalyze)
    {
      formData := item.data;
      result := Some(item.result);
    }

    /** Empties the list and removes its key from local storage. */
    method ClearHistory()
      modifies this
      ensures history == [] && stored == None && Persisted() && Bounded()
      ensures formData == old(formData) && result == old(result) && loading == old(loading)
      ensures error == old(error) && autoAnalyze == old(autoAnalyze)
    {
      history := [];
      stored := None;
    }

    /** Flips the auto-analysis switch. */
    method ToggleAutoAnalyze()
      modifies this`autoAnalyze
      ensures autoAnalyze == !old(autoAnalyze)
    {
      autoAnalyze := !autoAnalyze;
    }

    /**
     * One edit of field `name`.  Returns the record sent for analysis, which
     * happens only in auto mode and never for an edit of the patient name.
     */
    method HandleChange(name: Field, value: string) returns (request: Option<PatientRecord>)
      modifies this`formData
      ensures formData == Set(old(formData), name, value)
      ensures request.Some? <==> autoAnalyze && name != PatientName
      ensures request.Some? ==> request.value == formData
    {
      formData := Set(formData, name, value);
      if autoAnalyze && name != PatientName {
        request := Some(formData);
      } else {
        request := None;
      }
    }

    /**
     * The completion of an automatic analysis of `data`: a success shows and
     * records the response; a failure is ignored and leaves everything as it was.
     */
    method TriggerAnalysis(data: PatientRecord, response: Response, now: int, date: string)
      modifies this
      ensures response.Success? ==>
                result == Some(response.body)
                && history == Updated(old(history), MakeEntry(now, date, data, response.body))
                && stored == Some(history)
      ensures response.Failure? ==> result == old(result) && history == old(history) && stored == old(stored)
      ensures formData == old(formData) && loading == old(loading) && error == old(error)
      ensures autoAnalyze == old(autoAnalyze)
    {
      if response.Success? {
        result := Some(response.body);
        UpdateHistory(data, response.body, now, date);
      }
    }

    /**
     * A manual analysis of the current form: a success shows and records the
     * response; a failure sets the connection error and keeps the old result
     * and history.  Loading is off again either way.
     */
    method HandleSubmit(response: Response, now: int, date: string)
      modifies this
      ensures !loading
      ensures response.Success? ==>
                result == Some(response.body) && error == None
                && history == Updated(old(history), MakeEntry(now, date, old(formData), response.body))
                && stored == Some(history)
      ensures response.Failure? ==>
                error == Some(ConnectionFailed)
                && result == old(result) && history == old(history) && stored == old(stored)
      ensures formData == old(formData) && autoAnalyze == old(autoAnalyze)
    {
      loading := true;
      error := None;
      match response {
        case Success(body) =>
          result := Some(body);
          UpdateHistory(formData, body, now, date);
        case Failure =>
          error := Some(ConnectionFailed);
      }
      loading := false;
    }
  }

  /** A reload of the page: a new session restores exactly the list the old one held. */
  method Reload(s: Session) returns (t: Session)
    requires s.Persisted()
    ensures fresh(t) && t.history == s.history && t.stored == s.stored
    ensures t.formData == InitialData && t.result == None
  {
    t := new Session(s.stored);
  }

  /** Clearing the history and then reloading the page starts from an empty list with no stored key. */
  method ClearThenReload(s: Session) returns (t: Session)
    modifies s
    ensures fresh(t) && t.history == [] && t.stored == None
    ensures t.formData == InitialData && t.result == None
  {
    s.ClearHistory();
    t := Reload(s);
  }
}

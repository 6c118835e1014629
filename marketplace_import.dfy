/** The marketplace inventory-import API. The viewer keeps the session cookie
    and the import flags as module-level state; three calls start HTTP
    requests and two response handlers update the state when the replies
    arrive. Each transition is first defined on a value (`ImportState`) and
    then carried out by the class `ImportSession`, whose methods are proved to
    follow those definitions. Outgoing requests are recorded, not sent. */
module MarketplaceImport {
  import opened Wrappers
  import MarketplaceDomain

  /** The status codes the import service answers with. Their numeric values
      are defined outside this model, so the named ones are distinct
      constructors and every other HTTP status is `Code(n)`. */
  datatype Status =
    | ImportDone
    | ImportProcessing
    | ImportRedirect
    | ImportAuthenticationError
    | ImportJobTimeout
    | Code(n: nat)

  /** A response body: the empty map, the undefined value or a scalar. */
  datatype Content = Undefined | EmptyMap | Scalar(text: string)

  /** String rendering of a body; a map or an undefined value renders as "". */
  function AsString(c: Content): string
  {
    match c
    case Scalar(t) => t
    case _ => ""
  }

  type Headers = seq<(string, string)>

  /** An HTTP request handed to the transport, with the handler that will
      receive its reply implied by the verb. */
  datatype Request =
    | Get(url: string, headers: Headers)
    | Post(url: string, body: Content, headers: Headers)

  /** Inputs from the rest of the viewer: the marketplace URL (already
      expanded from its string template), the agent id, the browser user
      agent and the media cookie headers. */
  datatype Env = Env(marketplaceUrl: string, agentId: string, userAgent: string, mediaHeaders: Headers)

  datatype ImportState = ImportState(
    cookie: string,
    importId: Content,
    inProgress: bool,
    postPending: bool,
    getPending: bool,
    resultStatus: Status,
    results: Content)

  const InitialState: ImportState := ImportState("", EmptyMap, false, false, false, Code(0), EmptyMap)

  /** The state after a call, the requests it issued and its return value. */
  datatype Outcome = Outcome(state: ImportState, sent: seq<Request>, ok: bool)

  predicate HasCookie(s: ImportState)
  {
    s.cookie != ""
  }

  predicate ResultPending(s: ImportState)
  {
    s.postPending || s.getPending
  }

  function ImportUrl(env: Env): string
  {
    MarketplaceDomain.InventoryImportUrl(env.marketplaceUrl, env.agentId)
  }

  function PollHeaders(cookie: string, userAgent: string): Headers
  {
    [("Accept", "*/*"), ("Cookie", cookie), ("Content-Type", "application/llsd+xml"), ("User-Agent", userAgent)]
  }

  function PostHeaders(cookie: string, userAgent: string): Headers
  {
    [("Accept", "*/*"), ("Connection", "Keep-Alive"), ("Cookie", cookie),
     ("Content-Type", "application/xml"), ("User-Agent", userAgent)]
  }

  /** Response codes on which each handler forgets the session cookie. */
  predicate PostClearsCookie(status: Status)
  {
    status == ImportRedirect || status == ImportAuthenticationError || status == ImportJobTimeout
  }

  predicate GetClearsCookie(status: Status)
  {
    status == ImportAuthenticationError || status == ImportJobTimeout
  }

  /** Starts a session: without a cookie, one GET to the import URL. */
  function Establish(s: ImportState, env: Env): (o: Outcome)
    ensures o.ok <==> !HasCookie(s)
    ensures !o.ok ==> o.state == s && o.sent == []
    ensures o.ok ==> o.state.inProgress && o.state.getPending
    ensures o.ok ==> o.sent == [Get(ImportUrl(env), env.mediaHeaders)]
    ensures o.state.cookie == s.cookie && o.state.importId == s.importId && o.state.results == s.results
    ensures o.state.postPending == s.postPending && o.state.resultStatus == s.resultStatus
  {
    if HasCookie(s) then Outcome(s, [], false)
    else Outcome(s.(inProgress := true, getPending := true), [Get(ImportUrl(env), env.mediaHeaders)], true)
  }

  /** Asks for the status of the current import, identified by its id. */
  function Poll(s: ImportState, env: Env): (o: Outcome)
    ensures o.ok <==> HasCookie(s)
    ensures !o.ok ==> o.state == s && o.sent == []
    ensures o.ok ==> o.state.getPending
    ensures o.ok ==> |o.sent| == 1 && o.sent[0].Get? && o.sent[0].url == ImportUrl(env) + AsString(s.importId)
    ensures o.ok ==> o.sent[0].headers == PollHeaders(s.cookie, env.userAgent)
    ensures o.state.(getPending := s.getPending) == s
  {
    if !HasCookie(s) then Outcome(s, [], false)
    else
      var url := ImportUrl(env) + AsString(s.importId);
      Outcome(s.(getPending := true), [Get(url, PollHeaders(s.cookie, env.userAgent))], true)
  }

  /** Starts an import: resets the id and results and POSTs an empty body. */
  function Trigger(s: ImportState, env: Env): (o: Outcome)
    ensures o.ok <==> HasCookie(s)
    ensures !o.ok ==> o.state == s && o.sent == []
    ensures o.ok ==> o.state.importId == EmptyMap && o.state.results == EmptyMap
    ensures o.ok ==> o.state.resultStatus == ImportProcessing
    ensures o.ok ==> o.state.inProgress && o.state.postPending
    ensures o.ok ==> o.sent == [Post(ImportUrl(env), Undefined, PostHeaders(s.cookie, env.userAgent))]
    ensures o.state.cookie == s.cookie && o.state.getPending == s.getPending
  {
    if !HasCookie(s) then Outcome(s, [], false)
    else
      var t := ImportState(s.cookie, EmptyMap, true, true, s.getPending, ImportProcessing, EmptyMap);
      Outcome(t, [Post(ImportUrl(env), Undefined, PostHeaders(s.cookie, env.userAgent))], true)
  }

  /** The reply to the import POST. */
  function PostCompleted(s: ImportState, status: Status, content: Content): (t: ImportState)
    ensures PostClearsCookie(status) ==> !HasCookie(t)
    ensures !PostClearsCookie(status) ==> t.cookie == s.cookie
    ensures t.inProgress <==> status == ImportDone
    ensures !t.postPending && t.getPending == s.getPending
    ensures t.resultStatus == status && t.importId == content && t.results == s.results
  {
    var cookie := if PostClearsCookie(status) then "" else s.cookie;
    ImportState(cookie, content, status == ImportDone, false, s.getPending, status, s.results)
  }

  /** The first header named `key`, in the order received. */
  function FirstValue(headers: Headers, key: string): (r: Option<string>)
    ensures r.None? <==> forall i :: 0 <= i < |headers| ==> headers[i].0 != key
    ensures r.Some? ==> exists i :: 0 <= i < |headers| && headers[i] == (key, r.value) &&
                                    forall j :: 0 <= j < i ==> headers[j].0 != key
  {
    if headers == [] then None
    else if headers[0].0 == key then Some(headers[0].1)
    else
      var r := FirstValue(headers[1..], key);
      assert forall i :: 1 <= i < |headers| ==> headers[i] == headers[1..][i - 1];
      if r.Some? then
        ghost var k :| 0 <= k < |headers[1..]| && headers[1..][k] == (key, r.value) &&
                       forall j :: 0 <= j < k ==> headers[1..][j].0 != key;
        assert headers[k + 1] == (key, r.value);
        r
      else
        r
  }

  /** The headers of a GET reply: a non-empty first set-cookie value becomes
      the session cookie. */
  function GetCompletedHeaders(s: ImportState, headers: Headers): (t: ImportState)
    ensures (FirstValue(headers, "set-cookie").Some? && FirstValue(headers, "set-cookie").value != "")
            ==> t == s.(cookie := FirstValue(headers, "set-cookie").value)
    ensures !(FirstValue(headers, "set-cookie").Some? && FirstValue(headers, "set-cookie").value != "")
            ==> t == s
  {
    match FirstValue(headers, "set-cookie")
    case Some(v) => if v != "" then s.(cookie := v) else s
    case None => s
  }

  /** The reply to a status GET or a session GET. */
  function GetCompleted(s: ImportState, status: Status, content: Content): (t: ImportState)
    ensures GetClearsCookie(status) ==> !HasCookie(t)
    ensures !GetClearsCookie(status) ==> t.cookie == s.cookie
    ensures t.inProgress <==> status == ImportProcessing
    ensures !t.getPending && t.postPending == s.postPending
    ensures t.resultStatus == status && t.results == content && t.importId == s.importId
  {
    var cookie := if GetClearsCookie(status) then "" else s.cookie;
    ImportState(cookie, s.importId, status == ImportProcessing, s.postPending, false, status, content)
  }

  /** The two handlers treat the same reply differently: only the POST
      handler drops the cookie on a redirect, and each has its own status
      that counts as still in progress. */
  lemma RespondersCompared(s: ImportState, status: Status, content: Content)
    requires HasCookie(s)
    ensures var p, g := PostCompleted(s, status, content), GetCompleted(s, status, content);
      && (p.cookie == g.cookie <==> status != ImportRedirect)
      && (status == ImportRedirect ==> !HasCookie(p) && g.cookie == s.cookie)
      && (status == ImportDone ==> p.inProgress && !g.inProgress)
      && (status == ImportProcessing ==> !p.inProgress && g.inProgress)
      && p.resultStatus == g.resultStatus == status
  {
  }

  /** Establishing a session: the GET, a reply carrying a cookie and a
      completion that is neither an authentication error nor a timeout leave
      the session with that cookie and no GET outstanding. */
  lemma SessionHandshake(s: ImportState, env: Env, headers: Headers, cookie: string,
                         status: Status, content: Content)
    requires !HasCookie(s)
    requires FirstValue(headers, "set-cookie") == Some(cookie) && cookie != ""
    requires !GetClearsCookie(status)
    ensures var o := Establish(s, env);
            var t := GetCompleted(GetCompletedHeaders(o.state, headers), status, content);
      && o.ok && |o.sent| == 1
      && t.cookie == cookie && HasCookie(t)
      && !t.getPending && t.postPending == s.postPending
      && (t.inProgress <==> status == ImportProcessing)
  {
  }

  /** A triggered import followed by its POST reply leaves nothing pending
      (when no GET was outstanding) and records the reply. */
  lemma ImportRoundTrip(s: ImportState, env: Env, status: Status, content: Content)
    requires HasCookie(s) && !s.getPending
    ensures var o := Trigger(s, env);
            var t := PostCompleted(o.state, status, content);
      && o.ok && |o.sent| == 1 && o.sent[0].Post?
      && !ResultPending(t)
      && (t.inProgress <==> status == ImportDone)
      && t.importId == content && t.results == EmptyMap && t.resultStatus == status
  {
  }

  /** The module-level state of the import API. */
  class ImportSession {
    var cookie: string
    var importId: Content
    var inProgress: bool
    var postPending: bool
    var getPending: bool
    var resultStatus: Status
    var results: Content
    /** Every request issued so far, oldest first. */
    var requests: seq<Request>

    function State(): ImportState
      reads this
    {
      ImportState(cookie, importId, inProgress, postPending, getPending, resultStatus, results)
    }

    constructor ()
      ensures State() == InitialState && requests == []
    {
      cookie, importId, inProgress, postPending, getPending := "", EmptyMap, false, false, false;
      resultStatus, results, requests := Code(0), EmptyMap, [];
    }

    function HasSessionCookie(): (r: bool)
      reads this
      ensures r <==> HasCookie(State())
    {
      cookie != ""
    }

    function InProgress(): (r: bool)
      reads this
      ensures r == State().inProgress
    {
      inProgress
    }

    function IsResultPending(): (r: bool)
      reads this
      ensures r <==> ResultPending(State())
    {
      postPending || getPending
    }

    method EstablishMarketplaceSessionCookie(env: Env) returns (ok: bool)
      modifies this
      ensures var o := Establish(old(State()), env);
        State() == o.state && requests == old(requests) + o.sent && ok == o.ok
    {
      if HasSessionCookie() {
        return false;
      }
      inProgress := true;
      getPending := true;
      var url := ImportUrl(env);
      requests := requests + [Get(url, env.mediaHeaders)];
      ok := true;
    }

    method PollStatus(env: Env) returns (ok: bool)
      modifies this
      ensures var o := Poll(old(State()), env);
        State() == o.state && requests == old(requests) + o.sent && ok == o.ok
    {
      if !HasSessionCookie() {
        return false;
      }
      getPending := true;
      var url := ImportUrl(env);
      url := url + AsString(importId);
      requests := requests + [Get(url, PollHeaders(cookie, env.userAgent))];
      ok := true;
    }

    method TriggerImport(env: Env) returns (ok: bool)
      modifies this
      ensures var o := Trigger(old(State()), env);
        State() == o.state && requests == old(requests) + o.sent && ok == o.ok
    {
      if !HasSessionCookie() {
        return false;
      }
      importId := EmptyMap;
      inProgress := true;
      postPending := true;
      resultStatus := ImportProcessing;
      results := EmptyMap;
      var url := ImportUrl(env);
      requests := requests + [Post(url, Undefined, PostHeaders(cookie, env.userAgent))];
      ok := true;
    }

    /** `LLImportPostResponder::completed`. */
    method PostResponderCompleted(status: Status, content: Content)
      modifies this
      ensures State() == PostCompleted(old(State()), status, content)
      ensures requests == old(requests)
    {
      if PostClearsCookie(status) {
        cookie := "";
      }
      inProgress := status == ImportDone;
      postPending := false;
      resultStatus := status;
      importId := content;
    }

    /** `LLImportGetResponder::completedHeaders`. */
    method GetResponderCompletedHeaders(headers: Headers)
      modifies this
      ensures State() == GetCompletedHeaders(old(State()), headers)
      ensures requests == old(requests)
    {
      var found := FirstValue(headers, "set-cookie");
      if found.Some? && found.value != "" {
        cookie := found.value;
      }
    }

    /** `LLImportGetResponder::completed`. */
    method GetResponderCompleted(status: Status, content: Content)
      modifies this
      ensures State() == GetCompleted(old(State()), status, content)
      ensures requests == old(requests)
    {
      if GetClearsCookie(status) {
        cookie := "";
      }
      inProgress := status == ImportProcessing;
      getPending := false;
      resultStatus := status;
      results := content;
    }
  }
}

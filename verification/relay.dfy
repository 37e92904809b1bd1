/**
 * The request handler of the failover relay (`fetch`), with the outbound
 * calls it makes kept as data. Network I/O is not modelled: the outcome of
 * each outbound call is an input (`World`), and the handler returns the
 * response together with the ordered list of outbound HTTP calls it issued.
 */
module Relay {
  import opened Wrappers
  import opened Json
  import opened Extract

  /** The `hub.verify_token` the verification check accepts (a literal in the handler). */
  const VerifyToken := "iptv_webhook_2024"
  /** The fixed recipient and text of the diagnostic send. */
  const DebugRecipient := "5511967512034"
  const DebugText := "🔧 Teste via Deno Deploy"
  /** `offlineMessage()`: the auto-reply text. */
  const OfflineMessage := "⚠️ Estamos com instabilidade. Recebemos sua mensagem e avisaremos assim que tudo voltar ao normal."
  const GraphPrefix := "https://graph.facebook.com/v19.0/"
  const GraphSuffix := "/messages"
  const JsonContentType := ("Content-Type", "application/json")

  /** The process environment (`env`), a read-only string dictionary. */
  type Env = map<string, string>

  /** An inbound request: method, the path as `url.pathname` gives it (not
      percent-decoded), the decoded query parameters in order, and the body as
      `req.json()` parses it (`None` when that throws). */
  datatype Request = Request(verb: string, path: string, query: seq<(string, string)>, body: Option<Json>)

  /** The handler's result: a response (a `null` body, from a missing
      `hub.challenge`, is the empty body), or `Rejected` when the handler
      throws and its promise rejects, so that the runtime answers instead. */
  datatype Response = Response(status: nat, body: string) | Rejected

  /** An outbound HTTP call as issued: method, URL, headers and JSON body. */
  datatype HttpCall = HttpCall(verb: string, url: string, headers: seq<(string, string)>, body: Option<Json>)

  /** What an outbound `fetch` did: answered with a status, or threw. */
  datatype FetchOutcome = Responded(status: nat) | NetworkError

  /** The outcomes of this request's outbound calls: the health probe, the
      forward to the origin, and the n-th send to the Graph API. */
  datatype World = World(probe: FetchOutcome, forward: FetchOutcome, send: nat -> FetchOutcome)

  /** The four branches of the handler. */
  datatype Route = Verification | Delivery | Diagnostic | Fallback

  /** `${env.KEY}` and `fetch(env.KEY)`: a missing key reads as `undefined`. */
  function EnvText(env: Env, key: string): string {
    if key in env then env[key] else "undefined"
  }

  /** `env.SEND_AUTOREPLY === "1"`. */
  predicate AutoReplyEnabled(env: Env) {
    "SEND_AUTOREPLY" in env && env["SEND_AUTOREPLY"] == "1"
  }

  /** `resp.ok` of a call that did not throw; a thrown call counts as failure
      (`isOriginHealthy` and `sendWhatsApp` both catch and return false). */
  predicate Succeeded(o: FetchOutcome) {
    o.Responded? && 200 <= o.status <= 299
  }

  /** `url.searchParams.get(name)`: the first value given for `name`. */
  function QueryGet(query: seq<(string, string)>, name: string): Option<string>
    decreases |query|
  {
    if query == [] then None
    else if query[0].0 == name then Some(query[0].1)
    else QueryGet(query[1..], name)
  }

  /** The routing table; the first matching row wins. */
  function RouteOf(verb: string, path: string): (r: Route)
    ensures r == Diagnostic <==> path == "/_debug/testgraph"
    ensures r == Fallback <==> path != "/_debug/testgraph" && (path != "/webhook" || (verb != "GET" && verb != "POST"))
  {
    if path == "/webhook" && verb == "GET" then Verification
    else if path == "/webhook" && verb == "POST" then Delivery
    else if path == "/_debug/testgraph" then Diagnostic
    else Fallback
  }

  /** The subscription-verification check of `GET /webhook`. */
  function VerifyChallenge(query: seq<(string, string)>): (r: Response)
    ensures r.Response?
    ensures r.status == 200 <==> QueryGet(query, "hub.mode") == Some("subscribe") && QueryGet(query, "hub.verify_token") == Some(VerifyToken)
    ensures r.status == 200 ==> r.body == QueryGet(query, "hub.challenge").GetOr("")
    ensures r.status != 200 ==> r == Response(403, "Forbidden")
  {
    if QueryGet(query, "hub.mode") == Some("subscribe") && QueryGet(query, "hub.verify_token") == Some(VerifyToken) then
      Response(200, QueryGet(query, "hub.challenge").GetOr(""))
    else
      Response(403, "Forbidden")
  }

  /** `GRAPH_URL(id)`. */
  function GraphUrl(id: string): string {
    GraphPrefix + id + GraphSuffix
  }

  /** The phone-number id a Graph messages URL addresses, if it is one. The
      relay never parses such a URL; this is the inverse of `GraphUrl`, used
      to show that the URL identifies the phone-number id. */
  function GraphPhoneNumberId(url: string): Option<string> {
    if |url| >= |GraphPrefix| + |GraphSuffix| && url[..|GraphPrefix|] == GraphPrefix && url[|url| - |GraphSuffix|..] == GraphSuffix then
      Some(url[|GraphPrefix|..|url| - |GraphSuffix|])
    else
      None
  }

  /** The JSON body `sendWhatsApp` posts. */
  function SendEnvelope(to: Json, text: string): Json {
    JObj(map[
      "messaging_product" := JStr("whatsapp"),
      "to" := to,
      "type" := JStr("text"),
      "text" := JObj(map["body" := JStr(text)])
    ])
  }

  /** The recipient and text a Graph API text-message envelope carries. The
      relay never reads an envelope; this is the inverse of `SendEnvelope`,
      used to show that nothing is lost in building it. */
  function ReadEnvelope(j: Json): Option<(Json, string)> {
    if && j.JObj?
       && "messaging_product" in j.fields && j.fields["messaging_product"] == JStr("whatsapp")
       && "type" in j.fields && j.fields["type"] == JStr("text")
       && "to" in j.fields
       && "text" in j.fields && j.fields["text"].JObj?
       && "body" in j.fields["text"].fields && j.fields["text"].fields["body"].JStr?
    then
      Some((j.fields["to"], j.fields["text"].fields["body"].s))
    else
      None
  }

  /** The request `isOriginHealthy` makes: a bare GET. */
  function HealthProbe(env: Env): HttpCall {
    HttpCall("GET", EnvText(env, "ORIGIN_HEALTH_URL"), [], None)
  }

  /** The forward of the event to the origin: the same payload, as JSON. */
  function ForwardCall(env: Env, payload: Json): HttpCall {
    HttpCall("POST", EnvText(env, "ORIGIN_WEBHOOK_URL"), [JsonContentType], Some(payload))
  }

  /** The request `sendWhatsApp(env, to, text)` makes. */
  function GraphCall(env: Env, to: Json, text: string): HttpCall {
    HttpCall(
      "POST",
      GraphUrl(EnvText(env, "PHONE_NUMBER_ID")),
      [("Authorization", "Bearer " + EnvText(env, "WHATSAPP_TOKEN")), JsonContentType],
      Some(SendEnvelope(to, text)))
  }

  /** The payload of a delivery: the parsed body, or `{}` when it is not JSON. */
  function PayloadOf(body: Option<Json>): Json {
    body.GetOr(JObj(map[]))
  }

  /** The auto-reply loop: one send of the offline message per phone, in
      order. `sendWhatsApp` reports a failed send by returning false, never by
      throwing, and the loop ignores what it returns, so the calls made do not
      depend on any send's outcome. */
  method SendAutoReplies(env: Env, phones: seq<Json>) returns (calls: seq<HttpCall>)
    ensures |calls| == |phones|
    ensures forall n :: 0 <= n < |phones| ==> calls[n] == GraphCall(env, phones[n], OfflineMessage)
  {
    calls := [];
    var i := 0;
    while i < |phones|
      invariant 0 <= i <= |phones|
      invariant |calls| == i
      invariant forall n :: 0 <= n < i ==> calls[n] == GraphCall(env, phones[n], OfflineMessage)
    {
      calls := calls + [GraphCall(env, phones[i], OfflineMessage)];
      i := i + 1;
    }
  }

  /** The `POST /webhook` branch: parse, extract, log, probe, then forward
      or auto-reply. */
  method Deliver(env: Env, body: Option<Json>, world: World) returns (resp: Response, calls: seq<HttpCall>)
    ensures JoinThrows(Phones(PayloadOf(body))) ==> resp == Rejected && calls == []
    ensures !JoinThrows(Phones(PayloadOf(body))) ==>
      && |calls| >= 1 && calls[0] == HealthProbe(env)
      && resp == (if Succeeded(world.probe) && world.forward.Responded? then Response(200, "OK") else Response(202, "Accepted"))
      && (Succeeded(world.probe) ==> calls == [HealthProbe(env), ForwardCall(env, PayloadOf(body))])
      && (!Succeeded(world.probe) && AutoReplyEnabled(env) ==>
            && |calls| == 1 + |Phones(PayloadOf(body))|
            && forall n :: 0 <= n < |Phones(PayloadOf(body))| ==> calls[1 + n] == GraphCall(env, Phones(PayloadOf(body))[n], OfflineMessage))
      && (!Succeeded(world.probe) && !AutoReplyEnabled(env) ==> calls == [HealthProbe(env)])
      && forall n :: 1 <= n < |calls| ==> calls[n].verb == "POST"
  {
    var payload := PayloadOf(body);
    var phones := ExtractPhones(payload);
    if JoinThrows(phones) {
      // the log line's `phones.join(", ")` throws outside any `try`
      resp := Rejected;
      calls := [];
      return;
    }
    var healthy := Succeeded(world.probe);
    calls := [HealthProbe(env)];
    if healthy {
      calls := calls + [ForwardCall(env, payload)];
      if world.forward.Responded? {
        resp := Response(200, "OK");
        return;
      }
    } else if AutoReplyEnabled(env) {
      var sends := SendAutoReplies(env, phones);
      calls := calls + sends;
    }
    resp := Response(202, "Accepted");
  }

  /** The log line of a delivery, `phones.join(", ")`, throws: it runs
      outside any `try`, so the handler itself throws. */
  predicate LogLineThrows(req: Request) {
    JoinThrows(Phones(PayloadOf(req.body)))
  }

  /** `fetch(req, env)`. */
  method HandleRequest(env: Env, req: Request, world: World) returns (resp: Response, calls: seq<HttpCall>)
    // GET /webhook: the verification check, a function of the query alone, with no outbound call
    ensures RouteOf(req.verb, req.path) == Verification ==> resp == VerifyChallenge(req.query) && calls == []
    // POST /webhook whose log line throws: the handler rejects before the probe
    ensures RouteOf(req.verb, req.path) == Delivery && LogLineThrows(req) ==> resp == Rejected && calls == []
    // POST /webhook otherwise: the probe comes first; 200 "OK" exactly when the origin is
    // healthy and the forward did not throw, whatever status it got; 202 "Accepted" otherwise
    ensures RouteOf(req.verb, req.path) == Delivery && !LogLineThrows(req) ==>
      && |calls| >= 1 && calls[0] == HealthProbe(env)
      && resp.Response?
      && (resp.status == 200 <==> Succeeded(world.probe) && world.forward.Responded?)
      && resp == (if Succeeded(world.probe) && world.forward.Responded? then Response(200, "OK") else Response(202, "Accepted"))
    ensures RouteOf(req.verb, req.path) == Delivery && !LogLineThrows(req) && Succeeded(world.probe) ==>
      calls == [HealthProbe(env), ForwardCall(env, PayloadOf(req.body))]
    ensures RouteOf(req.verb, req.path) == Delivery && !LogLineThrows(req) && !Succeeded(world.probe) && AutoReplyEnabled(env) ==>
      && |calls| == 1 + |Phones(PayloadOf(req.body))|
      && forall n :: 0 <= n < |Phones(PayloadOf(req.body))| ==> calls[1 + n] == GraphCall(env, Phones(PayloadOf(req.body))[n], OfflineMessage)
    ensures RouteOf(req.verb, req.path) == Delivery && !LogLineThrows(req) && !Succeeded(world.probe) && !AutoReplyEnabled(env) ==>
      calls == [HealthProbe(env)]
    // /_debug/testgraph, any method: one send to the fixed number
    ensures RouteOf(req.verb, req.path) == Diagnostic ==>
      && calls == [GraphCall(env, JStr(DebugRecipient), DebugText)]
      && resp == (if Succeeded(world.send(0)) then Response(200, "✅ Enviado") else Response(500, "❌ Falhou"))
    ensures RouteOf(req.verb, req.path) == Fallback ==> resp == Response(200, "ok") && calls == []
    // the health probe (the only GET) is made on POST /webhook and nowhere else
    ensures (exists n :: 0 <= n < |calls| && calls[n].verb == "GET") <==> RouteOf(req.verb, req.path) == Delivery && !LogLineThrows(req)
    // only a delivery can reject; every response has one of four statuses
    ensures resp == Rejected <==> RouteOf(req.verb, req.path) == Delivery && LogLineThrows(req)
    ensures resp.Response? ==> resp.status in {200, 202, 403, 500}
  {
    if req.path == "/webhook" && req.verb == "GET" {
      resp := VerifyChallenge(req.query);
      calls := [];
      return;
    }

    if req.path == "/webhook" && req.verb == "POST" {
      resp, calls := Deliver(env, req.body, world);
      return;
    }

    if req.path == "/_debug/testgraph" {
      calls := [GraphCall(env, JStr(DebugRecipient), DebugText)];
      var ok := Succeeded(world.send(0));
      resp := if ok then Response(200, "✅ Enviado") else Response(500, "❌ Falhou");
      return;
    }

    resp := Response(200, "ok");
    calls := [];
  }

  /** Repeating a verification request gives the same response, whatever the
      environment and the state of the origin. */
  method RepeatVerification(env1: Env, env2: Env, req: Request, world1: World, world2: World) returns (first: Response, second: Response)
    requires RouteOf(req.verb, req.path) == Verification
    ensures first == second
    ensures first.Response? && (first.status == 200 || first == Response(403, "Forbidden"))
  {
    var calls1, calls2;
    first, calls1 := HandleRequest(env1, req, world1);
    second, calls2 := HandleRequest(env2, req, world2);
  }

  // ---------------------------------------------------------------------
  // Lemmas
  // ---------------------------------------------------------------------

  /** `QueryGet` finds the first parameter named `name`, and finds nothing
      exactly when no parameter has that name. */
  lemma {:induction false} QueryGetFirst(query: seq<(string, string)>, name: string)
    ensures QueryGet(query, name).None? <==> forall i :: 0 <= i < |query| ==> query[i].0 != name
    ensures QueryGet(query, name).Some? ==>
      exists i :: 0 <= i < |query| && query[i] == (name, QueryGet(query, name).value) && forall j :: 0 <= j < i ==> query[j].0 != name
    decreases |query|
  {
    if query != [] && query[0].0 != name {
      QueryGetFirst(query[1..], name);
      if QueryGet(query, name).Some? {
        var i :| 0 <= i < |query[1..]| && query[1..][i] == (name, QueryGet(query, name).value) && forall j :: 0 <= j < i ==> query[1..][j].0 != name;
        assert query[i + 1] == (name, QueryGet(query, name).value);
        forall j | 0 <= j < i + 1 ensures query[j].0 != name {
          if j > 0 { assert query[j] == query[1..][j - 1]; }
        }
      } else {
        forall i | 0 <= i < |query| ensures query[i].0 != name {
          if i > 0 { assert query[i] == query[1..][i - 1]; }
        }
      }
    }
  }

  /** Parameters earlier in the query take precedence over later ones. */
  lemma {:induction false} QueryGetAppend(a: seq<(string, string)>, b: seq<(string, string)>, name: string)
    ensures QueryGet(a + b, name) == if QueryGet(a, name).Some? then QueryGet(a, name) else QueryGet(b, name)
    decreases |a|
  {
    if a == [] {
      assert a + b == b;
    } else {
      assert (a + b)[0] == a[0] && (a + b)[1..] == a[1..] + b;
      QueryGetAppend(a[1..], b, name);
    }
  }

  /** The verification answer depends only on the three `hub.*` parameters:
      other parameters, before or after them, change nothing. */
  lemma VerificationIgnoresOtherParameters(query: seq<(string, string)>, extra: seq<(string, string)>)
    requires forall i :: 0 <= i < |extra| ==> extra[i].0 != "hub.mode" && extra[i].0 != "hub.verify_token" && extra[i].0 != "hub.challenge"
    ensures VerifyChallenge(query + extra) == VerifyChallenge(query)
    ensures VerifyChallenge(extra + query) == VerifyChallenge(query)
  {
    var names := ["hub.mode", "hub.verify_token", "hub.challenge"];
    forall n | n in names
      ensures QueryGet(query + extra, n) == QueryGet(query, n) && QueryGet(extra + query, n) == QueryGet(query, n)
    {
      QueryGetFirst(extra, n);
      QueryGetAppend(query, extra, n);
      QueryGetAppend(extra, query, n);
    }
    assert forall n :: n in names ==> QueryGet(query + extra, n) == QueryGet(query, n);
  }

  /** The phone-number id can be read back from the Graph URL built from it. */
  lemma GraphUrlRoundTrip(id: string)
    ensures GraphPhoneNumberId(GraphUrl(id)) == Some(id)
  {
    var url := GraphUrl(id);
    assert url[..|GraphPrefix|] == GraphPrefix;
    assert url[|url| - |GraphSuffix|..] == GraphSuffix;
    assert url[|GraphPrefix|..|url| - |GraphSuffix|] == id;
  }

  /** A URL the relay reads as a Graph messages URL is the one built from its id. */
  lemma GraphUrlOnlyFromId(url: string, id: string)
    requires GraphPhoneNumberId(url) == Some(id)
    ensures GraphUrl(id) == url
  {
    assert url == url[..|GraphPrefix|] + url[|GraphPrefix|..|url| - |GraphSuffix|] + url[|url| - |GraphSuffix|..];
  }

  /** The envelope carries the recipient and the text unchanged. */
  lemma EnvelopeRoundTrip(to: Json, text: string)
    ensures ReadEnvelope(SendEnvelope(to, text)) == Some((to, text))
  {
  }

  /** A delivery whose only sender is `{"toString": 1}` rejects: the object
      is collected as a phone, and the log line cannot convert it to a string. */
  lemma ToStringSenderRejects()
    ensures var from := JObj(map["toString" := JNum(1.0)]);
            var change := JObj(map["value" := JObj(map["messages" := JArr([JObj(map["from" := from])])])]);
            var payload := JObj(map["entry" := JArr([JObj(map["changes" := JArr([change])])])]);
            Phones(payload) == [from] && LogLineThrows(Request("POST", "/webhook", [], Some(payload)))
  {
    var from := JObj(map["toString" := JNum(1.0)]);
    var message := JObj(map["from" := from]);
    var change := JObj(map["value" := JObj(map["messages" := JArr([message])])]);
    var entry := JObj(map["changes" := JArr([change])]);
    var payload := JObj(map["entry" := JArr([entry])]);
    assert Senders(payload) == Walk([from], true) by {
      assert EntriesOf(payload) == Some([entry]);
      assert ChangesOf(entry) == Some([change]);
      assert MessagesOf(change) == Some([message]);
      assert Member(Value(message), "from") == Yields(Value(from)) && Truthy(Value(from));
      assert WalkMessages([message], []) == Walk([from], true);
    }
    assert FirstOccurrences([from]) == [from] by {
      assert [from][..0] == [];
    }
    assert ToStringThrows(Phones(payload)[0]);
  }
}

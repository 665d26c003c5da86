/**
 * The requests the bridge's user-interface slots send to the device. Each is
 * a JSON POST; sending it happens on a worker thread and is not modelled, so
 * a slot yields the request it would send.
 */
module Commands {

  import opened Text
  import opened Payload

  /** A JSON POST: target URL, headers and body. */
  datatype Request = Request(url: string, headers: map<string, string>, body: Json)

  const JsonContentType := "application/json; charset=utf-8"

  /** The bridge's headers with the dashboard `Referer` and a JSON content type. */
  function ControlHeaders(headers: map<string, string>, baseUrl: string): (h: map<string, string>)
    ensures h.Keys == headers.Keys + {"Referer", "Content-Type"}
    ensures h["Referer"] == baseUrl + "/dash/" && h["Content-Type"] == JsonContentType
    ensures forall k :: k in headers && k != "Referer" && k != "Content-Type" ==> h[k] == headers[k]
  {
    headers["Referer" := baseUrl + "/dash/"]["Content-Type" := JsonContentType]
  }

  function ControlPost(baseUrl: string, headers: map<string, string>, body: map<string, Json>): Request
  {
    Request(baseUrl + "/api/control", ControlHeaders(headers, baseUrl), JObj(body))
  }

  /** `sendCommand`: switch the device to the mode named by `command`,
      capitalized. */
  function CommandRequest(baseUrl: string, headers: map<string, string>, command: string): (r: Request)
    ensures r.url == baseUrl + "/api/control" && r.headers == ControlHeaders(headers, baseUrl)
    ensures r.body.JObj? && r.body.fields.Keys == {"updated", "mode"}
    ensures r.body.fields["updated"] == JBool(true) && r.body.fields["mode"] == JStr(Capitalize(command))
  {
    ControlPost(baseUrl, headers, map["updated" := JBool(true), "mode" := JStr(Capitalize(command))])
  }

  /** `sendPrime`: prime `amount` grams, then go to `nextMode`. */
  function PrimeRequest(baseUrl: string, headers: map<string, string>, amount: int, nextMode: string): (r: Request)
    ensures r.url == baseUrl + "/api/control" && r.headers == ControlHeaders(headers, baseUrl)
    ensures r.body.JObj? && r.body.fields.Keys == {"updated", "mode", "prime_amount", "next_mode"}
    ensures r.body.fields["mode"] == JStr("Prime") && r.body.fields["prime_amount"] == JNum(amount as real)
    ensures r.body.fields["next_mode"] == JStr(nextMode)
  {
    ControlPost(baseUrl, headers, map["updated" := JBool(true), "mode" := JStr("Prime"),
      "prime_amount" := JNum(amount as real), "next_mode" := JStr(nextMode)])
  }

  /** `toggleSmokePlus`: ask for the opposite of the state the caller sees. */
  function SmokePlusRequest(baseUrl: string, headers: map<string, string>, current: bool): (r: Request)
    ensures r.url == baseUrl + "/api/control" && r.headers == ControlHeaders(headers, baseUrl)
    ensures r.body.JObj? && r.body.fields.Keys == {"s_plus"} && r.body.fields["s_plus"] == JBool(!current)
  {
    ControlPost(baseUrl, headers, map["s_plus" := JBool(!current)])
  }

  /** `setTargetTemp`: hold at `temp`. */
  function TargetTempRequest(baseUrl: string, headers: map<string, string>, temp: int): (r: Request)
    ensures r.url == baseUrl + "/api/control" && r.headers == ControlHeaders(headers, baseUrl)
    ensures r.body.JObj? && r.body.fields.Keys == {"updated", "mode", "primary_setpoint"}
    ensures r.body.fields["mode"] == JStr("Hold") && r.body.fields["primary_setpoint"] == JNum(temp as real)
  {
    ControlPost(baseUrl, headers, map["updated" := JBool(true), "mode" := JStr("Hold"),
      "primary_setpoint" := JNum(temp as real)])
  }

  /** `setPMode`: the settings write, then, only if that POST did not raise,
      the settings-update trigger. */
  function PModeRequests(baseUrl: string, headers: map<string, string>, pMode: int, settingsRaised: bool): (rs: seq<Request>)
    ensures |rs| == (if settingsRaised then 1 else 2)
    ensures forall r :: r in rs ==> r.headers == ControlHeaders(headers, baseUrl)
    ensures rs[0].url == baseUrl + "/api/settings"
    ensures !settingsRaised ==> rs[1].url == baseUrl + "/api/control"
  {
    var h := ControlHeaders(headers, baseUrl);
    var settings := Request(baseUrl + "/api/settings", h, JObj(map["cycle_data" := JObj(map["PMode" := JNum(pMode as real)])]));
    var trigger := Request(baseUrl + "/api/control", h, JObj(map["settings_update" := JBool(true)]));
    [settings] + (if settingsRaised then [] else [trigger])
  }

  /** The default of `fetchHistory`'s argument. */
  const DefaultHistoryMins: string := "60"

  /** `fetchHistory`: the bulk history request for the last `mins` minutes. */
  function HistoryRequest(baseUrl: string, headers: map<string, string>, mins: string): (r: Request)
    ensures r.url == baseUrl + "/history/refresh"
    ensures r.headers.Keys == headers.Keys + {"Referer", "Content-Type", "Origin"}
    ensures r.headers["Referer"] == baseUrl + "/history/" && r.headers["Origin"] == baseUrl
    ensures r.headers["Content-Type"] == JsonContentType
    ensures forall k :: k in headers && k !in {"Referer", "Content-Type", "Origin"} ==> r.headers[k] == headers[k]
    ensures r.body == JObj(map["num_mins" := JStr(mins)])
  {
    var h := headers["Referer" := baseUrl + "/history/"]["Content-Type" := JsonContentType]["Origin" := baseUrl];
    Request(baseUrl + "/history/refresh", h, JObj(map["num_mins" := JStr(mins)]))
  }

  /** The mode commands that start and end a cook reach the device as the
      capitalized mode names it expects. */
  lemma CycleCommandModes(baseUrl: string, headers: map<string, string>)
    ensures CommandRequest(baseUrl, headers, "startup").body.fields["mode"] == JStr("Startup")
    ensures CommandRequest(baseUrl, headers, "shutdown").body.fields["mode"] == JStr("Shutdown")
    ensures CommandRequest(baseUrl, headers, "stop").body.fields["mode"] == JStr("Stop")
  {
  }

  /** The same for the cooking modes. */
  lemma CookCommandModes(baseUrl: string, headers: map<string, string>)
    ensures CommandRequest(baseUrl, headers, "smoke").body.fields["mode"] == JStr("Smoke")
    ensures CommandRequest(baseUrl, headers, "hold").body.fields["mode"] == JStr("Hold")
    ensures CommandRequest(baseUrl, headers, "monitor").body.fields["mode"] == JStr("Monitor")
  {
  }

  /** The letter case the caller uses does not matter, and a mode name that is
      already capitalized is sent unchanged. */
  lemma CommandCaseInsensitive(baseUrl: string, headers: map<string, string>, c: string, d: string)
    requires |c| == |d| && forall i :: 0 <= i < |c| ==> Lower(c[i]) == Lower(d[i])
    ensures CommandRequest(baseUrl, headers, c) == CommandRequest(baseUrl, headers, d)
    ensures CommandRequest(baseUrl, headers, Capitalize(c)) == CommandRequest(baseUrl, headers, c)
  {
    CapitalizeIgnoresCase(c, d);
    CapitalizeIdempotent(c);
  }

  /** Every control request goes to the control endpoint of the current base
      URL with the dashboard headers, and the smoke-plus request asks for the
      state opposite to the one the caller passed. */
  lemma ControlRequestsShape(baseUrl: string, headers: map<string, string>, command: string, amount: int,
                             nextMode: string, current: bool, temp: int)
    ensures forall r :: r in [CommandRequest(baseUrl, headers, command), PrimeRequest(baseUrl, headers, amount, nextMode),
                              SmokePlusRequest(baseUrl, headers, current), TargetTempRequest(baseUrl, headers, temp)] ==>
      r.url == baseUrl + "/api/control" && r.headers == ControlHeaders(headers, baseUrl)
    ensures SmokePlusRequest(baseUrl, headers, current).body.fields["s_plus"] == JBool(!current)
    ensures SmokePlusRequest(baseUrl, headers, current) != SmokePlusRequest(baseUrl, headers, !current)
  {
    assert JBool(!current) != JBool(!!current);
  }

  /** The p-mode sequence always writes the settings first, and sends the
      trigger exactly when that write did not raise. */
  lemma PModeTriggerOnlyAfterSettings(baseUrl: string, headers: map<string, string>, pMode: int, settingsRaised: bool)
    ensures var rs := PModeRequests(baseUrl, headers, pMode, settingsRaised);
      |rs| >= 1 && rs[0].url == baseUrl + "/api/settings"
      && rs[0].body == JObj(map["cycle_data" := JObj(map["PMode" := JNum(pMode as real)])])
      && (exists i :: 0 <= i < |rs| && rs[i].url == baseUrl + "/api/control") == !settingsRaised
      && (!settingsRaised ==> |rs| == 2 && rs[1].body == JObj(map["settings_update" := JBool(true)]))
  {
    var rs := PModeRequests(baseUrl, headers, pMode, settingsRaised);
    assert rs[0].url != baseUrl + "/api/control" by {
      assert (baseUrl + "/api/settings")[|baseUrl| + 5] == 's';
      assert (baseUrl + "/api/control")[|baseUrl| + 5] == 'c';
    }
    if !settingsRaised {
      assert rs[1].url == baseUrl + "/api/control";
    }
  }
}

/**
 * The bridge object between the PiFire device and the user interface. It
 * polls the device, mirrors the reported state in its fields, tells the
 * interface which fields changed, streams history samples and builds the
 * control requests of the interface's slots.
 *
 * The HTTP fetches run on worker threads and come back as a result object
 * handed to `ProcessResponse`; here that object, and the current time, are
 * parameters. Every signal the bridge would emit is returned as an `Event`.
 * Each method's `modifies` clause names the fields it may change; every
 * other field keeps its value.
 */
module Bridge {

  import opened Text
  import opened Payload
  import opened History
  import opened Signals
  import opened Reconcile
  import opened Server
  import opened Commands

  /** The mirror before any payload has been parsed. */
  const InitialOutpins: Json :=
    JObj(map["fan" := JBool(false), "auger" := JBool(false), "igniter" := JBool(false), "power" := JBool(false)])

  const Initial: Snapshot := Snapshot(
    JStr("Disconnected"), JStr("Connecting..."), InitialOutpins, JBool(false), JBool(false), "--",
    JNum(0.0), 0.0, JNum(0.0), JNum(0.0), JNum(0.0), 0.0,
    JStr("C"), 0, 0, [], map[], [])

  /** The headers of every request, before the `Referer` is set. */
  const BrowserHeaders: map<string, string> := map[
    "User-Agent" := "Mozilla/5.0 (X11; Linux x86_64; rv:146.0) Gecko/20100101 Firefox/146.0",
    "Accept" := "*/*",
    "X-Requested-With" := "XMLHttpRequest"]

  /** `result.get(key)` is truthy. */
  predicate Flag(result: Json, key: string)
  {
    Truthy(Get(result, key, JNull))
  }

  /** What a status payload does, from mirror `s`, last sample time `last`
      and hopper details `details` to `s'`, `last'` and `details'`: without
      `data`, nothing; otherwise the hopper details are replaced when
      `hopper_data` is truthy, a sample stamped `nowMs` with the set point
      mirrored so far is emitted when one is due, and the mirror is
      reconciled to the payload, notifying the changed fields after the
      sample. */
  ghost predicate SuccessOutcome(result: Json, nowMs: int, active: bool,
                                 s: Snapshot, last: int, details: map<string, Json>,
                                 s': Snapshot, last': int, details': map<string, Json>, events: seq<Event>)
  {
    if !Has(result, "data") then
      events == [] && s' == s && last' == last && details' == details
    else
      var data := result.fields["data"];
      var due := SampleDue(active, last, nowMs);
      details' == (if Flag(result, "hopper_data") then HopperDetailsOf(result.fields["hopper_data"]) else details)
      && last' == (if due then nowMs else last)
      && s' == Derive(data, details')
      && events == (if due then [PointSampled(HistoryPoint(nowMs, SampleTemps(data, s.setPoint)))] else []) + Diff(s, s')
  }

  /** What a result that is neither a streamed point nor a history batch
      does: a status payload as `SuccessOutcome` says; a failed connection
      reconciles the mock payload; anything else sets the status to the error
      text (by default "Unknown Error") and notifies it, changed or not. */
  ghost predicate ResultOutcome(result: Json, nowMs: int, active: bool,
                                s: Snapshot, last: int, details: map<string, Json>,
                                s': Snapshot, last': int, details': map<string, Json>, events: seq<Event>)
  {
    if Flag(result, "success") then
      SuccessOutcome(result, nowMs, active, s, last, details, s', last', details', events)
    else if Flag(result, "mock") then
      s' == Derive(MockPayload, details) && events == Diff(s, s') && last' == last && details' == details
    else
      var error := Get(result, "error", JStr("Unknown Error"));
      events == [Changed(Status, JsonV(error))] && s' == s.(status := error) && last' == last && details' == details
  }

  /** Setting the `Referer` header twice keeps only the second value. */
  lemma RefererReplaced(h: map<string, string>, first: string, second: string)
    ensures h["Referer" := first]["Referer" := second] == h["Referer" := second]
  {
  }

  class PiFireBridge {

    /** The mirrored attributes. */
    var mirror: Snapshot

    /** Exposed to the interface but never written after construction. */
    var shutdownProgress: real
    /** Whether synthetic history samples are emitted. */
    var historyActive: bool
    /** Time of the last synthetic sample, in ms. */
    var lastHistoryEmit: int
    /** Hopper level and pellet name from the last hopper response; never cleared. */
    var hopperDetails: map<string, Json>
    /** The last normalized history batch; `None` until the first one
        arrives, since the attribute is not set at construction (reading it
        before then raises). */
    var historyData: Option<seq<Series>>
    /** A status fetch is in flight. */
    var isUpdating: bool

    var serverSelection: string
    var customIp: string
    var baseUrl: string
    var headers: map<string, string>

    /** Sets the initial state, reads the configuration file (`None` when it
        is missing or unreadable), resolves the base URL and starts the first
        status fetch. */
    constructor (configFile: Option<map<string, string>>)
      ensures mirror == Initial
      ensures (serverSelection, customIp) == LoadedConfig(configFile, InitialSelection, InitialCustomIp)
      ensures baseUrl == ResolveBaseUrl(serverSelection, customIp)
      ensures headers == BrowserHeaders["Referer" := EventsReferer(baseUrl)]
      ensures shutdownProgress == 0.0 && !historyActive && lastHistoryEmit == 0
      ensures hopperDetails == map[] && historyData == None
      ensures isUpdating
    {
      mirror := Initial;
      shutdownProgress := 0.0;
      historyActive := false;
      lastHistoryEmit := 0;
      hopperDetails := map[];
      historyData := None;
      serverSelection := InitialSelection;
      customIp := InitialCustomIp;
      baseUrl := PifireUrl;
      headers := BrowserHeaders["Referer" := EventsReferer(PifireUrl)];
      isUpdating := false;
      new;
      ghost var initial := mirror;
      ghost var before := (shutdownProgress, historyActive, lastHistoryEmit, hopperDetails, historyData);
      LoadConfig(configFile);
      ghost var config := (serverSelection, customIp, baseUrl);
      RefererReplaced(BrowserHeaders, EventsReferer(PifireUrl), EventsReferer(baseUrl));
      var started := UpdateStatus();
      assert mirror == initial && (shutdownProgress, historyActive, lastHistoryEmit, hopperDetails, historyData) == before;
      assert (serverSelection, customIp, baseUrl) == config;
    }

    /** Reads the configuration file, then resolves the base URL. */
    method LoadConfig(configFile: Option<map<string, string>>)
      modifies this`serverSelection, this`customIp, this`baseUrl, this`headers
      ensures (serverSelection, customIp) == LoadedConfig(configFile, old(serverSelection), old(customIp))
      ensures baseUrl == ResolveBaseUrl(serverSelection, customIp)
      ensures headers == old(headers)["Referer" := EventsReferer(baseUrl)]
    {
      if configFile.Some? {
        var entries := configFile.value;
        serverSelection := if "server_selection" in entries then entries["server_selection"] else "pifire";
        customIp := if "custom_ip" in entries then entries["custom_ip"] else "";
      }
      UpdateBaseUrl();
    }

    /** Resolves the base URL from the selection and custom address, and
        points the `Referer` header at its events page. */
    method UpdateBaseUrl()
      modifies this`baseUrl, this`headers
      ensures baseUrl == ResolveBaseUrl(serverSelection, customIp)
      ensures headers == old(headers)["Referer" := EventsReferer(baseUrl)]
    {
      if serverSelection == "localhost" {
        baseUrl := LocalhostUrl;
      } else if serverSelection == "pifire" {
        baseUrl := PifireUrl;
      } else {
        var url := Strip(customIp);
        if url == [] {
          url := PifireUrl;
        }
        if !StartsWith(url, "http") {
          url := "http://" + url;
        }
        baseUrl := url;
      }
      headers := headers["Referer" := EventsReferer(baseUrl)];
    }

    /** The `setServerConfig` slot: stores the new configuration, returns the
        configuration file it writes, re-resolves the base URL and notifies
        the address, then the selection. */
    method SetServerConfig(selection: string, ip: string) returns (saved: map<string, string>, events: seq<Event>)
      modifies this`serverSelection, this`customIp, this`baseUrl, this`headers
      ensures serverSelection == selection && customIp == ip
      ensures saved == SavedConfig(selection, ip)
      ensures baseUrl == ResolveBaseUrl(selection, ip)
      ensures headers == old(headers)["Referer" := EventsReferer(baseUrl)]
      ensures events == [AddressChanged(ip), SelectionChanged(selection)]
    {
      serverSelection := selection;
      customIp := ip;
      saved := map["server_selection" := serverSelection, "custom_ip" := customIp];
      UpdateBaseUrl();
      events := [AddressChanged(customIp), SelectionChanged(serverSelection)];
    }

    /** The poll timer's tick: starts a status fetch (with the hopper fetch)
        unless one is already in flight. */
    method UpdateStatus() returns (started: bool)
      modifies this`isUpdating
      ensures started <==> !old(isUpdating)
      ensures isUpdating
    {
      if isUpdating {
        return false;
      }
      isUpdating := true;
      started := true;
    }

    /** Handles the result of a fetch. Whatever the result, the busy flag is
        cleared. A streamed point is passed on; otherwise a history batch is
        normalized and stored; otherwise the result is a status result. */
    method ProcessResponse(result: Json, nowMs: int) returns (events: seq<Event>)
      modifies this`isUpdating, this`mirror, this`historyData, this`hopperDetails, this`lastHistoryEmit
      ensures !isUpdating
      ensures Flag(result, "history_point") ==>
        events == [PointStreamed(Get(result, "data", EmptyObj))]
        && unchanged(this`mirror, this`historyData, this`hopperDetails, this`lastHistoryEmit)
      ensures !Flag(result, "history_point") && Flag(result, "history") ==>
        historyData == Some(Normalized(Get(result, "data", EmptyObj)))
        && events == [HistoryLoaded(Normalized(Get(result, "data", EmptyObj)))]
        && unchanged(this`mirror, this`hopperDetails, this`lastHistoryEmit)
      ensures !Flag(result, "history_point") && !Flag(result, "history") ==>
        ResultOutcome(result, nowMs, historyActive, old(mirror), old(lastHistoryEmit), old(hopperDetails),
                      mirror, lastHistoryEmit, hopperDetails, events)
        && unchanged(this`historyData)
    {
      isUpdating := false;
      if Truthy(Get(result, "history_point", JNull)) {
        var point := Get(result, "data", EmptyObj);
        return [PointStreamed(point)];
      }
      if Truthy(Get(result, "history", JNull)) {
        events := HandleHistory(Get(result, "data", EmptyObj));
        return;
      }
      events := HandleStatusResult(result, nowMs);
    }

    /** The last branch of the result handler: a status payload, else a
        failed connection, else an error. */
    method HandleStatusResult(result: Json, nowMs: int) returns (events: seq<Event>)
      modifies this`mirror, this`hopperDetails, this`lastHistoryEmit
      ensures ResultOutcome(result, nowMs, historyActive, old(mirror), old(lastHistoryEmit), old(hopperDetails),
                            mirror, lastHistoryEmit, hopperDetails, events)
    {
      if Truthy(Get(result, "success", JNull)) {
        events := HandleSuccess(result, nowMs);
      } else if Truthy(Get(result, "mock", JNull)) {
        events := HandleMockData();
      } else {
        events := HandleError(result);
      }
    }

    /** A history batch: normalized into chart series, stored and notified. */
    method HandleHistory(body: Json) returns (events: seq<Event>)
      modifies this`historyData
      ensures historyData == Some(Normalized(body)) && events == [HistoryLoaded(Normalized(body))]
    {
      var series := NormalizeHistory(body);
      historyData := Some(series);
      events := [HistoryLoaded(series)];
    }

    /** A status payload. Without a `data` entry the lookup raises and
        nothing happens. Otherwise a truthy `hopper_data` replaces the
        persisted hopper details; when history streaming is on and a second
        has passed since the last sample, a sample of the payload's
        temperatures and the set point stored so far is emitted; then the
        payload is reconciled. */
    method HandleSuccess(result: Json, nowMs: int) returns (events: seq<Event>)
      modifies this`mirror, this`hopperDetails, this`lastHistoryEmit
      ensures SuccessOutcome(result, nowMs, historyActive, old(mirror), old(lastHistoryEmit), old(hopperDetails),
                             mirror, lastHistoryEmit, hopperDetails, events)
    {
      if !Has(result, "data") {
        // `result["data"]` raises and the handler stops here.
        return [];
      }
      var data := result.fields["data"];
      StoreHopperDetails(result);
      events := SampleHistory(data, nowMs);
      var changes := ParseData(data);
      events := events + changes;
    }

    /** A truthy `hopper_data` entry replaces the persisted hopper details
        with its level and pellet name; otherwise they are kept. */
    method StoreHopperDetails(result: Json)
      modifies this`hopperDetails
      ensures hopperDetails ==
        if Flag(result, "hopper_data") then HopperDetailsOf(result.fields["hopper_data"]) else old(hopperDetails)
    {
      if Truthy(Get(result, "hopper_data", JNull)) {
        var h := result.fields["hopper_data"];
        hopperDetails := map["level" := Get(h, "hopper_level", Zero), "name" := Get(h, "hopper_pellets", JStr("Unknown"))];
      }
    }

    /** The 1 Hz sampler: while streaming is on and a second has passed since
        the last sample, emit a sample of the payload's temperatures with the
        set point mirrored so far, stamped `nowMs`. */
    method SampleHistory(data: Json, nowMs: int) returns (events: seq<Event>)
      modifies this`lastHistoryEmit
      ensures var due := SampleDue(historyActive, old(lastHistoryEmit), nowMs);
        lastHistoryEmit == (if due then nowMs else old(lastHistoryEmit))
        && events == if due then [PointSampled(HistoryPoint(nowMs, SampleTemps(data, mirror.setPoint)))] else []
    {
      events := [];
      if historyActive && nowMs - lastHistoryEmit >= 1000 {
        lastHistoryEmit := nowMs;
        var temps := CollectTemps(data, mirror.setPoint);
        events := [PointSampled(HistoryPoint(nowMs, temps))];
      }
    }

    /** Any other result: the status becomes the error text, and is notified
        even when it already held that text. */
    method HandleError(result: Json) returns (events: seq<Event>)
      modifies this`mirror
      ensures var error := Get(result, "error", JStr("Unknown Error"));
        events == [Changed(Status, JsonV(error))] && mirror == old(mirror).(status := error)
    {
      mirror := mirror.(status := Get(result, "error", JStr("Unknown Error")));
      events := [Changed(Status, JsonV(mirror.status))];
    }

    /** One compare-assign-notify block of the reconciler: when field `f`
        holds something other than `v`, assign `v` and notify it after the
        signals `sent` so far. */
    method Sync(f: Field, v: Value, sent: seq<Event>) returns (events: seq<Event>)
      requires Fits(f, v)
      modifies this`mirror
      ensures mirror == With(old(mirror), f, v)
      ensures events == sent + (if FieldValue(old(mirror), f) != v then [Changed(f, v)] else [])
    {
      if FieldValue(mirror, f) != v {
        mirror := With(mirror, f, v);
        events := sent + [Changed(f, v)];
      } else {
        WithSame(mirror, f);
        events := sent;
      }
    }

    /** The status block of the reconciler: mode, then status text. `o` is
        the mirror before the reconciliation and `t` its target; the fields
        of a block still hold their values in `o` when the block starts. */
    method ParseStatus(data: Json, ghost o: Snapshot, ghost t: Snapshot) returns (events: seq<Event>)
      requires t.mode == ModeOf(data) && t.status == DisplayModeOf(data)
      requires mirror.mode == o.mode && mirror.status == o.status
      modifies this`mirror
      ensures mirror == old(mirror).(mode := t.mode, status := t.status)
      ensures events == Step(Mode, o, t) + Step(Status, o, t)
    {
      var statusNode := Get(data, "status", EmptyObj);
      var newMode := Get(statusNode, "mode", JStr("Unknown"));
      var newDisplayMode := Get(statusNode, "display_mode", JStr("Unknown"));
      events := Sync(Mode, JsonV(newMode), []);
      events := Sync(Status, JsonV(newDisplayMode), events);
    }

    /** The extended status block: outputs, lid, smoke plus and p-mode, whose
        block appears twice; the second copy finds the field already
        assigned. */
    method ParseExtended(data: Json, ghost o: Snapshot, ghost t: Snapshot, sent: seq<Event>) returns (events: seq<Event>)
      requires t.outpins == OutpinsOf(data) && t.lidOpen == LidOpenOf(data) && t.sPlus == SPlusOf(data)
      requires t.pMode == PModeOf(data)
      requires mirror.outpins == o.outpins && mirror.lidOpen == o.lidOpen && mirror.sPlus == o.sPlus
      requires mirror.pMode == o.pMode
      modifies this`mirror
      ensures mirror == old(mirror).(outpins := t.outpins, lidOpen := t.lidOpen, sPlus := t.sPlus, pMode := t.pMode)
      ensures events == sent + Step(Outpins, o, t) + Step(LidOpen, o, t) + Step(SPlus, o, t) + Step(PMode, o, t)
    {
      var statusNode := Get(data, "status", EmptyObj);
      var newOutpins := Get(statusNode, "outpins", EmptyObj);
      events := Sync(Outpins, JsonV(newOutpins), sent);
      var newLidOpen := Get(statusNode, "lid_open_detected", JBool(false));
      events := Sync(LidOpen, JsonV(newLidOpen), events);
      var newSPlus := Get(statusNode, "s_plus", JBool(false));
      events := Sync(SPlus, JsonV(newSPlus), events);
      var newPMode := PyStr(Get(statusNode, "p_mode", JStr("--")));
      events := Sync(PMode, TextV(newPMode), events);
      events := Sync(PMode, TextV(newPMode), events);
    }

    /** The startup block: startup duration, startup progress and start
        time. */
    method ParseStartup(data: Json, ghost o: Snapshot, ghost t: Snapshot, sent: seq<Event>) returns (events: seq<Event>)
      requires t.startDuration == StartDurationOf(data) && t.startupProgress == StartupProgressOf(data)
      requires t.startTime == StartupTimestampOf(data)
      requires mirror.startDuration == o.startDuration && mirror.startupProgress == o.startupProgress
      requires mirror.startTime == o.startTime
      modifies this`mirror
      ensures mirror == old(mirror).(startDuration := t.startDuration, startupProgress := t.startupProgress,
                                     startTime := t.startTime)
      ensures events == sent + Step(StartDuration, o, t) + Step(StartupProgress, o, t)
        + Step(StartTime, o, t)
    {
      var statusNode := Get(data, "status", EmptyObj);
      var startDuration := Get(statusNode, "start_duration", Zero);
      events := Sync(StartDuration, JsonV(startDuration), sent);
      var startupTimestamp := Get(statusNode, "startup_timestamp", Zero);
      var currentTs := DeviceSeconds(data);
      var newStartupProgress := 0.0;
      if Num(startDuration) > 0.0 && Num(startupTimestamp) > 0.0 && currentTs > 0.0 {
        var elapsed := currentTs - Num(startupTimestamp);
        newStartupProgress := Clamp01(elapsed / Num(startDuration));
      }
      events := Sync(StartupProgress, RealV(newStartupProgress), events);
      events := Sync(StartTime, JsonV(startupTimestamp), events);
    }

    /** The prime block: prime duration, mode start time and prime progress. */
    method ParsePrime(data: Json, ghost o: Snapshot, ghost t: Snapshot, sent: seq<Event>) returns (events: seq<Event>)
      requires t.primeDuration == PrimeDurationOf(data) && t.modeStartTime == ModeStartOf(data)
      requires t.primeProgress == PrimeProgressOf(data)
      requires mirror.primeDuration == o.primeDuration && mirror.modeStartTime == o.modeStartTime
      requires mirror.primeProgress == o.primeProgress
      modifies this`mirror
      ensures mirror == old(mirror).(primeDuration := t.primeDuration, modeStartTime := t.modeStartTime,
                                     primeProgress := t.primeProgress)
      ensures events == sent + Step(PrimeDuration, o, t) + Step(ModeStartTime, o, t)
        + Step(PrimeProgress, o, t)
    {
      var statusNode := Get(data, "status", EmptyObj);
      var primeDuration := Get(statusNode, "prime_duration", Zero);
      events := Sync(PrimeDuration, JsonV(primeDuration), sent);
      var modeStart := Get(statusNode, "start_time", Zero);
      events := Sync(ModeStartTime, JsonV(modeStart), events);
      var currentTs := DeviceSeconds(data);
      var newPrimeProgress := 0.0;
      if Num(primeDuration) > 0.0 && Num(modeStart) > 0.0 && currentTs > 0.0 {
        var elapsed := currentTs - Num(modeStart);
        newPrimeProgress := Clamp01(elapsed / Num(primeDuration));
      }
      events := Sync(PrimeProgress, RealV(newPrimeProgress), events);
    }

    /** The temperature block: the units, then the grill temperature. */
    method ParseTemperature(data: Json, ghost o: Snapshot, ghost t: Snapshot, sent: seq<Event>) returns (events: seq<Event>)
      requires t.units == UnitsOf(data) && t.grillTemp == GrillTempOf(data)
      requires mirror.units == o.units && mirror.grillTemp == o.grillTemp
      modifies this`mirror
      ensures mirror == old(mirror).(units := t.units, grillTemp := t.grillTemp)
      ensures events == sent + Step(Units, o, t) + Step(GrillTemp, o, t)
    {
      var newUnits := Get(Get(data, "status", EmptyObj), "units", JStr("C"));
      events := Sync(Units, JsonV(newUnits), sent);
      var current := Get(data, "current", EmptyObj);
      var pCurrent := Get(current, "P", EmptyObj);
      var newGrillTemp := 0;
      if Has(pCurrent, "Grill") {
        newGrillTemp := IntOf(pCurrent.fields["Grill"]);
      }
      events := Sync(GrillTemp, IntV(newGrillTemp), events);
    }

    /** The notify block: the set point from the payload's fields, then one
        pass over the notify list for the Grill target, the food-probe
        targets and names, the timers and the hopper; the set point and the
        timers are reconciled, and the pass is returned for the hopper and
        probe blocks. */
    method ParseNotify(data: Json, ghost o: Snapshot, ghost t: Snapshot, sent: seq<Event>) returns (events: seq<Event>, scan: Scan)
      requires t.setPoint == ScanFor(data).setPoint && t.timers == ScanFor(data).timers
      requires mirror.setPoint == o.setPoint && mirror.timers == o.timers
      modifies this`mirror
      ensures mirror == old(mirror).(setPoint := t.setPoint, timers := t.timers)
      ensures events == sent + Step(SetPoint, o, t) + Step(Timers, o, t)
      ensures scan == ScanFor(data)
    {
      var statusNode := Get(data, "status", EmptyObj);
      var current := Get(data, "current", EmptyObj);
      var newSetPoint := IntOf(Get(current, "PSP", Zero));
      if newSetPoint == 0 {
        newSetPoint := IntOf(Get(statusNode, "primary_setpoint", Zero));
      }
      if newSetPoint == 0 {
        newSetPoint := IntOf(Get(statusNode, "set_point", Zero));
      }
      scan := ScanNotify(NotifyItems(data), newSetPoint);
      events := Sync(SetPoint, IntV(scan.setPoint), sent);
      events := Sync(Timers, ListV(scan.timers), events);
    }

    /** The hopper block: the hopper item of the pass with the persisted
        details laid over it. */
    method ParseHopper(scan: Scan, ghost o: Snapshot, ghost t: Snapshot, sent: seq<Event>) returns (events: seq<Event>)
      requires t.hopper == Overlay(scan.hopper, hopperDetails)
      requires mirror.hopper == o.hopper
      modifies this`mirror
      ensures mirror == old(mirror).(hopper := t.hopper)
      ensures events == sent + Step(Hopper, o, t)
    {
      var newHopper := scan.hopper;
      if hopperDetails != map[] {
        newHopper := newHopper + hopperDetails;
      }
      events := Sync(Hopper, ObjV(newHopper), sent);
    }

    /** The probe block: one row per enabled food probe, in sorted key order,
        with the targets and names the pass collected. */
    method ParseProbes(data: Json, scan: Scan, ghost o: Snapshot, ghost t: Snapshot, sent: seq<Event>) returns (events: seq<Event>)
      requires t.probes == ProbesOf(FoodTemps(data), ProbeStatus(data), scan.targets, scan.names)
      requires mirror.probes == o.probes
      modifies this`mirror
      ensures mirror == old(mirror).(probes := t.probes)
      ensures events == sent + Step(Probes, o, t)
    {
      var newProbes := BuildProbes(FoodTemps(data), ProbeStatus(data), scan.targets, scan.names);
      events := Sync(Probes, ProbesV(newProbes), sent);
    }

    /** The first half of the reconciler, towards a target `t` whose state
        fields hold the values derived from `data`: the status, extended
        status, startup and prime blocks. */
    method ParseState(data: Json, ghost o: Snapshot, ghost t: Snapshot) returns (events: seq<Event>)
      requires t.mode == ModeOf(data) && t.status == DisplayModeOf(data) && t.outpins == OutpinsOf(data)
      requires t.lidOpen == LidOpenOf(data) && t.sPlus == SPlusOf(data) && t.pMode == PModeOf(data)
      requires t.startDuration == StartDurationOf(data) && t.startupProgress == StartupProgressOf(data)
      requires t.startTime == StartupTimestampOf(data) && t.primeDuration == PrimeDurationOf(data)
      requires t.modeStartTime == ModeStartOf(data) && t.primeProgress == PrimeProgressOf(data)
      requires mirror == o
      modifies this`mirror
      ensures mirror == o.(mode := t.mode, status := t.status, outpins := t.outpins, lidOpen := t.lidOpen,
        sPlus := t.sPlus, pMode := t.pMode, startDuration := t.startDuration,
        startupProgress := t.startupProgress, startTime := t.startTime, primeDuration := t.primeDuration,
        modeStartTime := t.modeStartTime, primeProgress := t.primeProgress)
      ensures events == Step(Mode, o, t) + Step(Status, o, t) + Step(Outpins, o, t) + Step(LidOpen, o, t)
        + Step(SPlus, o, t) + Step(PMode, o, t) + Step(StartDuration, o, t) + Step(StartupProgress, o, t)
        + Step(StartTime, o, t) + Step(PrimeDuration, o, t) + Step(ModeStartTime, o, t)
        + Step(PrimeProgress, o, t)
    {
      events := ParseStatus(data, o, t);
      events := ParseExtended(data, o, t, events);
      events := ParseStartup(data, o, t, events);
      events := ParsePrime(data, o, t, events);
    }

    /** The second half of the reconciler, towards a target `t` whose
        reading fields hold the values derived from `data`: the temperature,
        notify, hopper and probe blocks. */
    method ParseReadings(data: Json, ghost o: Snapshot, ghost t: Snapshot, sent: seq<Event>) returns (events: seq<Event>)
      requires t.units == UnitsOf(data) && t.grillTemp == GrillTempOf(data)
      requires t.setPoint == ScanFor(data).setPoint && t.timers == ScanFor(data).timers
      requires t.hopper == Overlay(ScanFor(data).hopper, hopperDetails)
      requires t.probes == ProbesOf(FoodTemps(data), ProbeStatus(data), ScanFor(data).targets, ScanFor(data).names)
      requires mirror.units == o.units && mirror.grillTemp == o.grillTemp && mirror.setPoint == o.setPoint
      requires mirror.timers == o.timers && mirror.hopper == o.hopper && mirror.probes == o.probes
      modifies this`mirror
      ensures mirror == old(mirror).(units := t.units, grillTemp := t.grillTemp, setPoint := t.setPoint,
        timers := t.timers, hopper := t.hopper, probes := t.probes)
      ensures events == sent + Step(Units, o, t) + Step(GrillTemp, o, t) + Step(SetPoint, o, t)
        + Step(Timers, o, t) + Step(Hopper, o, t) + Step(Probes, o, t)
    {
      events := ParseTemperature(data, o, t, sent);
      var scan;
      events, scan := ParseNotify(data, o, t, events);
      events := ParseHopper(scan, o, t, events);
      events := ParseProbes(data, scan, o, t, events);
    }

    /** Reconciles a status payload: every mirrored field ends up at its
        derived value, and exactly the fields whose value changed are
        notified, in visiting order. */
    method ParseData(data: Json) returns (events: seq<Event>)
      modifies this`mirror
      ensures mirror == Derive(data, hopperDetails)
      ensures events == Diff(old(mirror), mirror)
    {
      ghost var o := mirror;
      ghost var t := Derive(data, hopperDetails);
      DeriveFields(data, hopperDetails);
      events := ParseState(data, o, t);
      events := ParseReadings(data, o, t, events);
      DiffUnrolled(o, t);
    }

    /** Reconciles the built-in demonstration payload used when the device
        cannot be reached. */
    method HandleMockData() returns (events: seq<Event>)
      modifies this`mirror
      ensures mirror == Derive(MockPayload, hopperDetails)
      ensures events == Diff(old(mirror), mirror)
    {
      events := ParseData(MockPayload);
    }

    /** The `startHistoryStream` slot: synthetic samples are emitted from now on. */
    method StartHistoryStream()
      modifies this`historyActive
      ensures historyActive
    {
      historyActive := true;
    }

    /** The `stopHistoryStream` slot. */
    method StopHistoryStream()
      modifies this`historyActive
      ensures !historyActive
    {
      historyActive := false;
    }

    /** The `sendCommand` slot: the mode change request it posts. */
    method SendCommand(command: string) returns (request: Request)
      ensures request == CommandRequest(baseUrl, headers, command)
    {
      request := CommandRequest(baseUrl, headers, command);
    }

    /** The `sendPrime` slot. */
    method SendPrime(amount: int, nextMode: string) returns (request: Request)
      ensures request == PrimeRequest(baseUrl, headers, amount, nextMode)
    {
      request := PrimeRequest(baseUrl, headers, amount, nextMode);
    }

    /** The `toggleSmokePlus` slot. */
    method ToggleSmokePlus(currentState: bool) returns (request: Request)
      ensures request == SmokePlusRequest(baseUrl, headers, currentState)
    {
      request := SmokePlusRequest(baseUrl, headers, currentState);
    }

    /** The `setTargetTemp` slot. */
    method SetTargetTemp(temp: int) returns (request: Request)
      ensures request == TargetTempRequest(baseUrl, headers, temp)
    {
      request := TargetTempRequest(baseUrl, headers, temp);
    }

    /** The `setPMode` slot: the requests its worker sends, given whether the
        settings POST raised. */
    method SetPMode(p: int, settingsRaised: bool) returns (requests: seq<Request>)
      ensures requests == PModeRequests(baseUrl, headers, p, settingsRaised)
    {
      requests := PModeRequests(baseUrl, headers, p, settingsRaised);
    }

    /** The `fetchHistory` slot. */
    method FetchHistory(mins: string) returns (request: Request)
      ensures request == HistoryRequest(baseUrl, headers, mins)
    {
      request := HistoryRequest(baseUrl, headers, mins);
    }

    /** The `fetchHistory` slot called without an argument: the last 60
        minutes. */
    method FetchDefaultHistory() returns (request: Request)
      ensures request == HistoryRequest(baseUrl, headers, DefaultHistoryMins)
      ensures request.body == JObj(map["num_mins" := JStr("60")])
    {
      request := FetchHistory(DefaultHistoryMins);
    }

    /** Reconciling the same payload twice in a row: the second pass notifies
        nothing. */
    method ReparseQuiet(data: Json) returns (first: seq<Event>, second: seq<Event>)
      modifies this`mirror
      ensures mirror == Derive(data, hopperDetails)
      ensures first == Diff(old(mirror), mirror)
      ensures second == []
    {
      first := ParseData(data);
      ghost var s := mirror;
      second := ParseData(data);
      DiffEmptyIff(s, mirror);
    }

    /** A failed fetch notifies the status every time, even when the status
        already holds the same error text. */
    method ErrorAlwaysNotifies() returns (first: seq<Event>, second: seq<Event>)
      modifies this`isUpdating, this`mirror, this`historyData, this`hopperDetails, this`lastHistoryEmit
      ensures first == second == [Changed(Status, JsonV(JStr("timeout")))]
      ensures mirror == old(mirror).(status := JStr("timeout"))
    {
      var failure := JObj(map["error" := JStr("timeout")]);
      assert !Flag(failure, "history_point") && !Flag(failure, "history");
      assert !Flag(failure, "success") && !Flag(failure, "mock");
      assert Get(failure, "error", JStr("Unknown Error")) == JStr("timeout");
      first := ProcessResponse(failure, 0);
      second := ProcessResponse(failure, 0);
    }
  }

  /** A history response clears the busy flag while the status fetch started
      by the constructor is still in flight, so the next tick starts a second,
      overlapping status fetch. */
  method HistoryResponseReopensPoll() returns (whileBusy: bool, afterHistory: bool)
    ensures !whileBusy && afterHistory
  {
    var bridge := new PiFireBridge(None);
    whileBusy := bridge.UpdateStatus();
    var history := JObj(map["success" := JBool(true), "history" := JBool(true), "data" := EmptyObj]);
    var loaded := bridge.ProcessResponse(history, 0);
    afterHistory := bridge.UpdateStatus();
  }
}

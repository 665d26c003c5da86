/**
 * What a status payload means for the mirror: the value each mirrored field
 * takes after a reconciliation, as a function of the payload and of the
 * persisted hopper details. The reconciler in the bridge is proved to reach
 * exactly `Derive(data, details)`; the lemmas here state what that value is.
 */
module Reconcile {

  import opened Text
  import opened Payload
  import opened History
  import opened Signals

  const Zero: Json := JNum(0.0)

  /** `data.get('status', {})`. */
  function StatusNode(data: Json): Json
  {
    Get(data, "status", EmptyObj)
  }

  /** `data.get('current', {})`. */
  function Current(data: Json): Json
  {
    Get(data, "current", EmptyObj)
  }

  /** The entries of an object node; none for any other node. */
  function Fields(j: Json): map<string, Json>
  {
    match j
    case JObj(fs) => fs
    case _ => map[]
  }

  // ---------------------------------------------------------------------
  // Phase progress
  // ---------------------------------------------------------------------

  /** `min(max(r, 0.0), 1.0)`. */
  function Clamp01(r: real): real
  {
    if r < 0.0 then 0.0 else if r > 1.0 then 1.0 else r
  }

  /** Progress through a phase of `duration` seconds that began at `start`,
      seen at device time `now`. */
  function Progress(duration: real, start: real, now: real): (p: real)
    ensures 0.0 <= p <= 1.0
    ensures !(duration > 0.0 && start > 0.0 && now > 0.0) ==> p == 0.0
    ensures duration > 0.0 && start > 0.0 && now > 0.0 ==>
      (now <= start ==> p == 0.0)
      && (now - start >= duration ==> p == 1.0)
      && (start <= now <= start + duration ==> p == (now - start) / duration)
  {
    if duration > 0.0 && start > 0.0 && now > 0.0 then
      RatioBounds(now - start, duration);
      Clamp01((now - start) / duration)
    else 0.0
  }

  /** Where `x / d` lies for a positive `d`. */
  lemma RatioBounds(x: real, d: real)
    requires d > 0.0
    ensures x <= 0.0 ==> x / d <= 0.0
    ensures x >= d ==> x / d >= 1.0
  {
    var r := x / d;
    assert r * d == x;
    ScaleBounds(r, d);
  }

  /** Scaling by a positive `d` keeps the sign, and keeps a factor below one
      below `d`. */
  lemma ScaleBounds(r: real, d: real)
    requires d > 0.0
    ensures r > 0.0 ==> r * d > 0.0
    ensures r < 1.0 ==> r * d < d
  {
    if r < 1.0 {
      assert (1.0 - r) * d > 0.0;
    }
  }

  /** Progress never goes backwards as device time advances. */
  lemma ProgressMonotone(duration: real, start: real, t1: real, t2: real)
    requires 0.0 < t1 <= t2
    ensures Progress(duration, start, t1) <= Progress(duration, start, t2)
  {
    if duration > 0.0 && start > 0.0 {
      assert (t1 - start) / duration <= (t2 - start) / duration by {
        assert (t2 - start) / duration - (t1 - start) / duration == (t2 - t1) / duration;
      }
    }
  }

  /** The device clock in seconds: `current.TS / 1000` when positive, else 0. */
  function DeviceSeconds(data: Json): (s: real)
    ensures s >= 0.0
    ensures s > 0.0 <==> Num(Get(Current(data), "TS", Zero)) > 0.0
  {
    var ms := Num(Get(Current(data), "TS", Zero));
    if ms > 0.0 then ms / 1000.0 else 0.0
  }

  // ---------------------------------------------------------------------
  // Grill temperature and set point
  // ---------------------------------------------------------------------

  /** `int(float(current.P.Grill))` when present, else 0. */
  function GrillTempOf(data: Json): int
  {
    var p := Get(Current(data), "P", EmptyObj);
    if Has(p, "Grill") then IntOf(p.fields["Grill"]) else 0
  }

  /** The set point found before the notify list is scanned: `current.PSP`,
      then `status.primary_setpoint`, then `status.set_point`, each used only
      when everything before it came out as zero. */
  function FirstSetPoint(data: Json): (sp: int)
    ensures var psp := IntOf(Get(Current(data), "PSP", Zero));
      var primary := IntOf(Get(StatusNode(data), "primary_setpoint", Zero));
      var legacy := IntOf(Get(StatusNode(data), "set_point", Zero));
      (psp != 0 ==> sp == psp)
      && (psp == 0 && primary != 0 ==> sp == primary)
      && (psp == 0 && primary == 0 ==> sp == legacy)
  {
    var sp := IntOf(Get(Current(data), "PSP", Zero));
    var sp := if sp == 0 then IntOf(Get(StatusNode(data), "primary_setpoint", Zero)) else sp;
    if sp == 0 then IntOf(Get(StatusNode(data), "set_point", Zero)) else sp
  }

  // ---------------------------------------------------------------------
  // The notify list
  // ---------------------------------------------------------------------

  /** `data.get('notify_data', [])`, when it is a list. */
  function NotifyItems(data: Json): seq<Json>
  {
    match Get(data, "notify_data", JArr([]))
    case JArr(items) => items
    case _ => []
  }

  function Label(item: Json): Json
  {
    Get(item, "label", JNull)
  }

  function Kind(item: Json): Json
  {
    Get(item, "type", JNull)
  }

  /** `int(float(item.get('target', 0)))`. */
  function Target(item: Json): int
  {
    IntOf(Get(item, "target", Zero))
  }

  predicate IsGrillProbe(item: Json)
  {
    Label(item) == JStr("Grill") && Kind(item) == JStr("probe")
  }

  predicate IsFoodProbe(item: Json)
  {
    Label(item) != JStr("Grill") && Kind(item) == JStr("probe")
  }

  predicate IsTimer(item: Json)
  {
    Kind(item) == JStr("timer")
  }

  predicate IsHopperItem(item: Json)
  {
    Kind(item) == JStr("hopper")
  }

  /** What one pass over the notify list collects. */
  datatype Scan = Scan(
    setPoint: int,
    timers: seq<Json>,
    hopper: map<string, Json>,
    targets: map<Json, int>,
    names: map<Json, Json>)

  /** One item of the pass: a Grill probe fills a still-zero set point; a food
      probe records its target and, if it has one, its name under its label;
      a timer is appended; a hopper item replaces the hopper record. */
  function ScanStep(acc: Scan, item: Json): Scan
  {
    var key := Label(item);
    Scan(
      if acc.setPoint == 0 && IsGrillProbe(item) then Target(item) else acc.setPoint,
      if IsTimer(item) then acc.timers + [item] else acc.timers,
      if IsHopperItem(item) then Fields(item) else acc.hopper,
      if IsFoodProbe(item) then acc.targets[key := Target(item)] else acc.targets,
      if IsFoodProbe(item) && Has(item, "name") then acc.names[key := item.fields["name"]] else acc.names)
  }

  /** The pass over `items`, starting from the set point `sp0`. */
  function ScanOf(items: seq<Json>, sp0: int): Scan
  {
    if items == [] then Scan(sp0, [], map[], map[], map[])
    else
      var n := |items| - 1;
      ScanStep(ScanOf(items[..n], sp0), items[n])
  }

  /** The single pass over the notify list. */
  method ScanNotify(items: seq<Json>, sp0: int) returns (scan: Scan)
    ensures scan == ScanOf(items, sp0)
  {
    var setPoint := sp0;
    var timers: seq<Json> := [];
    var hopper: map<string, Json> := map[];
    var targets: map<Json, int> := map[];
    var names: map<Json, Json> := map[];
    var i := 0;
    while i < |items|
      invariant 0 <= i <= |items|
      invariant Scan(setPoint, timers, hopper, targets, names) == ScanOf(items[..i], sp0)
    {
      var item := items[i];
      assert items[..i + 1][..i] == items[..i];
      if setPoint == 0 && Label(item) == JStr("Grill") && Kind(item) == JStr("probe") {
        setPoint := Target(item);
      }
      if Label(item) != JStr("Grill") && Kind(item) == JStr("probe") {
        var key := Label(item);
        targets := targets[key := Target(item)];
        if Has(item, "name") {
          names := names[key := item.fields["name"]];
        }
      }
      if Kind(item) == JStr("timer") {
        timers := timers + [item];
      }
      if Kind(item) == JStr("hopper") {
        hopper := Fields(item);
      }
      i := i + 1;
    }
    assert items[..|items|] == items;
    scan := Scan(setPoint, timers, hopper, targets, names);
  }

  /** Reference: the target of the first Grill probe item whose target is not
      zero, or 0 when there is none. */
  function GrillTarget(items: seq<Json>): int
  {
    if items == [] then 0
    else if IsGrillProbe(items[0]) && Target(items[0]) != 0 then Target(items[0])
    else GrillTarget(items[1..])
  }

  /** Reference: the timer items, in list order. */
  function TimerItems(items: seq<Json>): seq<Json>
  {
    if items == [] then []
    else (if IsTimer(items[0]) then [items[0]] else []) + TimerItems(items[1..])
  }

  lemma {:induction false} GrillTargetSnoc(items: seq<Json>, item: Json)
    ensures GrillTarget(items + [item]) ==
      if GrillTarget(items) != 0 then GrillTarget(items)
      else if IsGrillProbe(item) then Target(item) else 0
  {
    if items != [] {
      assert (items + [item])[1..] == items[1..] + [item];
      GrillTargetSnoc(items[1..], item);
    }
  }

  lemma {:induction false} TimerItemsSnoc(items: seq<Json>, item: Json)
    ensures TimerItems(items + [item]) == TimerItems(items) + (if IsTimer(item) then [item] else [])
  {
    if items != [] {
      assert (items + [item])[1..] == items[1..] + [item];
      TimerItemsSnoc(items[1..], item);
    }
  }

  /** The pass keeps a non-zero starting set point; from zero, it takes the
      target of the first Grill probe item with a non-zero target. */
  lemma {:induction false} ScanSetPoint(items: seq<Json>, sp0: int)
    ensures ScanOf(items, sp0).setPoint == if sp0 != 0 then sp0 else GrillTarget(items)
  {
    if items != [] {
      var n := |items| - 1;
      ScanSetPoint(items[..n], sp0);
      GrillTargetSnoc(items[..n], items[n]);
      assert items[..n] + [items[n]] == items;
    }
  }

  /** The timers are the timer items of the list, in list order. */
  lemma {:induction false} ScanTimers(items: seq<Json>, sp0: int)
    ensures ScanOf(items, sp0).timers == TimerItems(items)
  {
    if items != [] {
      var n := |items| - 1;
      ScanTimers(items[..n], sp0);
      TimerItemsSnoc(items[..n], items[n]);
      assert items[..n] + [items[n]] == items;
    }
  }

  /** Without hopper items the hopper record stays empty. */
  lemma {:induction false} ScanNoHopper(items: seq<Json>, sp0: int)
    requires forall i :: 0 <= i < |items| ==> !IsHopperItem(items[i])
    ensures ScanOf(items, sp0).hopper == map[]
  {
    if items != [] {
      var n := |items| - 1;
      assert forall i :: 0 <= i < n ==> items[..n][i] == items[i];
      ScanNoHopper(items[..n], sp0);
    }
  }

  /** The hopper record is that of the last hopper item. */
  lemma {:induction false} ScanLastHopper(items: seq<Json>, sp0: int, i: nat)
    requires i < |items| && IsHopperItem(items[i])
    requires forall j :: i < j < |items| ==> !IsHopperItem(items[j])
    ensures ScanOf(items, sp0).hopper == Fields(items[i])
  {
    var n := |items| - 1;
    if i < n {
      assert items[..n][i] == items[i];
      assert forall j :: i < j < n ==> items[..n][j] == items[j];
      ScanLastHopper(items[..n], sp0, i);
    }
  }

  /** No notify item labelled "Grill" ever supplies a probe target or name. */
  lemma {:induction false} ScanNoGrillTarget(items: seq<Json>, sp0: int)
    ensures JStr("Grill") !in ScanOf(items, sp0).targets
    ensures JStr("Grill") !in ScanOf(items, sp0).names
  {
    if items != [] {
      ScanNoGrillTarget(items[..|items| - 1], sp0);
    }
  }

  /** The targets are keyed by exactly the labels of the food probe items. */
  lemma {:induction false} ScanTargetKeys(items: seq<Json>, sp0: int)
    ensures forall k :: k in ScanOf(items, sp0).targets <==>
      exists i :: 0 <= i < |items| && IsFoodProbe(items[i]) && Label(items[i]) == k
  {
    if items != [] {
      var n := |items| - 1;
      ScanTargetKeys(items[..n], sp0);
      var pre := ScanOf(items[..n], sp0).targets;
      var t := ScanOf(items, sp0).targets;
      forall k
        ensures k in t <==> exists i :: 0 <= i < |items| && IsFoodProbe(items[i]) && Label(items[i]) == k
      {
        if k in pre {
          var i :| 0 <= i < n && IsFoodProbe(items[..n][i]) && Label(items[..n][i]) == k;
          assert items[..n][i] == items[i];
        }
        if exists i :: 0 <= i < |items| && IsFoodProbe(items[i]) && Label(items[i]) == k {
          var i :| 0 <= i < |items| && IsFoodProbe(items[i]) && Label(items[i]) == k;
          if i < n {
            assert items[..n][i] == items[i];
          }
        }
      }
    }
  }

  /** The last food probe item with a given label gives that label's target. */
  lemma {:induction false} ScanLastTarget(items: seq<Json>, sp0: int, i: nat)
    requires i < |items| && IsFoodProbe(items[i])
    requires forall j :: i < j < |items| && IsFoodProbe(items[j]) ==> Label(items[j]) != Label(items[i])
    ensures Label(items[i]) in ScanOf(items, sp0).targets
    ensures ScanOf(items, sp0).targets[Label(items[i])] == Target(items[i])
  {
    var n := |items| - 1;
    if i < n {
      assert items[..n][i] == items[i];
      assert forall j :: i < j < n ==> items[..n][j] == items[j];
      ScanLastTarget(items[..n], sp0, i);
    }
  }

  /** The last named food probe item with a given label gives that label's
      name. */
  lemma {:induction false} ScanLastName(items: seq<Json>, sp0: int, i: nat)
    requires i < |items| && IsFoodProbe(items[i]) && Has(items[i], "name")
    requires forall j :: i < j < |items| && IsFoodProbe(items[j]) && Has(items[j], "name") ==>
      Label(items[j]) != Label(items[i])
    ensures Label(items[i]) in ScanOf(items, sp0).names
    ensures ScanOf(items, sp0).names[Label(items[i])] == items[i].fields["name"]
  {
    var n := |items| - 1;
    if i < n {
      assert items[..n][i] == items[i];
      assert forall j :: i < j < n ==> items[..n][j] == items[j];
      ScanLastName(items[..n], sp0, i);
    }
  }

  /** Names are keyed by food probe labels whose item carries a name. */
  lemma {:induction false} ScanNames(items: seq<Json>, sp0: int)
    ensures forall k :: k in ScanOf(items, sp0).names ==>
      (exists i :: 0 <= i < |items| && IsFoodProbe(items[i]) && Label(items[i]) == k && Has(items[i], "name"))
  {
    if items != [] {
      var n := |items| - 1;
      ScanNames(items[..n], sp0);
      var pre := ScanOf(items[..n], sp0).names;
      forall k | k in ScanOf(items, sp0).names
        ensures exists i :: 0 <= i < |items| && IsFoodProbe(items[i]) && Label(items[i]) == k && Has(items[i], "name")
      {
        if k in pre && !(IsFoodProbe(items[n]) && Has(items[n], "name") && Label(items[n]) == k) {
          var i :| 0 <= i < n && IsFoodProbe(items[..n][i]) && Label(items[..n][i]) == k
            && Has(items[..n][i], "name");
          assert items[..n][i] == items[i];
        }
      }
    }
  }

  // ---------------------------------------------------------------------
  // Hopper
  // ---------------------------------------------------------------------

  /** The persisted hopper details made from a hopper response. */
  function HopperDetailsOf(h: Json): (d: map<string, Json>)
    ensures d.Keys == {"level", "name"}
    ensures d["level"] == Get(h, "hopper_level", Zero) && d["name"] == Get(h, "hopper_pellets", JStr("Unknown"))
  {
    map["level" := Get(h, "hopper_level", Zero), "name" := Get(h, "hopper_pellets", JStr("Unknown"))]
  }

  /** The hopper record with the persisted details laid over it, when there
      are any: a persisted entry wins over the notify item's entry. */
  function Overlay(record: map<string, Json>, details: map<string, Json>): (r: map<string, Json>)
    ensures r.Keys == record.Keys + details.Keys
    ensures forall k :: k in details ==> r[k] == details[k]
    ensures forall k :: k in record && k !in details ==> r[k] == record[k]
  {
    if details != map[] then record + details else record
  }

  // ---------------------------------------------------------------------
  // Food probes
  // ---------------------------------------------------------------------

  /** `status.probe_status.F`. */
  function ProbeStatus(data: Json): Json
  {
    Get(Get(StatusNode(data), "probe_status", EmptyObj), "F", EmptyObj)
  }

  /** `probe_status.get(key, {}).get('enabled', False)` is truthy. */
  predicate Enabled(ps: Json, key: string)
  {
    Truthy(Get(Get(ps, key, EmptyObj), "enabled", JBool(false)))
  }

  /** The row for food probe `key`: its name defaults to the key and its
      target to 0. */
  function MakeProbe(key: string, f: map<string, Json>, targets: map<Json, int>, names: map<Json, Json>): (p: Probe)
    requires key in f
    ensures p.temp == IntOf(f[key])
    ensures p.name == (if JStr(key) in names then names[JStr(key)] else JStr(key))
    ensures p.target == (if JStr(key) in targets then targets[JStr(key)] else 0)
  {
    Probe(
      if JStr(key) in names then names[JStr(key)] else JStr(key),
      IntOf(f[key]),
      if JStr(key) in targets then targets[JStr(key)] else 0)
  }

  /** The enabled keys among `keys`, in order. */
  function EnabledIn(keys: seq<string>, ps: Json): seq<string>
  {
    if keys == [] then []
    else
      var n := |keys| - 1;
      EnabledIn(keys[..n], ps) + (if Enabled(ps, keys[n]) then [keys[n]] else [])
  }

  /** The rows for the enabled keys among `keys`, in order. */
  function ProbesOver(keys: seq<string>, f: map<string, Json>, ps: Json, targets: map<Json, int>, names: map<Json, Json>): seq<Probe>
    requires forall k :: k in keys ==> k in f
  {
    if keys == [] then []
    else
      var n := |keys| - 1;
      ProbesOver(keys[..n], f, ps, targets, names)
        + (if Enabled(ps, keys[n]) then [MakeProbe(keys[n], f, targets, names)] else [])
  }

  /** The probe list: one row per enabled food probe, in sorted key order. */
  ghost function ProbesOf(f: map<string, Json>, ps: Json, targets: map<Json, int>, names: map<Json, Json>): seq<Probe>
  {
    ProbesOver(SortedOf(f.Keys), f, ps, targets, names)
  }

  /** Builds the probe list, walking the sorted keys. */
  method BuildProbes(f: map<string, Json>, ps: Json, targets: map<Json, int>, names: map<Json, Json>)
    returns (probes: seq<Probe>)
    ensures probes == ProbesOf(f, ps, targets, names)
  {
    var keys := SortKeys(f.Keys);
    probes := [];
    var i := 0;
    while i < |keys|
      invariant 0 <= i <= |keys|
      invariant probes == ProbesOver(keys[..i], f, ps, targets, names)
    {
      var key := keys[i];
      ProbesOverNext(keys, i, f, ps, targets, names);
      var pConfig := Get(ps, key, EmptyObj);
      var isEnabled := Get(pConfig, "enabled", JBool(false));
      if Truthy(isEnabled) {
        var temp := IntOf(f[key]);
        var target := if JStr(key) in targets then targets[JStr(key)] else 0;
        var name := if JStr(key) in names then names[JStr(key)] else JStr(key);
        probes := probes + [Probe(name, temp, target)];
      }
      i := i + 1;
    }
    assert keys[..|keys|] == keys;
  }

  /** One more key extends the probe list by that key's row when it is
      enabled. */
  lemma ProbesOverNext(keys: seq<string>, i: nat, f: map<string, Json>, ps: Json,
                       targets: map<Json, int>, names: map<Json, Json>)
    requires i < |keys| && forall k :: k in keys ==> k in f
    ensures ProbesOver(keys[..i + 1], f, ps, targets, names) ==
      ProbesOver(keys[..i], f, ps, targets, names)
      + (if Enabled(ps, keys[i]) then [MakeProbe(keys[i], f, targets, names)] else [])
  {
    assert keys[..i + 1][..i] == keys[..i];
    assert keys[..i + 1][i] == keys[i];
  }

  /** The enabled keys are exactly the keys that are listed and enabled. */
  lemma {:induction false} EnabledInMember(keys: seq<string>, ps: Json)
    ensures forall k :: k in EnabledIn(keys, ps) <==> k in keys && Enabled(ps, k)
  {
    if keys != [] {
      var n := |keys| - 1;
      EnabledInMember(keys[..n], ps);
      assert keys == keys[..n] + [keys[n]];
    }
  }

  /** Filtering keeps a sorted list sorted. */
  lemma {:induction false} EnabledInSorted(keys: seq<string>, ps: Json)
    requires StrictlySorted(keys)
    ensures StrictlySorted(EnabledIn(keys, ps))
  {
    if keys != [] {
      var n := |keys| - 1;
      assert StrictlySorted(keys[..n]);
      EnabledInSorted(keys[..n], ps);
      EnabledInMember(keys[..n], ps);
      var pre := EnabledIn(keys[..n], ps);
      var e := EnabledIn(keys, ps);
      if Enabled(ps, keys[n]) {
        forall i, j | 0 <= i < j < |e|
          ensures Below(e[i], e[j])
        {
          if j == |pre| {
            assert e[i] == pre[i] && pre[i] in pre;
            var m :| 0 <= m < n && keys[..n][m] == pre[i];
            assert keys[m] == pre[i];
          } else {
            assert e[i] == pre[i] && e[j] == pre[j];
          }
        }
      }
    }
  }

  /** The rows are the enabled keys, made into probes, in the same order. */
  lemma {:induction false} ProbesOverRows(keys: seq<string>, f: map<string, Json>, ps: Json, targets: map<Json, int>, names: map<Json, Json>)
    requires forall k :: k in keys ==> k in f
    ensures var e := EnabledIn(keys, ps);
      var rows := ProbesOver(keys, f, ps, targets, names);
      (forall k :: k in e ==> k in f)
      && |rows| == |e|
      && forall i :: 0 <= i < |e| ==> rows[i] == MakeProbe(e[i], f, targets, names)
  {
    EnabledInMember(keys, ps);
    if keys != [] {
      var n := |keys| - 1;
      assert forall k :: k in keys[..n] ==> k in keys;
      ProbesOverRows(keys[..n], f, ps, targets, names);
    }
  }

  /** With no probe marked enabled, the probe list is empty. */
  lemma {:induction false} NoneEnabled(keys: seq<string>, f: map<string, Json>, ps: Json, targets: map<Json, int>, names: map<Json, Json>)
    requires forall k :: k in keys ==> k in f
    requires forall k :: k in keys ==> !Enabled(ps, k)
    ensures ProbesOver(keys, f, ps, targets, names) == []
  {
    if keys != [] {
      var n := |keys| - 1;
      var pre := keys[..n];
      assert keys[n] in keys;
      assert !Enabled(ps, keys[n]);
      forall k | k in pre
        ensures k in f && !Enabled(ps, k)
      {
        var m :| 0 <= m < n && pre[m] == k;
        assert keys[m] == k;
      }
      NoneEnabled(pre, f, ps, targets, names);
      assert ProbesOver(keys, f, ps, targets, names) == ProbesOver(pre, f, ps, targets, names) + [];
    }
  }

  /** The probe list holds one row per enabled food probe, in strictly
      increasing key order; each row's name defaults to its key and its target
      to 0. */
  lemma ProbeRows(f: map<string, Json>, ps: Json, targets: map<Json, int>, names: map<Json, Json>)
    ensures var keys := EnabledIn(SortedOf(f.Keys), ps);
      var rows := ProbesOf(f, ps, targets, names);
      StrictlySorted(keys)
      && (forall k :: k in keys <==> k in f && Enabled(ps, k))
      && |rows| == |keys|
      && forall i :: 0 <= i < |keys| ==> rows[i] == MakeProbe(keys[i], f, targets, names)
  {
    SortedOfSorted(f.Keys);
    EnabledInSorted(SortedOf(f.Keys), ps);
    EnabledInMember(SortedOf(f.Keys), ps);
    ProbesOverRows(SortedOf(f.Keys), f, ps, targets, names);
  }

  // ---------------------------------------------------------------------
  // The mirror after a reconciliation
  // ---------------------------------------------------------------------

  /** `status.get('mode', 'Unknown')`. */
  function ModeOf(data: Json): Json
  {
    Get(StatusNode(data), "mode", JStr("Unknown"))
  }

  /** `status.get('display_mode', 'Unknown')`, mirrored as the status text. */
  function DisplayModeOf(data: Json): Json
  {
    Get(StatusNode(data), "display_mode", JStr("Unknown"))
  }

  /** `status.get('outpins', {})`. */
  function OutpinsOf(data: Json): Json
  {
    Get(StatusNode(data), "outpins", EmptyObj)
  }

  /** `status.get('lid_open_detected', False)`. */
  function LidOpenOf(data: Json): Json
  {
    Get(StatusNode(data), "lid_open_detected", JBool(false))
  }

  /** `status.get('s_plus', False)`. */
  function SPlusOf(data: Json): Json
  {
    Get(StatusNode(data), "s_plus", JBool(false))
  }

  /** `str(status.get('p_mode', '--'))`. */
  function PModeOf(data: Json): string
  {
    PyStr(Get(StatusNode(data), "p_mode", JStr("--")))
  }

  /** `status.get('start_duration', 0)`. */
  function StartDurationOf(data: Json): Json
  {
    Get(StatusNode(data), "start_duration", Zero)
  }

  /** `status.get('startup_timestamp', 0)`, mirrored as the start time. */
  function StartupTimestampOf(data: Json): Json
  {
    Get(StatusNode(data), "startup_timestamp", Zero)
  }

  /** `status.get('prime_duration', 0)`. */
  function PrimeDurationOf(data: Json): Json
  {
    Get(StatusNode(data), "prime_duration", Zero)
  }

  /** `status.get('start_time', 0)`, mirrored as the mode start time. */
  function ModeStartOf(data: Json): Json
  {
    Get(StatusNode(data), "start_time", Zero)
  }

  /** Progress through the startup phase. */
  function StartupProgressOf(data: Json): real
  {
    Progress(Num(StartDurationOf(data)), Num(StartupTimestampOf(data)), DeviceSeconds(data))
  }

  /** Progress through the prime phase. */
  function PrimeProgressOf(data: Json): real
  {
    Progress(Num(PrimeDurationOf(data)), Num(ModeStartOf(data)), DeviceSeconds(data))
  }

  /** `status.get('units', 'C')`. */
  function UnitsOf(data: Json): Json
  {
    Get(StatusNode(data), "units", JStr("C"))
  }

  /** The pass over the payload's notify list. */
  function ScanFor(data: Json): Scan
  {
    ScanOf(NotifyItems(data), FirstSetPoint(data))
  }

  /** The hopper record of the payload with the persisted details over it. */
  function HopperOf(data: Json, details: map<string, Json>): map<string, Json>
  {
    Overlay(ScanFor(data).hopper, details)
  }

  /** The probe list of a payload. */
  ghost function ProbesFor(data: Json): seq<Probe>
  {
    ProbesOf(FoodTemps(data), ProbeStatus(data), ScanFor(data).targets, ScanFor(data).names)
  }

  /** The value of every mirrored field after reconciling `data`, given the
      persisted hopper details. */
  ghost function Derive(data: Json, details: map<string, Json>): Snapshot
  {
    Snapshot(
      ModeOf(data), DisplayModeOf(data), OutpinsOf(data), LidOpenOf(data), SPlusOf(data), PModeOf(data),
      StartDurationOf(data), StartupProgressOf(data), StartupTimestampOf(data),
      PrimeDurationOf(data), ModeStartOf(data), PrimeProgressOf(data), UnitsOf(data),
      GrillTempOf(data), ScanFor(data).setPoint, ScanFor(data).timers, HopperOf(data, details),
      ProbesFor(data))
  }

  /** The derived mirror, field by field. */
  lemma DeriveFields(data: Json, details: map<string, Json>)
    ensures var t := Derive(data, details);
      t.mode == ModeOf(data) && t.status == DisplayModeOf(data) && t.outpins == OutpinsOf(data)
      && t.lidOpen == LidOpenOf(data) && t.sPlus == SPlusOf(data) && t.pMode == PModeOf(data)
      && t.startDuration == StartDurationOf(data) && t.startupProgress == StartupProgressOf(data)
      && t.startTime == StartupTimestampOf(data) && t.primeDuration == PrimeDurationOf(data)
      && t.modeStartTime == ModeStartOf(data) && t.primeProgress == PrimeProgressOf(data)
      && t.units == UnitsOf(data) && t.grillTemp == GrillTempOf(data)
      && t.setPoint == ScanFor(data).setPoint && t.timers == ScanFor(data).timers
      && t.hopper == Overlay(ScanFor(data).hopper, details)
      && t.probes == ProbesOf(FoodTemps(data), ProbeStatus(data), ScanFor(data).targets, ScanFor(data).names)
  {
  }

  /** Both progress ratios lie in [0, 1] and are zero unless the duration, the
      phase start and the device clock are all positive. */
  lemma DeriveProgress(data: Json, details: map<string, Json>)
    ensures var s := Derive(data, details);
      var st := StatusNode(data);
      0.0 <= s.startupProgress <= 1.0 && 0.0 <= s.primeProgress <= 1.0
      && (Num(s.startDuration) <= 0.0 || Num(s.startTime) <= 0.0 || DeviceSeconds(data) <= 0.0
          ==> s.startupProgress == 0.0)
      && (Num(s.primeDuration) <= 0.0 || Num(s.modeStartTime) <= 0.0 || DeviceSeconds(data) <= 0.0
          ==> s.primeProgress == 0.0)
  {
  }

  /** The set point is the first non-zero of `current.PSP`,
      `status.primary_setpoint`, `status.set_point` and the target of the first
      Grill probe notify item with a non-zero target; 0 when all are zero. */
  lemma DeriveSetPoint(data: Json, details: map<string, Json>)
    ensures var psp := IntOf(Get(Current(data), "PSP", Zero));
      var primary := IntOf(Get(StatusNode(data), "primary_setpoint", Zero));
      var legacy := IntOf(Get(StatusNode(data), "set_point", Zero));
      Derive(data, details).setPoint ==
        if psp != 0 then psp
        else if primary != 0 then primary
        else if legacy != 0 then legacy
        else GrillTarget(NotifyItems(data))
  {
    ScanSetPoint(NotifyItems(data), FirstSetPoint(data));
  }

  /** The timers are the timer notify items, in device order. */
  lemma DeriveTimers(data: Json, details: map<string, Json>)
    ensures Derive(data, details).timers == TimerItems(NotifyItems(data))
  {
    ScanTimers(NotifyItems(data), FirstSetPoint(data));
  }

  /** The hopper is the last hopper notify item with every persisted detail
      laid over it; the persisted details alone when there is no such item. */
  lemma DeriveHopper(data: Json, details: map<string, Json>)
    ensures var hopper := HopperOf(data, details);
      var items := NotifyItems(data);
      (forall k :: k in details ==> k in hopper && hopper[k] == details[k])
      && ((forall i :: 0 <= i < |items| ==> !IsHopperItem(items[i])) ==> hopper == details)
      && (forall i :: 0 <= i < |items| && IsHopperItem(items[i])
           && (forall j :: i < j < |items| ==> !IsHopperItem(items[j]))
           ==> hopper == Overlay(Fields(items[i]), details))
  {
    var items := NotifyItems(data);
    var sp := FirstSetPoint(data);
    var scanned := ScanOf(items, sp).hopper;
    assert HopperOf(data, details) == Overlay(scanned, details);
    if forall i :: 0 <= i < |items| ==> !IsHopperItem(items[i]) {
      ScanNoHopper(items, sp);
      assert Overlay(map[], details) == details;
    }
    forall i | 0 <= i < |items| && IsHopperItem(items[i])
        && (forall j :: i < j < |items| ==> !IsHopperItem(items[j]))
      ensures scanned == Fields(items[i])
    {
      ScanLastHopper(items, sp, i);
    }
  }

  /** The probes are the enabled food probes in sorted key order, with the
      temperature of `current.F`; a food probe's target never comes from a
      Grill notify item. */
  lemma DeriveProbes(data: Json, details: map<string, Json>)
    ensures var s := Derive(data, details);
      var f := FoodTemps(data);
      var scan := ScanFor(data);
      var keys := EnabledIn(SortedOf(f.Keys), ProbeStatus(data));
      StrictlySorted(keys)
      && (forall k :: k in keys <==> k in f && Enabled(ProbeStatus(data), k))
      && |s.probes| == |keys|
      && (forall i :: 0 <= i < |keys| ==>
            s.probes[i] == MakeProbe(keys[i], f, scan.targets, scan.names))
      && (forall i :: 0 <= i < |keys| && keys[i] == "Grill" ==> s.probes[i].target == 0)
  {
    var f := FoodTemps(data);
    var scan := ScanOf(NotifyItems(data), FirstSetPoint(data));
    ProbeRows(f, ProbeStatus(data), scan.targets, scan.names);
    ScanNoGrillTarget(NotifyItems(data), FirstSetPoint(data));
  }

  /** A probe row shows the name of the last named food probe item labelled
      with its key. */
  lemma DeriveProbeName(data: Json, details: map<string, Json>, key: string, j: nat)
    requires key in FoodTemps(data) && Enabled(ProbeStatus(data), key)
    requires j < |NotifyItems(data)| && IsFoodProbe(NotifyItems(data)[j]) && Has(NotifyItems(data)[j], "name")
    requires Label(NotifyItems(data)[j]) == JStr(key)
    requires forall m :: (j < m < |NotifyItems(data)| && IsFoodProbe(NotifyItems(data)[m])
                          && Has(NotifyItems(data)[m], "name")) ==> Label(NotifyItems(data)[m]) != JStr(key)
    ensures var keys := EnabledIn(SortedOf(FoodTemps(data).Keys), ProbeStatus(data));
      var probes := Derive(data, details).probes;
      forall i :: 0 <= i < |keys| && keys[i] == key ==>
        i < |probes| && probes[i].name == NotifyItems(data)[j].fields["name"]
  {
    DeriveProbes(data, details);
    ScanLastName(NotifyItems(data), FirstSetPoint(data), j);
  }

  /** Without a named food probe item labelled with its key, a probe row is
      named by the key itself. */
  lemma DeriveProbeDefaultName(data: Json, details: map<string, Json>, key: string)
    requires forall m :: (0 <= m < |NotifyItems(data)| && IsFoodProbe(NotifyItems(data)[m])
                          && Has(NotifyItems(data)[m], "name")) ==> Label(NotifyItems(data)[m]) != JStr(key)
    ensures var keys := EnabledIn(SortedOf(FoodTemps(data).Keys), ProbeStatus(data));
      var probes := Derive(data, details).probes;
      forall i :: 0 <= i < |keys| && keys[i] == key ==> i < |probes| && probes[i].name == JStr(key)
  {
    DeriveProbes(data, details);
    ScanNames(NotifyItems(data), FirstSetPoint(data));
  }

  // ---------------------------------------------------------------------
  // The canned payload used when the device cannot be reached
  // ---------------------------------------------------------------------

  const MockGrillItem: Json :=
    JObj(map["condition" := JStr("equal_above"), "label" := JStr("Grill"), "target" := JNum(110.0), "type" := JStr("probe")])
  const MockProbeItem: Json :=
    JObj(map["condition" := JStr("equal_above"), "label" := JStr("Probe1"), "target" := JNum(95.0), "type" := JStr("probe")])
  const MockTimerItem: Json :=
    JObj(map["keep_warm" := JBool(false), "label" := JStr("Timer"), "req" := JBool(false), "shutdown" := JBool(false),
             "type" := JStr("timer"), "time_remaining" := JNum(300.0)])
  const MockHopperItem: Json :=
    JObj(map["keep_warm" := JBool(false), "label" := JStr("Hopper"), "last_check" := JNum(0.0), "req" := JBool(true),
             "shutdown" := JBool(false), "type" := JStr("hopper"), "level" := JNum(80.0), "name" := JStr("Hickory")])

  const MockItems: seq<Json> := [MockGrillItem, MockProbeItem, MockTimerItem, MockHopperItem]

  const MockPayload: Json := JObj(map[
    "current" := JObj(map[
      "AUX" := EmptyObj,
      "F" := JObj(map["Probe1" := JNum(85.0), "Probe2" := JNum(90.0)]),
      "NT" := JObj(map["Grill" := Zero, "Probe1" := Zero, "Probe2" := Zero]),
      "P" := JObj(map["Grill" := JNum(24.0)]),
      "PSP" := Zero]),
    "notify_data" := JArr(MockItems),
    "status" := JObj(map[
      "critical_error" := JBool(false),
      "display_mode" := JStr("Startup"),
      "lid_open_detected" := JBool(true),
      "mode" := JStr("Startup"),
      "outpins" := JObj(map["auger" := JBool(true), "fan" := JBool(true), "igniter" := JBool(false), "power" := JBool(true)]),
      "s_plus" := JBool(true),
      "p_mode" := JStr("4"),
      "units" := JStr("C")])])

  /** The canned payload's status block: mode and display mode "Startup",
      p-mode "4"; its grill reads 24. */
  lemma MockStatus()
    ensures ModeOf(MockPayload) == JStr("Startup") && DisplayModeOf(MockPayload) == JStr("Startup")
    ensures PModeOf(MockPayload) == "4" && GrillTempOf(MockPayload) == 24
    ensures !Has(StatusNode(MockPayload), "probe_status")
  {
  }

  /** Where the canned payload's notify list comes from. */
  lemma MockNotify()
    ensures NotifyItems(MockPayload) == MockItems
    ensures FirstSetPoint(MockPayload) == 0
  {
  }

  /** The canned notify list: set point 110 from the Grill item, the one
      timer, the Hickory hopper item, and Probe1's target 95. */
  lemma MockScan()
    ensures ScanOf(MockItems, 0) ==
      Scan(110, [MockTimerItem], Fields(MockHopperItem), map[JStr("Probe1") := 95], map[])
  {
    MockScanSteps();
    var s1 := Scan(110, [], map[], map[], map[]);
    var s2 := Scan(110, [], map[], map[JStr("Probe1") := 95], map[]);
    var s3 := Scan(110, [MockTimerItem], map[], map[JStr("Probe1") := 95], map[]);
    var m := MockItems;
    assert m[..3][..2][..1][..0] == [];
    assert ScanOf(m[..1], 0) == s1;
    assert m[..2][..1] == m[..1] && m[..2][1] == MockProbeItem;
    assert ScanOf(m[..2], 0) == s2;
    assert m[..3][..2] == m[..2] && m[..3][2] == MockTimerItem;
    assert ScanOf(m[..3], 0) == s3;
    assert m[..4] == m;
  }

  /** What each canned notify item does to the pass. */
  lemma MockScanSteps()
    ensures ScanStep(Scan(0, [], map[], map[], map[]), MockGrillItem) == Scan(110, [], map[], map[], map[])
    ensures ScanStep(Scan(110, [], map[], map[], map[]), MockProbeItem)
      == Scan(110, [], map[], map[JStr("Probe1") := 95], map[])
    ensures ScanStep(Scan(110, [], map[], map[JStr("Probe1") := 95], map[]), MockTimerItem)
      == Scan(110, [MockTimerItem], map[], map[JStr("Probe1") := 95], map[])
    ensures ScanStep(Scan(110, [MockTimerItem], map[], map[JStr("Probe1") := 95], map[]), MockHopperItem)
      == Scan(110, [MockTimerItem], Fields(MockHopperItem), map[JStr("Probe1") := 95], map[])
  {
    var s0 := Scan(0, [], map[], map[], map[]);
    assert IsGrillProbe(MockGrillItem) && Target(MockGrillItem) == 110;
    assert !IsFoodProbe(MockGrillItem) && !IsTimer(MockGrillItem) && !IsHopperItem(MockGrillItem);
    var s1 := Scan(110, [], map[], map[], map[]);
    assert ScanStep(s0, MockGrillItem) == s1;
    assert IsFoodProbe(MockProbeItem) && Target(MockProbeItem) == 95 && !Has(MockProbeItem, "name");
    assert !IsTimer(MockProbeItem) && !IsHopperItem(MockProbeItem);
    var s2 := Scan(110, [], map[], map[JStr("Probe1") := 95], map[]);
    assert ScanStep(s1, MockProbeItem) == s2;
    assert !IsGrillProbe(MockTimerItem) && !IsFoodProbe(MockTimerItem) && IsTimer(MockTimerItem) && !IsHopperItem(MockTimerItem);
    var s3 := Scan(110, [MockTimerItem], map[], map[JStr("Probe1") := 95], map[]);
    assert ScanStep(s2, MockTimerItem) == s3;
    assert !IsGrillProbe(MockHopperItem) && !IsFoodProbe(MockHopperItem) && !IsTimer(MockHopperItem) && IsHopperItem(MockHopperItem);
    var s4 := Scan(110, [MockTimerItem], Fields(MockHopperItem), map[JStr("Probe1") := 95], map[]);
    assert ScanStep(s3, MockHopperItem) == s4;
  }

  /** A payload whose status block has no `probe_status` enables no probe, so
      its probe list is empty whatever `current.F` holds and whatever targets
      and names were collected. The canned payload is such a payload. */
  lemma NoProbeStatus(data: Json, targets: map<Json, int>, names: map<Json, Json>)
    requires !Has(StatusNode(data), "probe_status")
    ensures ProbesOf(FoodTemps(data), ProbeStatus(data), targets, names) == []
  {
    var f := FoodTemps(data);
    assert ProbeStatus(data) == EmptyObj;
    NoneEnabled(SortedOf(f.Keys), f, EmptyObj, targets, names);
  }

  /** Reconciling the canned payload shows a grill starting up at 24 degrees
      with set point 110 in Celsius, p-mode "4", one timer, the Hickory
      hopper under any persisted details, and no probe rows. */
  lemma MockDerived(details: map<string, Json>)
    ensures Derive(MockPayload, details).mode == JStr("Startup")
    ensures Derive(MockPayload, details).status == JStr("Startup")
    ensures Derive(MockPayload, details).pMode == "4"
    ensures Derive(MockPayload, details).grillTemp == 24
    ensures Derive(MockPayload, details).setPoint == 110
    ensures Derive(MockPayload, details).units == JStr("C")
    ensures Derive(MockPayload, details).timers == [MockTimerItem]
    ensures Derive(MockPayload, details).hopper == Overlay(Fields(MockHopperItem), details)
    ensures Derive(MockPayload, details).probes == []
  {
    MockStatus();
    MockNotify();
    MockScan();
    var scan := ScanFor(MockPayload);
    NoProbeStatus(MockPayload, scan.targets, scan.names);
    DeriveFields(MockPayload, details);
  }

  /** The persisted details win over the notify item: a hopper item at level 10
      with "Hickory" pellets, under persisted details of level 40 with "Oak",
      mirrors as level 40, "Oak", keeping the item's other entries. */
  lemma HopperOverlayExample()
    ensures Overlay(
        map["type" := JStr("hopper"), "level" := JNum(10.0), "name" := JStr("Hickory"), "req" := JBool(true)],
        HopperDetailsOf(JObj(map["hopper_level" := JNum(40.0), "hopper_pellets" := JStr("Oak")])))
      == map["type" := JStr("hopper"), "level" := JNum(40.0), "name" := JStr("Oak"), "req" := JBool(true)]
  {
  }
}

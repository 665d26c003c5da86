/**
 * The state the bridge mirrors from the device and the change notifications
 * it sends to the user interface. Each notification is an `Event`; a run of
 * the reconciler yields the events of the fields whose value changed, in the
 * order the reconciler visits the fields.
 */
module Signals {

  import opened Payload
  import opened History

  /** One food-probe row of the `probes` list. */
  datatype Probe = Probe(name: Json, temp: int, target: int)

  /** The mirrored fields, in the order the reconciler visits them. */
  datatype Field =
    | Mode | Status | Outpins | LidOpen | SPlus | PMode
    | StartDuration | StartupProgress | StartTime | PrimeDuration | ModeStartTime | PrimeProgress
    | Units | GrillTemp | SetPoint | Timers | Hopper | Probes

  /** The values of the mirrored fields. Fields that keep whatever JSON value
      the device sent are `Json`; the derived ones have their derived types. */
  datatype Snapshot = Snapshot(
    mode: Json,
    status: Json,
    outpins: Json,
    lidOpen: Json,
    sPlus: Json,
    pMode: string,
    startDuration: Json,
    startupProgress: real,
    startTime: Json,
    primeDuration: Json,
    modeStartTime: Json,
    primeProgress: real,
    units: Json,
    grillTemp: int,
    setPoint: int,
    timers: seq<Json>,
    hopper: map<string, Json>,
    probes: seq<Probe>)

  /** The payload a notification carries. */
  datatype Value =
    | JsonV(j: Json)
    | IntV(i: int)
    | RealV(r: real)
    | TextV(t: string)
    | ListV(items: seq<Json>)
    | ObjV(fields: map<string, Json>)
    | ProbesV(probes: seq<Probe>)

  /** A notification. `Changed(f, v)` is the `<f>Changed` signal of a mirrored
      field; the history signal is raised either with a streamed point passed
      through (`PointStreamed`) or with a synthetic sample (`PointSampled`). */
  datatype Event =
    | Changed(field: Field, value: Value)
    | PointStreamed(data: Json)
    | PointSampled(point: HistoryPoint)
    | HistoryLoaded(series: seq<Series>)
    | AddressChanged(ip: string)
    | SelectionChanged(selection: string)

  function FieldValue(s: Snapshot, f: Field): Value
  {
    match f
    case Mode => JsonV(s.mode)
    case Status => JsonV(s.status)
    case Outpins => JsonV(s.outpins)
    case LidOpen => JsonV(s.lidOpen)
    case SPlus => JsonV(s.sPlus)
    case PMode => TextV(s.pMode)
    case StartDuration => JsonV(s.startDuration)
    case StartupProgress => RealV(s.startupProgress)
    case StartTime => JsonV(s.startTime)
    case PrimeDuration => JsonV(s.primeDuration)
    case ModeStartTime => JsonV(s.modeStartTime)
    case PrimeProgress => RealV(s.primeProgress)
    case Units => JsonV(s.units)
    case GrillTemp => IntV(s.grillTemp)
    case SetPoint => IntV(s.setPoint)
    case Timers => ListV(s.timers)
    case Hopper => ObjV(s.hopper)
    case Probes => ProbesV(s.probes)
  }

  /** The position of each field in the order in which the reconciler
      compares, assigns and notifies. */
  function Rank(f: Field): (r: nat)
    ensures r < FieldCount
  {
    match f
    case Mode => 0
    case Status => 1
    case Outpins => 2
    case LidOpen => 3
    case SPlus => 4
    case PMode => 5
    case StartDuration => 6
    case StartupProgress => 7
    case StartTime => 8
    case PrimeDuration => 9
    case ModeStartTime => 10
    case PrimeProgress => 11
    case Units => 12
    case GrillTemp => 13
    case SetPoint => 14
    case Timers => 15
    case Hopper => 16
    case Probes => 17
  }

  const FieldCount := 18

  /** The field visited at position `i`. */
  function FieldAt(i: nat): Field
    requires i < FieldCount
  {
    if i == 0 then Mode
    else if i == 1 then Status
    else if i == 2 then Outpins
    else if i == 3 then LidOpen
    else if i == 4 then SPlus
    else if i == 5 then PMode
    else if i == 6 then StartDuration
    else if i == 7 then StartupProgress
    else if i == 8 then StartTime
    else if i == 9 then PrimeDuration
    else if i == 10 then ModeStartTime
    else if i == 11 then PrimeProgress
    else if i == 12 then Units
    else if i == 13 then GrillTemp
    else if i == 14 then SetPoint
    else if i == 15 then Timers
    else if i == 16 then Hopper
    else Probes
  }

  /** `Rank` and `FieldAt` are inverse: the visiting order lists every field
      exactly once. */
  lemma RankFieldAt(f: Field, i: nat)
    requires i < FieldCount
    ensures FieldAt(Rank(f)) == f
    ensures Rank(FieldAt(i)) == i
  {
  }

  /** The notification for field `f` when going from `a` to `b`: one event
      carrying the new value if the value differs, none otherwise. */
  function Step(f: Field, a: Snapshot, b: Snapshot): seq<Event>
  {
    if FieldValue(a, f) != FieldValue(b, f) then [Changed(f, FieldValue(b, f))] else []
  }

  /** The notifications for the first `k` fields of the visiting order. */
  function DiffUpTo(k: nat, a: Snapshot, b: Snapshot): seq<Event>
    requires k <= FieldCount
  {
    if k == 0 then [] else DiffUpTo(k - 1, a, b) + Step(FieldAt(k - 1), a, b)
  }

  /** The notifications of a reconciliation that moves the mirror from `a` to `b`. */
  function Diff(a: Snapshot, b: Snapshot): seq<Event>
  {
    DiffUpTo(FieldCount, a, b)
  }

  /** Field-change events only, in strictly increasing visiting order: so no
      field is notified twice. */
  predicate InOrder(d: seq<Event>)
  {
    forall i, j :: 0 <= i < j < |d| ==> d[i].Changed? && d[j].Changed? && Rank(d[i].field) < Rank(d[j].field)
  }

  /** An event is produced exactly for a field among the first `k` whose value
      differs, and it carries the new value. */
  lemma {:induction false} DiffUpToMember(k: nat, a: Snapshot, b: Snapshot)
    requires k <= FieldCount
    ensures forall e :: e in DiffUpTo(k, a, b) <==>
      e.Changed? && Rank(e.field) < k && FieldValue(a, e.field) != FieldValue(b, e.field)
      && e.value == FieldValue(b, e.field)
  {
    if k > 0 {
      DiffUpToMember(k - 1, a, b);
      forall e
        ensures e in DiffUpTo(k, a, b) <==>
          e.Changed? && Rank(e.field) < k && FieldValue(a, e.field) != FieldValue(b, e.field)
          && e.value == FieldValue(b, e.field)
      {
        RankFieldAt(FieldAt(k - 1), k - 1);
        if e.Changed? {
          RankFieldAt(e.field, k - 1);
        }
      }
    }
  }

  /** The events follow the visiting order, one per field at most. */
  lemma {:induction false} DiffUpToInOrder(k: nat, a: Snapshot, b: Snapshot)
    requires k <= FieldCount
    ensures InOrder(DiffUpTo(k, a, b))
  {
    if k > 0 {
      DiffUpToInOrder(k - 1, a, b);
      var pre := DiffUpTo(k - 1, a, b);
      var f := FieldAt(k - 1);
      assert DiffUpTo(k, a, b) == pre + Step(f, a, b);
      if FieldValue(a, f) != FieldValue(b, f) {
        assert Step(f, a, b) == [Changed(f, FieldValue(b, f))];
        DiffUpToRanks(k - 1, a, b);
        RankFieldAt(f, k - 1);
        InOrderSnoc(pre, Changed(f, FieldValue(b, f)));
      } else {
        assert pre + Step(f, a, b) == pre;
      }
    }
  }

  /** Every event among the first `k` fields is a field change of rank
      below `k`. */
  lemma DiffUpToRanks(k: nat, a: Snapshot, b: Snapshot)
    requires k <= FieldCount
    ensures forall x :: x in DiffUpTo(k, a, b) ==> x.Changed? && Rank(x.field) < k
  {
    DiffUpToMember(k, a, b);
  }

  /** An event for a field later than every field notified so far keeps the
      notifications in order. */
  lemma InOrderSnoc(pre: seq<Event>, e: Event)
    requires InOrder(pre) && e.Changed?
    requires forall x :: x in pre ==> x.Changed? && Rank(x.field) < Rank(e.field)
    ensures InOrder(pre + [e])
  {
    var d := pre + [e];
    forall i, j | 0 <= i < j < |d|
      ensures d[i].Changed? && d[j].Changed? && Rank(d[i].field) < Rank(d[j].field)
    {
      assert d[i] == pre[i] && pre[i] in pre;
      if j < |pre| {
        assert d[j] == pre[j];
      }
    }
  }

  /** No field among the first `k` differs exactly when there is no event. */
  lemma {:induction false} DiffUpToEmpty(k: nat, a: Snapshot, b: Snapshot)
    requires k <= FieldCount
    ensures DiffUpTo(k, a, b) == [] <==>
      forall i :: 0 <= i < k ==> FieldValue(a, FieldAt(i)) == FieldValue(b, FieldAt(i))
  {
    if k > 0 {
      DiffUpToEmpty(k - 1, a, b);
    }
  }

  /** A reconciliation notifies each changed field with its new value and
      nothing else, at most once per field and in visiting order. */
  lemma DiffMember(a: Snapshot, b: Snapshot)
    ensures forall e :: e in Diff(a, b) <==>
      e.Changed? && FieldValue(a, e.field) != FieldValue(b, e.field) && e.value == FieldValue(b, e.field)
    ensures InOrder(Diff(a, b))
  {
    DiffUpToMember(FieldCount, a, b);
    DiffUpToInOrder(FieldCount, a, b);
    forall e: Event | e.Changed?
      ensures Rank(e.field) < FieldCount
    {
    }
  }

  /** A reconciliation is silent exactly when the mirror does not change: so
      reconciling the same payload twice notifies nothing the second time. */
  lemma DiffEmptyIff(a: Snapshot, b: Snapshot)
    ensures Diff(a, b) == [] <==> a == b
  {
    DiffUpToEmpty(FieldCount, a, b);
    if Diff(a, b) == [] {
      forall f: Field
        ensures FieldValue(a, f) == FieldValue(b, f)
      {
        RankFieldAt(f, 0);
        assert FieldValue(a, FieldAt(Rank(f))) == FieldValue(b, FieldAt(Rank(f)));
      }
      SnapshotsAgree(a, b);
    }
  }

  /** Two snapshots with the same value in every field are equal. */
  lemma SnapshotsAgree(a: Snapshot, b: Snapshot)
    requires forall f: Field :: FieldValue(a, f) == FieldValue(b, f)
    ensures a == b
  {
    assert FieldValue(a, Mode) == FieldValue(b, Mode);
    assert FieldValue(a, Status) == FieldValue(b, Status);
    assert FieldValue(a, Outpins) == FieldValue(b, Outpins);
    assert FieldValue(a, LidOpen) == FieldValue(b, LidOpen);
    assert FieldValue(a, SPlus) == FieldValue(b, SPlus);
    assert FieldValue(a, PMode) == FieldValue(b, PMode);
    assert FieldValue(a, StartDuration) == FieldValue(b, StartDuration);
    assert FieldValue(a, StartupProgress) == FieldValue(b, StartupProgress);
    assert FieldValue(a, StartTime) == FieldValue(b, StartTime);
    assert FieldValue(a, PrimeDuration) == FieldValue(b, PrimeDuration);
    assert FieldValue(a, ModeStartTime) == FieldValue(b, ModeStartTime);
    assert FieldValue(a, PrimeProgress) == FieldValue(b, PrimeProgress);
    assert FieldValue(a, Units) == FieldValue(b, Units);
    assert FieldValue(a, GrillTemp) == FieldValue(b, GrillTemp);
    assert FieldValue(a, SetPoint) == FieldValue(b, SetPoint);
    assert FieldValue(a, Timers) == FieldValue(b, Timers);
    assert FieldValue(a, Hopper) == FieldValue(b, Hopper);
    assert FieldValue(a, Probes) == FieldValue(b, Probes);
  }

  /** Whether `v` has the kind of value field `f` holds. */
  predicate Fits(f: Field, v: Value)
  {
    match f
    case PMode => v.TextV?
    case StartupProgress | PrimeProgress => v.RealV?
    case GrillTemp | SetPoint => v.IntV?
    case Timers => v.ListV?
    case Hopper => v.ObjV?
    case Probes => v.ProbesV?
    case _ => v.JsonV?
  }

  /** `s` with field `f` set to `v`. */
  function With(s: Snapshot, f: Field, v: Value): (r: Snapshot)
    requires Fits(f, v)
    ensures FieldValue(r, f) == v
  {
    match f
    case Mode => s.(mode := v.j)
    case Status => s.(status := v.j)
    case Outpins => s.(outpins := v.j)
    case LidOpen => s.(lidOpen := v.j)
    case SPlus => s.(sPlus := v.j)
    case PMode => s.(pMode := v.t)
    case StartDuration => s.(startDuration := v.j)
    case StartupProgress => s.(startupProgress := v.r)
    case StartTime => s.(startTime := v.j)
    case PrimeDuration => s.(primeDuration := v.j)
    case ModeStartTime => s.(modeStartTime := v.j)
    case PrimeProgress => s.(primeProgress := v.r)
    case Units => s.(units := v.j)
    case GrillTemp => s.(grillTemp := v.i)
    case SetPoint => s.(setPoint := v.i)
    case Timers => s.(timers := v.items)
    case Hopper => s.(hopper := v.fields)
    case Probes => s.(probes := v.probes)
  }

  /** Every field's own value fits it. */
  lemma FieldValueFits(s: Snapshot, f: Field)
    ensures Fits(f, FieldValue(s, f))
  {
  }

  /** Setting a field to the value it already holds changes nothing. */
  lemma WithSame(s: Snapshot, f: Field)
    ensures Fits(f, FieldValue(s, f)) && With(s, f, FieldValue(s, f)) == s
  {
  }

  /** One more step of the visiting order. */
  lemma DiffUpToNext(k: nat, a: Snapshot, b: Snapshot)
    requires k < FieldCount
    ensures DiffUpTo(k + 1, a, b) == DiffUpTo(k, a, b) + Step(FieldAt(k), a, b)
  {
  }

  /** The notifications of a reconciliation written out field by field, in
      visiting order. */
  lemma DiffUnrolled(a: Snapshot, b: Snapshot)
    ensures Diff(a, b) ==
      Step(Mode, a, b) + Step(Status, a, b) + Step(Outpins, a, b) + Step(LidOpen, a, b) + Step(SPlus, a, b)
      + Step(PMode, a, b) + Step(StartDuration, a, b) + Step(StartupProgress, a, b) + Step(StartTime, a, b)
      + Step(PrimeDuration, a, b) + Step(ModeStartTime, a, b) + Step(PrimeProgress, a, b) + Step(Units, a, b)
      + Step(GrillTemp, a, b) + Step(SetPoint, a, b) + Step(Timers, a, b) + Step(Hopper, a, b)
      + Step(Probes, a, b)
  {
    assert DiffUpTo(1, a, b) == Step(Mode, a, b) by {
      DiffUpToNext(0, a, b);
      assert [] + Step(Mode, a, b) == Step(Mode, a, b);
    }
    DiffUpToNext(1, a, b);
    DiffUpToNext(2, a, b);
    DiffUpToNext(3, a, b);
    DiffUpToNext(4, a, b);
    DiffUpToNext(5, a, b);
    DiffUpToNext(6, a, b);
    DiffUpToNext(7, a, b);
    DiffUpToNext(8, a, b);
    DiffUpToNext(9, a, b);
    DiffUpToNext(10, a, b);
    DiffUpToNext(11, a, b);
    DiffUpToNext(12, a, b);
    DiffUpToNext(13, a, b);
    DiffUpToNext(14, a, b);
    DiffUpToNext(15, a, b);
    DiffUpToNext(16, a, b);
    DiffUpToNext(17, a, b);
  }
}

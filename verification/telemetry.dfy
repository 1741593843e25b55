/** The values that travel along the ingestion path of the drilling telemetry
    service: the raw sample posted to /ingest, the fields the analyzer derives
    from it, the event that is persisted, the enriched message that is
    broadcast, and the alert summary with its priority band. */
module Telemetry {

  /** A physical measurement. The core copies readings and never computes on them. */
  type Reading = real

  /** The seven fields of a posted sample (the DrillingData request model). */
  datatype Sample = Sample(
    bitDepth: Reading, wobs: Reading, rpm: Reading, torque: Reading,
    flowRate: Reading, mudDensity: Reading, annularPressure: Reading)

  /** What the analyzer returns for a sample: a predicted rate of penetration
      and four independent alert flags. */
  datatype Derived = Derived(
    predictedRop: Reading,
    mechanicalSticking: bool, differentialSticking: bool,
    holeCleaning: bool, mudLoss: bool)

  /** The payload ingest builds before priority is attached: raw fields,
      derived fields and the ingestion timestamp. This is what is stored. */
  datatype Event = Event(timestamp: nat, sample: Sample, derived: Derived)

  datatype Priority = LOW | MEDIUM | HIGH

  /** The enriched payload pushed to every subscriber: the event plus its priority. */
  datatype Message = Message(event: Event, priority: Priority)

  /** A value of the analyzer's result dictionary; only `Flag` is a Python bool. */
  datatype Value = Number(x: Reading) | Flag(b: bool)

  type Entry = (string, Value)

  const RopKey: string := "predicted_rop"
  const MechanicalKey: string := "mechanical_sticking_alert"
  const DifferentialKey: string := "differential_sticking_alert"
  const HoleCleaningKey: string := "hole_cleaning_alert"
  const MudLossKey: string := "mud_loss_alert"

  /** The four alert keys, in the order the row layout lists them. */
  const AlertKeys: seq<string> := [MechanicalKey, DifferentialKey, HoleCleaningKey, MudLossKey]

  predicate Distinct<T(==)>(s: seq<T>) {
    forall i, j :: 0 <= i < j < |s| ==> s[i] != s[j]
  }

  /** The analyzer's result viewed as the dictionary ingest iterates over. */
  function Entries(d: Derived): seq<Entry> {
    [(RopKey, Number(d.predictedRop))]
    + ([(MechanicalKey, Flag(d.mechanicalSticking))]
    + ([(DifferentialKey, Flag(d.differentialSticking))]
    + ([(HoleCleaningKey, Flag(d.holeCleaning))]
    + [(MudLossKey, Flag(d.mudLoss))])))
  }

  /** The flag an alert key names (false for any other key). */
  function FlagOf(d: Derived, k: string): bool {
    if k == MechanicalKey then d.mechanicalSticking
    else if k == DifferentialKey then d.differentialSticking
    else if k == HoleCleaningKey then d.holeCleaning
    else if k == MudLossKey then d.mudLoss
    else false
  }

  function Bit(b: bool): nat { if b then 1 else 0 }

  /** The number of raised alerts, counted from the four flags directly. */
  function AlertCount(d: Derived): (n: nat)
    ensures n <= |AlertKeys|
    ensures n == 0 <==> !(d.mechanicalSticking || d.differentialSticking || d.holeCleaning || d.mudLoss)
  {
    Bit(d.mechanicalSticking) + Bit(d.differentialSticking) + Bit(d.holeCleaning) + Bit(d.mudLoss)
  }

  /** Entries whose value is a bool that is true. */
  predicate Raised(e: Entry) {
    e.1.Flag? && e.1.b
  }

  /** The keys of the raised entries, in dictionary order: the `alerts`
      list of the acknowledgement. */
  function ActiveKeys(es: seq<Entry>): (ks: seq<string>)
  {
    if es == [] then []
    else Opt(Raised(es[0]), es[0].0) + ActiveKeys(es[1..])
  }

  /** A key is listed exactly when some entry under it is raised. */
  lemma {:induction false} ActiveKeysMembership(es: seq<Entry>)
    ensures forall k :: k in ActiveKeys(es) ==> exists i :: 0 <= i < |es| && es[i].0 == k && Raised(es[i])
    ensures forall i :: 0 <= i < |es| && Raised(es[i]) ==> es[i].0 in ActiveKeys(es)
  {
    if es != [] {
      ActiveKeysMembership(es[1..]);
      assert forall i :: 1 <= i < |es| ==> es[i] == es[1..][i - 1];
      forall k | k in ActiveKeys(es)
        ensures exists i :: 0 <= i < |es| && es[i].0 == k && Raised(es[i])
      {
        if k in ActiveKeys(es[1..]) {
          var j :| 0 <= j < |es[1..]| && es[1..][j].0 == k && Raised(es[1..][j]);
          assert es[j + 1] == es[1..][j];
        }
      }
    }
  }

  /** The priority band of a given number of active alerts. */
  function PriorityOf(active: nat): (p: Priority)
    ensures p == LOW <==> active == 0
    ensures p == MEDIUM <==> 1 <= active <= 2
    ensures p == HIGH <==> active >= 3
  {
    if active > 2 then HIGH else if active > 0 then MEDIUM else LOW
  }

  function Opt(raised: bool, k: string): seq<string> {
    if raised then [k] else []
  }

  lemma {:induction false} ActiveKeysAppend(a: seq<Entry>, b: seq<Entry>)
    ensures ActiveKeys(a + b) == ActiveKeys(a) + ActiveKeys(b)
  {
    if a == [] {
      assert a + b == b;
    } else {
      assert (a + b)[0] == a[0] && (a + b)[1..] == a[1..] + b;
      ActiveKeysAppend(a[1..], b);
    }
  }

  lemma ActiveKeysSingle(e: Entry)
    ensures ActiveKeys([e]) == Opt(Raised(e), e.0)
  {
    assert [e][1..] == [];
  }

  /** A dictionary of one number followed by four flags lists the raised
      flags' keys in order. */
  lemma ActiveKeysOfFive(e0: Entry, e1: Entry, e2: Entry, e3: Entry, e4: Entry)
    requires !Raised(e0)
    ensures ActiveKeys([e0] + ([e1] + ([e2] + ([e3] + [e4]))))
      == Opt(Raised(e1), e1.0) + Opt(Raised(e2), e2.0) + Opt(Raised(e3), e3.0) + Opt(Raised(e4), e4.0)
  {
    ActiveKeysSingle(e0);
    ActiveKeysSingle(e1);
    ActiveKeysSingle(e2);
    ActiveKeysSingle(e3);
    ActiveKeysSingle(e4);
    ActiveKeysAppend([e3], [e4]);
    ActiveKeysAppend([e2], [e3] + [e4]);
    ActiveKeysAppend([e1], [e2] + ([e3] + [e4]));
    ActiveKeysAppend([e0], [e1] + ([e2] + ([e3] + [e4])));
  }

  /** Walking the analyzer's dictionary keeps the raised flags in row-layout order. */
  lemma ActiveKeysOfEntries(d: Derived)
    ensures ActiveKeys(Entries(d)) ==
      Opt(d.mechanicalSticking, MechanicalKey) + Opt(d.differentialSticking, DifferentialKey)
      + Opt(d.holeCleaning, HoleCleaningKey) + Opt(d.mudLoss, MudLossKey)
  {
    ActiveKeysOfFive((RopKey, Number(d.predictedRop)), (MechanicalKey, Flag(d.mechanicalSticking)),
                     (DifferentialKey, Flag(d.differentialSticking)), (HoleCleaningKey, Flag(d.holeCleaning)),
                     (MudLossKey, Flag(d.mudLoss)));
  }

  /** Four optional keys, all different from each other and from `k0`. */
  lemma OptsFacts(k0: string, k1: string, b1: bool, k2: string, b2: bool,
                  k3: string, b3: bool, k4: string, b4: bool)
    requires Distinct([k0, k1, k2, k3, k4])
    ensures var ks := Opt(b1, k1) + Opt(b2, k2) + Opt(b3, k3) + Opt(b4, k4);
      && (forall k :: k in ks <==> (k == k1 && b1) || (k == k2 && b2) || (k == k3 && b3) || (k == k4 && b4))
      && k0 !in ks
      && Distinct(ks)
      && |ks| == Bit(b1) + Bit(b2) + Bit(b3) + Bit(b4)
  {
    var dk := [k0, k1, k2, k3, k4];
    assert k0 == dk[0] && k1 == dk[1] && k2 == dk[2] && k3 == dk[3] && k4 == dk[4];
  }

  lemma KeysDistinct()
    ensures Distinct([RopKey, MechanicalKey, DifferentialKey, HoleCleaningKey, MudLossKey])
  {
  }

  /** The `alerts` list of an ingest call names exactly the raised alert flags,
      each once, never the numeric predicted_rop, and it has as many entries
      as there are raised flags. */
  lemma ActiveAlertsOfDerived(d: Derived)
    ensures var ks := ActiveKeys(Entries(d));
      && (forall k :: k in ks <==> k in AlertKeys && FlagOf(d, k))
      && RopKey !in ks
      && Distinct(ks)
      && |ks| == AlertCount(d)
  {
    ActiveKeysOfEntries(d);
    KeysDistinct();
    OptsFacts(RopKey, MechanicalKey, d.mechanicalSticking, DifferentialKey, d.differentialSticking,
              HoleCleaningKey, d.holeCleaning, MudLossKey, d.mudLoss);
  }

  /** The priority of an ingest call depends only on how many flags are raised:
      LOW for none, MEDIUM for one or two, HIGH for three or four. */
  lemma PriorityOfDerived(d: Derived)
    ensures var p := PriorityOf(|ActiveKeys(Entries(d))|);
      && (p == LOW <==> AlertCount(d) == 0)
      && (p == MEDIUM <==> AlertCount(d) in {1, 2})
      && (p == HIGH <==> AlertCount(d) in {3, 4})
  {
    ActiveAlertsOfDerived(d);
  }

  function Rank(p: Priority): nat {
    match p
    case LOW => 0
    case MEDIUM => 1
    case HIGH => 2
  }

  /** Raising more alerts never lowers the priority band. */
  lemma PriorityMonotone(m: nat, n: nat)
    requires m <= n
    ensures Rank(PriorityOf(m)) <= Rank(PriorityOf(n))
  {
  }
}

/** Metric registration and the metric handles (metrics/counter.go,
    gauge.go, histogram.go, summary.go). For each kind the registry keeps
    two name maps, one for plain metrics and one for labelled ("vec")
    metrics; a name already in either is refused with a bug report and a
    dummy handle. The Prometheus registry and the label lookup of a vec are
    outside the model: whether they fail is an input. */
module Metrics {
  import opened Status
  import Bug

  datatype Kind = Counter | Gauge | Histogram | Summary

  /** The word the bug messages use for a kind. */
  function KindName(k: Kind): (r: string)
    ensures r != []
  {
    match k
    case Counter => "counter"
    case Gauge => "gauge"
    case Histogram => "histogram"
    case Summary => "summary"
  }

  /** The handle NewCounter, NewGauge, NewHistogram and NewSummary return:
      a plain metric, a labelled one, or the dummy that ignores every
      call. */
  datatype Handle = Scalar(kind: Kind, name: string)
                  | Vec(kind: Kind, name: string, labels: seq<string>)
                  | Dummy(kind: Kind)

  /** The update operations of the four interfaces. */
  datatype Op = Inc | Add(value: real) | Set(value: real) | Dec | Sub(value: real) | Observe(value: real)

  /** The operations each interface offers: Counter has Inc and Add; Gauge
      has Set, Inc, Dec, Add and Sub; Histogram and Summary have Observe. */
  predicate Supports(k: Kind, op: Op)
  {
    match k
    case Counter => op.Inc? || op.Add?
    case Gauge => !op.Observe?
    case Histogram => op.Observe?
    case Summary => op.Observe?
  }

  /** A bug report before formatting: a format and its arguments. */
  datatype Message = Message(format: string, args: seq<string>)

  /** The two name maps of one kind, as the sets of their keys. */
  datatype Names = Names(scalars: set<string>, vecs: set<string>)

  /** A name is never both a plain and a labelled metric of one kind. */
  predicate Disjoint(n: Names)
  {
    n.scalars !! n.vecs
  }

  /** The checks of newCounter and its siblings, in their order: the plain
      map, the vec map, then the registry. */
  function ScalarRefusal(k: Kind, n: Names, name: string, regErr: Option<string>): (r: Option<Message>)
    ensures r.None? <==> name !in n.scalars && name !in n.vecs && regErr.None?
    ensures r.Some? ==> |r.value.args| > 0 && r.value.args[0] == name
  {
    if name in n.scalars then Some(Message(KindName(k) + " %s already registered", [name]))
    else if name in n.vecs then Some(Message(KindName(k) + " %s already registered as " + KindName(k) + " vec", [name]))
    else if regErr.Some? then Some(Message(KindName(k) + " %s: %s", [name, regErr.value]))
    else None
  }

  /** The checks of newCounterVec and its siblings: the vec map first, then
      the plain map, then the registry. */
  function VecRefusal(k: Kind, n: Names, name: string, regErr: Option<string>): (r: Option<Message>)
    ensures r.None? <==> name !in n.scalars && name !in n.vecs && regErr.None?
    ensures r.Some? ==> |r.value.args| > 0 && r.value.args[0] == name
  {
    if name in n.vecs then Some(Message(KindName(k) + " vector %s already registered", [name]))
    else if name in n.scalars then Some(Message(KindName(k) + " vector %s already registered as " + KindName(k), [name]))
    else if regErr.Some? then Some(Message(KindName(k) + " vector %s: %s", [name, regErr.value]))
    else None
  }

  /** The outcome of one registration: the new name sets, the handle and
      the bug report, if any. */
  datatype Registration = Registration(names: Names, handle: Handle, refusal: Option<Message>)

  /** NewCounter and its siblings: no labels takes the plain path, labels
      the vec path. A refused name leaves both sets as they were and yields
      a dummy; an accepted one joins exactly the set of its path. */
  function Register(k: Kind, n: Names, name: string, labels: seq<string>, regErr: Option<string>): (r: Registration)
    ensures r.refusal.None? <==> name !in n.scalars && name !in n.vecs && regErr.None?
    ensures r.refusal.Some? ==> r.names == n && r.handle == Dummy(k)
    ensures r.refusal.None? ==> !r.handle.Dummy? && r.handle.kind == k && r.handle.name == name
    ensures r.refusal.None? && labels == [] ==> r.handle.Scalar? && r.names.scalars == n.scalars + {name} && r.names.vecs == n.vecs
    ensures r.refusal.None? && labels != [] ==> r.handle == Vec(k, name, labels) && r.names.vecs == n.vecs + {name} && r.names.scalars == n.scalars
  {
    var refusal := if labels == [] then ScalarRefusal(k, n, name, regErr) else VecRefusal(k, n, name, regErr);
    if refusal.Some? then Registration(n, Dummy(k), refusal)
    else if labels == [] then Registration(Names(n.scalars + {name}, n.vecs), Scalar(k, name), None)
    else Registration(Names(n.scalars, n.vecs + {name}), Vec(k, name, labels), None)
  }

  /** An update that reached a Prometheus metric: its name, the label
      values that selected the child of a vec, and the operation. */
  datatype Update = Update(name: string, labelValues: seq<string>, op: Op)

  datatype Outcome = Updated(update: Update) | Reported(message: Message) | Ignored

  /** One operation on a handle. A plain metric refuses label values; a vec
      reports when the label lookup fails (lookupErr); the dummy ignores
      everything. */
  function Use(h: Handle, op: Op, labelValues: seq<string>, lookupErr: Option<string>): (r: Outcome)
    requires Supports(h.kind, op)
    ensures r.Ignored? <==> h.Dummy?
    ensures h.Scalar? ==> (r.Reported? <==> labelValues != [])
    ensures h.Vec? ==> (r.Reported? <==> lookupErr.Some?)
    ensures r.Reported? ==> !h.Dummy? && |r.message.args| > 0 && r.message.args[0] == h.name
    ensures r.Updated? ==> r.update.name == h.name && r.update.op == op
    ensures r.Updated? && h.Vec? ==> r.update.labelValues == labelValues
  {
    match h
    case Dummy(_) => Ignored
    case Scalar(k, name) =>
      if |labelValues| > 0 then Reported(Message(KindName(k) + " %s has no labels", [name]))
      else Updated(Update(name, [], op))
    case Vec(k, name, _) =>
      if lookupErr.Some? then Reported(Message(KindName(k) + " %s: %s", [name, lookupErr.value]))
      else Updated(Update(name, labelValues, op))
  }

  /** The Prometheus side: the updates its metrics have received. */
  class Samples {
    var updates: seq<Update>

    constructor ()
      ensures updates == []
    {
      updates := [];
    }

    method Record(u: Update)
      modifies this
      ensures updates == old(updates) + [u]
    {
      updates := updates + [u];
    }
  }

  /** A call on a handle: either the update reaches Prometheus, or the bug
      handler gets the report, or nothing happens. */
  method Apply(h: Handle, op: Op, labelValues: seq<string>, lookupErr: Option<string>,
               samples: Samples, bugs: Bug.Registry, sprintf: (string, seq<string>) -> string)
    returns (report: Option<Bug.Effect>)
    requires Supports(h.kind, op)
    modifies samples
    ensures var o := Use(h, op, labelValues, lookupErr);
      && samples.updates == old(samples.updates) + (if o.Updated? then [o.update] else [])
      && report == (if o.Reported? then Some(Bug.Call(bugs.handler, sprintf(o.message.format, o.message.args))) else None)
  {
    var o := Use(h, op, labelValues, lookupErr);
    report := None;
    match o {
      case Updated(u) =>
        samples.Record(u);
      case Reported(m) =>
        var e := bugs.Bugf(sprintf, m.format, m.args);
        report := Some(e);
      case Ignored =>
    }
  }

  /** The metrics registry: one plain and one vec name map per kind. The
      maps' values are Prometheus objects; only their keys are kept. */
  class Registry {
    var counters: set<string>
    var counterVecs: set<string>
    var gauges: set<string>
    var gaugeVecs: set<string>
    var histograms: set<string>
    var histogramVecs: set<string>
    var summaries: set<string>
    var summaryVecs: set<string>

    function NamesOf(k: Kind): Names
      reads this
    {
      match k
      case Counter => Names(counters, counterVecs)
      case Gauge => Names(gauges, gaugeVecs)
      case Histogram => Names(histograms, histogramVecs)
      case Summary => Names(summaries, summaryVecs)
    }

    ghost predicate Valid()
      reads this
    {
      forall k :: Disjoint(NamesOf(k))
    }

    /** New: every map starts empty. */
    constructor ()
      ensures Valid()
      ensures forall k :: NamesOf(k) == Names({}, {})
    {
      counters, counterVecs := {}, {};
      gauges, gaugeVecs := {}, {};
      histograms, histogramVecs := {}, {};
      summaries, summaryVecs := {}, {};
    }

    /** The shared shape of NewCounter, NewGauge, NewHistogram and
        NewSummary: only the two maps of kind k can change. */
    method NewMetric(k: Kind, name: string, labels: seq<string>, regErr: Option<string>,
                     bugs: Bug.Registry, sprintf: (string, seq<string>) -> string)
      returns (h: Handle, report: Option<Bug.Effect>)
      requires Valid()
      modifies this
      ensures Valid()
      ensures var r := Register(k, old(NamesOf(k)), name, labels, regErr);
        && NamesOf(k) == r.names && h == r.handle
        && report == (if r.refusal.Some? then Some(Bug.Call(bugs.handler, sprintf(r.refusal.value.format, r.refusal.value.args))) else None)
      ensures forall j :: j != k ==> NamesOf(j) == old(NamesOf(j))
    {
      var r := Register(k, NamesOf(k), name, labels, regErr);
      RegisterKeepsDisjoint(k, NamesOf(k), name, labels, regErr);
      match k {
        case Counter => counters, counterVecs := r.names.scalars, r.names.vecs;
        case Gauge => gauges, gaugeVecs := r.names.scalars, r.names.vecs;
        case Histogram => histograms, histogramVecs := r.names.scalars, r.names.vecs;
        case Summary => summaries, summaryVecs := r.names.scalars, r.names.vecs;
      }
      assert forall j :: NamesOf(j) == if j == k then r.names else old(NamesOf(j));
      h := r.handle;
      report := None;
      if r.refusal.Some? {
        var e := bugs.Bugf(sprintf, r.refusal.value.format, r.refusal.value.args);
        report := Some(e);
      }
    }

    /** NewCounter; the help text goes to Prometheus and is not kept. */
    method NewCounter(name: string, help: string, labels: seq<string>, regErr: Option<string>,
                      bugs: Bug.Registry, sprintf: (string, seq<string>) -> string)
      returns (h: Handle, report: Option<Bug.Effect>)
      requires Valid()
      modifies this
      ensures Valid()
      ensures var r := Register(Counter, old(NamesOf(Counter)), name, labels, regErr);
        NamesOf(Counter) == r.names && h == r.handle && (report.Some? <==> r.refusal.Some?)
      ensures forall j :: j != Counter ==> NamesOf(j) == old(NamesOf(j))
    {
      h, report := NewMetric(Counter, name, labels, regErr, bugs, sprintf);
    }

    /** NewGauge. */
    method NewGauge(name: string, help: string, labels: seq<string>, regErr: Option<string>,
                    bugs: Bug.Registry, sprintf: (string, seq<string>) -> string)
      returns (h: Handle, report: Option<Bug.Effect>)
      requires Valid()
      modifies this
      ensures Valid()
      ensures var r := Register(Gauge, old(NamesOf(Gauge)), name, labels, regErr);
        NamesOf(Gauge) == r.names && h == r.handle && (report.Some? <==> r.refusal.Some?)
      ensures forall j :: j != Gauge ==> NamesOf(j) == old(NamesOf(j))
    {
      h, report := NewMetric(Gauge, name, labels, regErr, bugs, sprintf);
    }

    /** NewHistogram; the buckets go to Prometheus and are not kept. */
    method NewHistogram(name: string, help: string, buckets: seq<real>, labels: seq<string>, regErr: Option<string>,
                        bugs: Bug.Registry, sprintf: (string, seq<string>) -> string)
      returns (h: Handle, report: Option<Bug.Effect>)
      requires Valid()
      modifies this
      ensures Valid()
      ensures var r := Register(Histogram, old(NamesOf(Histogram)), name, labels, regErr);
        NamesOf(Histogram) == r.names && h == r.handle && (report.Some? <==> r.refusal.Some?)
      ensures forall j :: j != Histogram ==> NamesOf(j) == old(NamesOf(j))
    {
      h, report := NewMetric(Histogram, name, labels, regErr, bugs, sprintf);
    }

    /** NewSummary. */
    method NewSummary(name: string, help: string, labels: seq<string>, regErr: Option<string>,
                      bugs: Bug.Registry, sprintf: (string, seq<string>) -> string)
      returns (h: Handle, report: Option<Bug.Effect>)
      requires Valid()
      modifies this
      ensures Valid()
      ensures var r := Register(Summary, old(NamesOf(Summary)), name, labels, regErr);
        NamesOf(Summary) == r.names && h == r.handle && (report.Some? <==> r.refusal.Some?)
      ensures forall j :: j != Summary ==> NamesOf(j) == old(NamesOf(j))
    {
      h, report := NewMetric(Summary, name, labels, regErr, bugs, sprintf);
    }
  }

  // Properties of registration and of the handles.

  /** Registration keeps a kind's two maps disjoint. */
  lemma RegisterKeepsDisjoint(k: Kind, n: Names, name: string, labels: seq<string>, regErr: Option<string>)
    requires Disjoint(n)
    ensures Disjoint(Register(k, n, name, labels, regErr).names)
  {
  }

  /** An accepted name ends up in exactly one of the two maps. */
  lemma AcceptedInExactlyOneMap(k: Kind, n: Names, name: string, labels: seq<string>)
    requires name !in n.scalars && name !in n.vecs
    ensures var r := Register(k, n, name, labels, None);
      r.refusal.None? && (name in r.names.scalars <==> labels == []) && (name in r.names.vecs <==> labels != [])
  {
  }

  /** Registering a name a second time, with or without labels and whatever
      the registry says, is refused with a dummy, and the report says which
      map already holds it. */
  lemma SecondRegistrationRefused(k: Kind, n: Names, name: string, first: seq<string>, second: seq<string>,
                                  regErr: Option<string>)
    requires name !in n.scalars && name !in n.vecs
    ensures var r1 := Register(k, n, name, first, None);
      var r2 := Register(k, r1.names, name, second, regErr);
      && r2.handle == Dummy(k) && r2.names == r1.names
      && r2.refusal == Some(Message(
           if first == [] && second == [] then KindName(k) + " %s already registered"
           else if first == [] then KindName(k) + " vector %s already registered as " + KindName(k)
           else if second == [] then KindName(k) + " %s already registered as " + KindName(k) + " vec"
           else KindName(k) + " vector %s already registered", [name]))
  {
  }

  /** The dummy handle changes nothing and reports nothing. */
  lemma DummyIsNoOp(k: Kind, op: Op, labelValues: seq<string>, lookupErr: Option<string>)
    requires Supports(k, op)
    ensures Use(Dummy(k), op, labelValues, lookupErr) == Ignored
  {
  }

  /** Every handle a registration returns accepts exactly its kind's
      operations, and a refused registration's handle never updates. */
  lemma RefusedHandleNeverUpdates(k: Kind, n: Names, name: string, labels: seq<string>, regErr: Option<string>,
                                  op: Op, labelValues: seq<string>, lookupErr: Option<string>)
    requires Supports(k, op)
    requires name in n.scalars || name in n.vecs || regErr.Some?
    ensures var h := Register(k, n, name, labels, regErr).handle;
      h.kind == k && Use(h, op, labelValues, lookupErr) == Ignored
  {
  }

  /** The handles of the tests: registering "c" as a plain counter, then a
      labelled counter "c" is refused and its Inc does nothing, while Inc on
      the first handle with a label value is reported. */
  method CounterExample(bugs: Bug.Registry, sprintf: (string, seq<string>) -> string)
    returns (first: Handle, second: Handle, updates: seq<Update>, reported: bool)
    ensures first == Scalar(Counter, "c") && second == Dummy(Counter)
    ensures updates == [Update("c", [], Inc)] && reported
  {
    var m := new Registry();
    var r1, r2;
    first, r1 := m.NewCounter("c", "help", [], None, bugs, sprintf);
    second, r2 := m.NewCounter("c", "help", ["l"], None, bugs, sprintf);
    var samples := new Samples();
    var e1 := Apply(first, Inc, [], None, samples, bugs, sprintf);
    var e2 := Apply(second, Inc, ["x"], None, samples, bugs, sprintf);
    var e3 := Apply(first, Inc, ["x"], None, samples, bugs, sprintf);
    updates := samples.updates;
    reported := e3.Some?;
  }
}

/**
 * scheduler/tasks.py: the monitoring tick. The module keeps the last snapshot of every
 * instrument and two once-a-day flags; each tick gates on the hour, compares the fetched rates
 * with the snapshot, sends significant changes to the history sinks and to Telegram, and always
 * overwrites the snapshot.
 */
module SchedulerTasks {
  import opened Wrappers
  import opened Text
  import opened OrderedDict
  import opened Quotes
  import opened Formatters
  import opened DolarServices
  import opened Files
  import opened Channels
  import opened JsonHistory
  import opened CsvHistory

  const OPEN_TEXT: string := "🏦 ¡El mercado abrió! Comenzando monitoreo de cotizaciones..."
  const CLOSE_TEXT: string := "🏛️ ¡El mercado cerró! Monitoreo finalizado por hoy."
  const ALERT_HEADER: string := "🚨 **Actualización Dólar** 🚨"
  const SUMMARY_TEXT: string := "📊 Resumen diario de cotizaciones"
  /** The alert threshold of the scheduler package's configuration (config/constants.py). */
  const MIN_CHANGE_THRESHOLD: real := 0.00001
  const TASK_COLUMNS: seq<string> := ["timestamp", "dolar_name", "compra", "venta", "diff_compra", "diff_venta"]

  // ---------------------------------------------------------------- the hour gate

  datatype Flags = Flags(openSent: bool, closeSent: bool)

  /** The flags after the gate and the notices it sends, in order. */
  datatype GateStep = GateStep(flags: Flags, notices: seq<string>)

  predicate InWindow(hour: nat) {
    10 <= hour < 17
  }

  /**
   * Lines 37-49: before 10 both flags are cleared; at 10 (resp. 17) the open (resp. close)
   * notice goes out once, and its flag is set.
   */
  function Gate(f: Flags, hour: nat): (g: GateStep)
    ensures hour < 10 ==> g == GateStep(Flags(false, false), [])
    ensures OPEN_TEXT in g.notices <==> hour == 10 && !f.openSent
    ensures CLOSE_TEXT in g.notices <==> hour == 17 && !f.closeSent
    ensures forall n :: n in g.notices ==> n == OPEN_TEXT || n == CLOSE_TEXT
    ensures |g.notices| <= 1
    ensures hour >= 10 ==> g.flags == Flags(f.openSent || hour == 10, f.closeSent || hour == 17)
  {
    var r := if hour < 10 then Flags(false, false) else f;
    var openNow := hour == 10 && !r.openSent;
    var closeNow := hour == 17 && !r.closeSent;
    GateStep(Flags(r.openSent || openNow, r.closeSent || closeNow),
             (if openNow then [OPEN_TEXT] else []) + (if closeNow then [CLOSE_TEXT] else []))
  }

  /** The notices of a run of ticks at the given hours, in order. */
  function RunNotices(f: Flags, hours: seq<nat>): seq<string>
    decreases |hours|
  {
    if hours == [] then []
    else var g := Gate(f, hours[0]); g.notices + RunNotices(g.flags, hours[1..])
  }

  /** Between two early-morning resets the open notice goes out at most once, and never once it was sent. */
  lemma {:induction false} OpenAtMostOncePerDay(f: Flags, hours: seq<nat>)
    requires forall i :: 0 <= i < |hours| ==> hours[i] >= 10
    ensures multiset(RunNotices(f, hours))[OPEN_TEXT] <= if f.openSent then 0 else 1
    decreases |hours|
  {
    if hours != [] {
      var g := Gate(f, hours[0]);
      OpenAtMostOncePerDay(g.flags, hours[1..]);
      assert RunNotices(f, hours) == g.notices + RunNotices(g.flags, hours[1..]);
      if hours[0] == 10 && !f.openSent {
        assert g.flags.openSent;
      } else {
        assert OPEN_TEXT !in g.notices;
      }
    }
  }

  // ---------------------------------------------------------------- the comparison

  /** One parseable rate of a tick: its name, the new pair and the change against the snapshot. */
  datatype Observation = Observation(name: string, quote: Quote, delta: Delta)

  /**
   * Lines 75-83: the baseline is the snapshot's pair, or the new pair itself when the name is new
   * (so the change is 0); the percentage is 0 over a zero baseline.
   */
  function Observe(last: map<string, Quote>, name: string, q: Quote): Observation {
    Observation(name, q, ComputeDiff(q, if name in last then Stored(last[name]) else RawQuote(None, None)))
  }

  /** A name seen for the first time shows no change. */
  lemma FirstSightIsNoChange(last: map<string, Quote>, name: string, q: Quote)
    requires name !in last
    ensures Observe(last, name, q).delta == Delta(0.0, 0.0, 0.0, 0.0)
  {
  }

  /** The snapshot after the loop: every parseable rate overwrites its name. */
  function Snapshot(last: map<string, Quote>, rates: ODict<RawQuote>): map<string, Quote> {
    if rates == [] then last
    else
      var e := rates[|rates| - 1];
      var s := Snapshot(last, rates[..|rates| - 1]);
      match Parse(e.value)
      case Some(q) => s[e.key := q]
      case None => s
  }

  /** The observations of the loop, in order; each is made against the snapshot as it stands then. */
  function Observations(last: map<string, Quote>, rates: ODict<RawQuote>): seq<Observation> {
    if rates == [] then []
    else
      var e := rates[|rates| - 1];
      var init := rates[..|rates| - 1];
      Observations(last, init) +
        match Parse(e.value)
        case Some(q) => [Observe(Snapshot(last, init), e.key, q)]
        case None => []
  }

  predicate IsSignificant(o: Observation, threshold: real) {
    Significant(o.delta.diffCompra, o.delta.diffVenta, threshold)
  }

  /** The observations that reach the sinks and the alert, in order. */
  function Alerting(obs: seq<Observation>, threshold: real): seq<Observation> {
    if obs == [] then []
    else Alerting(obs[..|obs| - 1], threshold) + if IsSignificant(obs[|obs| - 1], threshold) then [obs[|obs| - 1]] else []
  }

  /** Exactly the significant observations reach the sinks. */
  lemma {:induction false} AlertingIsSignificant(obs: seq<Observation>, threshold: real)
    ensures forall o :: o in Alerting(obs, threshold) <==> o in obs && IsSignificant(o, threshold)
  {
    if obs != [] {
      var init := obs[..|obs| - 1];
      AlertingIsSignificant(init, threshold);
      assert obs == init + [obs[|obs| - 1]];
    }
  }

  /** The keys of the parseable rates, in order. */
  function ParseableKeys(rates: ODict<RawQuote>): seq<string> {
    if rates == [] then []
    else
      var e := rates[|rates| - 1];
      ParseableKeys(rates[..|rates| - 1]) + if Parse(e.value).Some? then [e.key] else []
  }

  function Names(obs: seq<Observation>): seq<string> {
    if obs == [] then [] else Names(obs[..|obs| - 1]) + [obs[|obs| - 1].name]
  }

  /** Every parseable rate is observed once, in order, and nothing else is. */
  lemma {:induction false} OneObservationPerParseable(last: map<string, Quote>, rates: ODict<RawQuote>)
    ensures Names(Observations(last, rates)) == ParseableKeys(rates)
  {
    if rates != [] {
      var init := rates[..|rates| - 1];
      OneObservationPerParseable(last, init);
      var xs := Observations(last, init);
      match Parse(rates[|rates| - 1].value)
      case Some(q) =>
        var o := Observe(Snapshot(last, init), rates[|rates| - 1].key, q);
        assert Observations(last, rates) == xs + [o];
        assert (xs + [o])[..|xs|] == xs;
        assert Names(xs + [o]) == Names(xs) + [o.name];
      case None =>
        assert Observations(last, rates) == xs + [] == xs;
    }
  }

  /** A name the rates do not mention keeps its snapshot entry. */
  lemma {:induction false} SnapshotElsewhere(last: map<string, Quote>, rates: ODict<RawQuote>, k: string)
    requires !HasKey(rates, k)
    ensures (k in Snapshot(last, rates) <==> k in last)
    ensures k in last ==> Snapshot(last, rates)[k] == last[k]
  {
    if rates != [] {
      SnapshotElsewhere(last, rates[..|rates| - 1], k);
    }
  }

  /**
   * The snapshot is always updated: every parseable rate's pair is stored under its name, and a
   * name with no parseable rate keeps its previous entry (or stays absent).
   */
  lemma {:induction false} SnapshotAlwaysUpdated(last: map<string, Quote>, rates: ODict<RawQuote>, i: nat)
    requires WellFormed(rates) && i < |rates|
    ensures Parse(rates[i].value).Some? ==>
      rates[i].key in Snapshot(last, rates) && Snapshot(last, rates)[rates[i].key] == Parse(rates[i].value).value
    ensures Parse(rates[i].value).None? ==>
      (rates[i].key in Snapshot(last, rates) <==> rates[i].key in last) &&
      (rates[i].key in last ==> Snapshot(last, rates)[rates[i].key] == last[rates[i].key])
  {
    var n := |rates| - 1;
    var init := rates[..n];
    assert WellFormed(init);
    if i < n {
      SnapshotAlwaysUpdated(last, init, i);
      assert init[i] == rates[i];
    } else {
      var k := rates[i].key;
      assert !HasKey(init, k) by {
        forall j | 0 <= j < |init| ensures init[j].key != k {
          assert init[j] == rates[j];
        }
      }
      SnapshotElsewhere(last, init, k);
    }
  }

  /** A prefix of the rates yields a prefix of the observations. */
  lemma {:induction false} ObservationsPrefix(last: map<string, Quote>, rates: ODict<RawQuote>, j: nat)
    requires j <= |rates|
    ensures Observations(last, rates[..j]) <= Observations(last, rates)
    decreases |rates| - j
  {
    if j < |rates| {
      TickStep(last, rates, j);
      ObservationsPrefix(last, rates, j + 1);
      assert rates[..|rates|] == rates;
    } else {
      assert rates[..j] == rates;
    }
  }

  /**
   * Within one tick every parseable rate is compared with the pair the previous tick stored
   * under its name (keys of a JSON object are distinct, so the loop never overwrites a name
   * before reading it).
   */
  lemma ComparedWithPreviousTick(last: map<string, Quote>, rates: ODict<RawQuote>, i: nat)
    requires WellFormed(rates) && i < |rates| && Parse(rates[i].value).Some?
    ensures Observe(last, rates[i].key, Parse(rates[i].value).value) in Observations(last, rates)
  {
    var k, q := rates[i].key, Parse(rates[i].value).value;
    var init := rates[..i];
    assert !HasKey(init, k) by {
      forall j | 0 <= j < |init| ensures init[j].key != k {
        assert init[j] == rates[j];
      }
    }
    SnapshotElsewhere(last, init, k);
    TickStep(last, rates, i);
    assert Observe(Snapshot(last, init), k, q) == Observe(last, k, q);
    ObservationsPrefix(last, rates, i + 1);
    assert Observe(last, k, q) in Observations(last, rates[..i + 1]);
  }

  /**
   * A worked tick: the blue rate moves from 350/360 to 352/361; the change of 2 and 1 is above
   * the threshold, so it is alerted, and the snapshot now holds the new pair.
   */
  lemma BlueMovesScenario()
    ensures var last := map["blue" := Quote(350.0, 360.0)];
      var rates := [Entry("blue", RawQuote(Some(352.0), Some(361.0)))];
      var obs := Observations(last, rates);
      |obs| == 1 && obs[0].delta.diffCompra == 2.0 && obs[0].delta.diffVenta == 1.0 &&
      Alerting(obs, MIN_CHANGE_THRESHOLD) == obs &&
      Snapshot(last, rates) == map["blue" := Quote(352.0, 361.0)]
  {
    var last := map["blue" := Quote(350.0, 360.0)];
    var rates := [Entry("blue", RawQuote(Some(352.0), Some(361.0)))];
    assert rates[..0] == [];
  }

  /** Every key of a successful fetch is parseable, so the tick observes every fetched instrument, in order. */
  lemma {:induction false} FetchedRatesAllObserved(last: map<string, Quote>, rates: ODict<RateData>)
    ensures Names(Observations(last, AsRaw(rates))) == Keys(rates)
  {
    OneObservationPerParseable(last, AsRaw(rates));
    AllParseable(AsRaw(rates));
  }

  lemma {:induction false} AllParseable(raw: ODict<RawQuote>)
    requires forall i :: 0 <= i < |raw| ==> Parse(raw[i].value).Some?
    ensures ParseableKeys(raw) == Keys(raw)
  {
    if raw != [] {
      var init := raw[..|raw| - 1];
      AllParseable(init);
      assert Keys(raw) == Keys(init) + [raw[|raw| - 1].key];
    }
  }

  // ---------------------------------------------------------------- what a tick writes

  function RecordOf(o: Observation, ts: string): HistoryRecord {
    HistoryRecord(ts, o.quote.compra, o.quote.venta, o.delta.diffCompra, o.delta.diffVenta,
                  Some(PctPair(o.delta.pctCompra, o.delta.pctVenta)))
  }

  function RowOf(o: Observation, ts: string): RemoteRow {
    RemoteRow(o.name, o.quote.compra, o.quote.venta, o.delta.diffCompra, o.delta.diffVenta,
              o.delta.pctCompra, o.delta.pctVenta, ts)
  }

  /** The CSV cells of every observation, in order. */
  function CsvCells(obs: seq<Observation>, ts: string): (rows: seq<seq<Cell>>)
    ensures |rows| == |obs|
  {
    if obs == [] then []
    else
      var o := obs[|obs| - 1];
      CsvCells(obs[..|obs| - 1], ts) + [CsvRow(o, ts)]
  }

  /** The CSV row of lines 98-105: timestamp, name, the pair and the two differences. */
  function CsvRow(o: Observation, ts: string): seq<Cell> {
    [Text(ts), Text(o.name), Num(o.quote.compra), Num(o.quote.venta), Num(o.delta.diffCompra), Num(o.delta.diffVenta)]
  }

  function BlockOf(o: Observation): AlertBlock {
    AlertBlock(TitleCase(o.name), o.quote.compra, o.quote.venta, Emoji(o.delta.diffCompra), Emoji(o.delta.diffVenta), o.delta)
  }

  /** The alert blocks of the significant observations, in order. */
  function Blocks(obs: seq<Observation>): (blocks: seq<AlertBlock>)
    ensures |blocks| == |obs|
  {
    if obs == [] then [] else Blocks(obs[..|obs| - 1]) + [BlockOf(obs[|obs| - 1])]
  }

  /** The state the per-rate sinks touch: the JSON history, the error log and the remote table. */
  datatype Sinks = Sinks(history: JsonFile<seq<HistoryRecord>>, log: seq<string>, remote: seq<RemoteRow>)

  /** The sinks after the remote insert and the JSON append of one significant observation. */
  function SinkStep(s: Sinks, o: Observation, ts: string, configured: bool, state: RemoteState, writable: bool): Sinks {
    Sinks(HistoryAppended(s.history, o.name, RecordOf(o, ts), writable),
          s.log + RemoteErrors(configured, state) + HistoryErrors(s.history, writable),
          s.remote + if configured && state.Accepting? then [RowOf(o, ts)] else [])
  }

  function SinkAll(s: Sinks, alerts: seq<Observation>, ts: string, configured: bool, state: RemoteState, writable: bool): Sinks {
    if alerts == [] then s
    else SinkStep(SinkAll(s, alerts[..|alerts| - 1], ts, configured, state, writable), alerts[|alerts| - 1],
                  ts, configured, state, writable)
  }

  /**
   * With the remote table accepting, it keeps its rows and receives one row per significant
   * observation after them, in order.
   */
  lemma {:induction false} RemoteGetsEveryAlert(s: Sinks, alerts: seq<Observation>, ts: string, writable: bool)
    ensures SinkAll(s, alerts, ts, true, Accepting, writable).remote == s.remote + RowsOf(alerts, ts)
  {
    if alerts != [] {
      var init := alerts[..|alerts| - 1];
      RemoteGetsEveryAlert(s, init, ts, writable);
      assert alerts == init + [alerts[|alerts| - 1]];
      assert RowsOf(alerts, ts) == RowsOf(init, ts) + [RowOf(alerts[|alerts| - 1], ts)];
    }
  }

  /** Nothing reaches the remote table when it is not configured. */
  lemma {:induction false} UnconfiguredRemoteStaysEmpty(s: Sinks, alerts: seq<Observation>, ts: string, state: RemoteState, writable: bool)
    ensures SinkAll(s, alerts, ts, false, state, writable).remote == s.remote
  {
    if alerts != [] {
      UnconfiguredRemoteStaysEmpty(s, alerts[..|alerts| - 1], ts, state, writable);
    }
  }

  function RowsOf(obs: seq<Observation>, ts: string): (rows: seq<RemoteRow>)
    ensures |rows| == |obs|
  {
    if obs == [] then [] else RowsOf(obs[..|obs| - 1], ts) + [RowOf(obs[|obs| - 1], ts)]
  }

  /** How one more parseable or unparseable rate extends the snapshot and the observations. */
  lemma TickStep(last: map<string, Quote>, rates: ODict<RawQuote>, i: nat)
    requires i < |rates|
    ensures var init, e := rates[..i], rates[i];
      Snapshot(last, rates[..i + 1]) ==
        (if Parse(e.value).Some? then Snapshot(last, init)[e.key := Parse(e.value).value] else Snapshot(last, init)) &&
      Observations(last, rates[..i + 1]) ==
        Observations(last, init) + (if Parse(e.value).Some? then [Observe(Snapshot(last, init), e.key, Parse(e.value).value)] else [])
  {
    assert rates[..i + 1][..i] == rates[..i];
  }

  /** How one more observation extends the CSV rows, the alert blocks and the sinks. */
  lemma GatherStep(obs: seq<Observation>, o: Observation, ts: string, threshold: real,
                   s: Sinks, configured: bool, state: RemoteState, writable: bool)
    ensures CsvCells(obs + [o], ts) == CsvCells(obs, ts) + [CsvRow(o, ts)]
    ensures Blocks(Alerting(obs + [o], threshold)) ==
      Blocks(Alerting(obs, threshold)) + (if IsSignificant(o, threshold) then [BlockOf(o)] else [])
    ensures SinkAll(s, Alerting(obs + [o], threshold), ts, configured, state, writable) ==
      var before := SinkAll(s, Alerting(obs, threshold), ts, configured, state, writable);
      if IsSignificant(o, threshold) then SinkStep(before, o, ts, configured, state, writable) else before
  {
    assert (obs + [o])[..|obs|] == obs;
    var a := Alerting(obs, threshold);
    if IsSignificant(o, threshold) {
      assert Alerting(obs + [o], threshold) == a + [o];
      assert (a + [o])[..|a|] == a;
    } else {
      assert Alerting(obs + [o], threshold) == a + [] == a;
    }
  }

  /** What the loop of lines 68-121 carries: the snapshot, the alert blocks, the CSV rows and the sinks. */
  datatype Gather = Gather(last: map<string, Quote>, messages: seq<AlertBlock>, csvRows: seq<seq<Cell>>, sinks: Sinks)

  /** One turn of the loop: an unparseable rate changes nothing, a parseable one is observed and stored. */
  function GatherNext(g: Gather, e: Entry<RawQuote>, ts: string, threshold: real,
                      configured: bool, state: RemoteState, writable: bool): Gather
  {
    match Parse(e.value)
    case None => g
    case Some(q) =>
      var o := Observe(g.last, e.key, q);
      if IsSignificant(o, threshold) then
        Gather(g.last[e.key := q], g.messages + [BlockOf(o)], g.csvRows + [CsvRow(o, ts)],
               SinkStep(g.sinks, o, ts, configured, state, writable))
      else Gather(g.last[e.key := q], g.messages, g.csvRows + [CsvRow(o, ts)], g.sinks)
  }

  /** The loop's state after all of `rates`, one `GatherNext` per rate, starting from `g0`. */
  function GatherAll(g0: Gather, rates: ODict<RawQuote>, ts: string, threshold: real,
                     configured: bool, state: RemoteState, writable: bool): Gather
  {
    if rates == [] then g0
    else GatherNext(GatherAll(g0, rates[..|rates| - 1], ts, threshold, configured, state, writable),
                    rates[|rates| - 1], ts, threshold, configured, state, writable)
  }

  /** What the loop should have gathered after `rates`, by the specification functions. */
  function GatherSpec(last0: map<string, Quote>, s0: Sinks, rates: ODict<RawQuote>, ts: string, threshold: real,
                      configured: bool, state: RemoteState, writable: bool): Gather
  {
    var obs := Observations(last0, rates);
    Gather(Snapshot(last0, rates), Blocks(Alerting(obs, threshold)), CsvCells(obs, ts),
           SinkAll(s0, Alerting(obs, threshold), ts, configured, state, writable))
  }

  /** One turn of the loop keeps what it gathered in step with the specification. */
  lemma GatherNextSpec(last0: map<string, Quote>, s0: Sinks, init: ODict<RawQuote>, e: Entry<RawQuote>, ts: string,
                       threshold: real, configured: bool, state: RemoteState, writable: bool)
    ensures GatherNext(GatherSpec(last0, s0, init, ts, threshold, configured, state, writable), e, ts, threshold, configured, state, writable) ==
      GatherSpec(last0, s0, init + [e], ts, threshold, configured, state, writable)
  {
    if Parse(e.value).Some? {
      ParsedSpec(last0, s0, init, e, ts, threshold, configured, state, writable);
    } else {
      UnparsedSpec(last0, s0, init, e, ts, threshold, configured, state, writable);
    }
  }

  lemma ParsedSpec(last0: map<string, Quote>, s0: Sinks, init: ODict<RawQuote>, e: Entry<RawQuote>, ts: string,
                   threshold: real, configured: bool, state: RemoteState, writable: bool)
    requires Parse(e.value).Some?
    ensures GatherNext(GatherSpec(last0, s0, init, ts, threshold, configured, state, writable), e, ts, threshold, configured, state, writable) ==
      GatherSpec(last0, s0, init + [e], ts, threshold, configured, state, writable)
  {
    var rs := init + [e];
    assert rs[..|rs| - 1] == init && rs[|rs| - 1] == e;
    var obs := Observations(last0, init);
    var o := Observe(Snapshot(last0, init), e.key, Parse(e.value).value);
    assert Observations(last0, rs) == obs + [o];
    GatherStep(obs, o, ts, threshold, s0, configured, state, writable);
  }

  lemma UnparsedSpec(last0: map<string, Quote>, s0: Sinks, init: ODict<RawQuote>, e: Entry<RawQuote>, ts: string,
                     threshold: real, configured: bool, state: RemoteState, writable: bool)
    requires Parse(e.value).None?
    ensures GatherNext(GatherSpec(last0, s0, init, ts, threshold, configured, state, writable), e, ts, threshold, configured, state, writable) ==
      GatherSpec(last0, s0, init + [e], ts, threshold, configured, state, writable)
  {
    var rs := init + [e];
    assert rs[..|rs| - 1] == init && rs[|rs| - 1] == e;
    assert Observations(last0, rs) == Observations(last0, init) + [] == Observations(last0, init);
  }

  /** Folding `GatherNext` over the rates gathers what the specification functions describe. */
  lemma {:induction false} GatherAllSpec(last0: map<string, Quote>, s0: Sinks, rates: ODict<RawQuote>, ts: string,
                                         threshold: real, configured: bool, state: RemoteState, writable: bool)
    ensures GatherAll(Gather(last0, [], [], s0), rates, ts, threshold, configured, state, writable) ==
      GatherSpec(last0, s0, rates, ts, threshold, configured, state, writable)
  {
    if rates != [] {
      var init, e := rates[..|rates| - 1], rates[|rates| - 1];
      GatherAllSpec(last0, s0, init, ts, threshold, configured, state, writable);
      GatherNextSpec(last0, s0, init, e, ts, threshold, configured, state, writable);
      assert rates == init + [e];
    }
  }

  // ---------------------------------------------------------------- the tick

  /** Lines 110-118: a significant change goes to the remote table, then to the JSON history. */
  method SinkObservation(o: Observation, ts: string, disk: Disk, net: Network)
    modifies disk`history, disk`errorLog, net`remoteRows
    ensures Sinks(disk.history, disk.errorLog, net.remoteRows) ==
      SinkStep(Sinks(old(disk.history), old(disk.errorLog), old(net.remoteRows)), o, ts,
               net.remoteConfigured, net.remoteState, disk.writable)
  {
    InsertCotizacionSupabase(net, disk, RowOf(o, ts));
    AppendToJsonHistory(disk, o.name, RecordOf(o, ts));
  }

  /** Everything a tick can change besides the flags: the snapshot and what the files and services hold. */
  datatype TickView = TickView(last: map<string, Quote>, history: JsonFile<seq<HistoryRecord>>, csv: CsvFile,
                               stored: JsonFile<RawQuote>, log: seq<string>, remote: seq<RemoteRow>, sent: seq<Outgoing>)

  /** The view after `safe_send_message` of each of `texts` to the configured chat. */
  function AfterNotices(v: TickView, texts: seq<string>, up: bool): TickView {
    v.(sent := v.sent + (if up then Notices(texts) else []),
       log := v.log + (if texts == [] then [] else SendErrors(up)))
  }

  /**
   * The view after lines 64-131: the loop, one CSV batch of all rows, the snapshot saved, then
   * the header alert only if some change was significant.
   */
  function AfterMonitor(v: TickView, rates: ODict<RawQuote>, ts: string, threshold: real,
                        configured: bool, state: RemoteState, writable: bool, up: bool): TickView
  {
    var g := GatherSpec(v.last, Sinks(v.history, v.log, v.remote), rates, ts, threshold, configured, state, writable);
    TickView(g.last, g.sinks.history, CsvAfter(v.csv, TASK_COLUMNS, g.csvRows, writable),
             if writable then Holds(StoredAll(g.last)) else v.stored,
             g.sinks.log + CsvErrors(g.csvRows, writable) + WriteErrors(writable, LAST_RATES_PATH) +
               (if g.messages == [] then [] else SendErrors(up)),
             g.sinks.remote,
             v.sent + if up && g.messages != [] then [Outgoing(ConfiguredChat, Alert(Some(ALERT_HEADER), g.messages))] else [])
  }

  /**
   * The view after `check_and_save_dolar()` at `hour` with flags `f`: the gate's notices, then,
   * inside the window only, the monitoring with the 0.00001 threshold over the fetched rates.
   */
  function AfterCheck(v: TickView, f: Flags, hour: nat, ts: string, fetched: FetchResult, threshold: real,
                      configured: bool, state: RemoteState, writable: bool, up: bool): TickView
  {
    var v1 := AfterNotices(v, Gate(f, hour).notices, up);
    if InWindow(hour) then AfterMonitor(v1, AsRaw(fetched.Rates()), ts, threshold, configured, state, writable, up)
    else v1
  }

  /** With Telegram up, a monitoring pass sends one alert exactly when some observation reaches the threshold. */
  lemma AlertIffSignificant(v: TickView, rates: ODict<RawQuote>, ts: string, threshold: real,
                            configured: bool, state: RemoteState, writable: bool)
    ensures var w := AfterMonitor(v, rates, ts, threshold, configured, state, writable, true);
      v.sent <= w.sent && |w.sent| <= |v.sent| + 1 &&
      (|w.sent| == |v.sent| + 1 <==> Alerting(Observations(v.last, rates), threshold) != [])
  {
    var obs := Observations(v.last, rates);
    assert |Blocks(Alerting(obs, threshold))| == |Alerting(obs, threshold)|;
  }

  /** Outside 10 <= hour < 17 a tick only sends the gate's notices: snapshot, files and table stay. */
  lemma OutsideWindowOnlyNotices(v: TickView, f: Flags, hour: nat, ts: string, fetched: FetchResult, threshold: real,
                                 configured: bool, state: RemoteState, writable: bool, up: bool)
    requires !InWindow(hour)
    ensures var w := AfterCheck(v, f, hour, ts, fetched, threshold, configured, state, writable, up);
      w.last == v.last && w.history == v.history && w.csv == v.csv && w.stored == v.stored && w.remote == v.remote &&
      |w.sent| <= |v.sent| + 1 && (hour < 10 ==> w == v)
  {
  }

  class TaskState {
    /** `last_rates`: the pair each instrument had at its last parseable observation. */
    var lastRates: map<string, Quote>
    var marketOpenSent: bool
    var marketCloseSent: bool

    constructor()
      ensures lastRates == map[] && !marketOpenSent && !marketCloseSent
    {
      lastRates := map[];
      marketOpenSent := false;
      marketCloseSent := false;
    }

    /** The state a tick changes besides the flags. */
    function View(disk: Disk, net: Network): TickView
      reads this, disk, net
    {
      TickView(lastRates, disk.history, disk.csv, disk.lastRates, disk.errorLog, net.remoteRows, net.sent)
    }

    /** Lines 37-49: reset before 10, then at most one notice through `safe_send_message`. */
    method GateTick(hour: nat, disk: Disk, net: Network)
      modifies this`marketOpenSent, this`marketCloseSent, net`sent, disk`errorLog
      ensures var g := Gate(Flags(old(marketOpenSent), old(marketCloseSent)), hour);
        Flags(marketOpenSent, marketCloseSent) == g.flags &&
        net.sent == old(net.sent) + (if net.telegramUp then Notices(g.notices) else []) &&
        disk.errorLog == old(disk.errorLog) + (if g.notices == [] then [] else SendErrors(net.telegramUp))
    {
      if hour < 10 {
        marketOpenSent := false;
        marketCloseSent := false;
      }
      if hour == 10 && !marketOpenSent {
        SafeSendMessage(net, disk, ConfiguredChat, Plain(OPEN_TEXT));
        marketOpenSent := true;
      }
      if hour == 17 && !marketCloseSent {
        SafeSendMessage(net, disk, ConfiguredChat, Plain(CLOSE_TEXT));
        marketCloseSent := true;
      }
    }

    /**
     * The loop of lines 68-121: every parseable rate is observed against the snapshot and written
     * to the snapshot; the significant ones go to the remote table and the JSON history.
     * Returns the alert blocks and the CSV rows it gathered.
     */
    method RecordRates(ts: string, rates: ODict<RawQuote>, threshold: real, disk: Disk, net: Network)
      returns (messages: seq<AlertBlock>, csvRows: seq<seq<Cell>>)
      modifies this`lastRates, disk`history, disk`errorLog, net`remoteRows
      ensures lastRates == Snapshot(old(lastRates), rates)
      ensures messages == Blocks(Alerting(Observations(old(lastRates), rates), threshold))
      ensures csvRows == CsvCells(Observations(old(lastRates), rates), ts)
      ensures Sinks(disk.history, disk.errorLog, net.remoteRows) ==
        SinkAll(Sinks(old(disk.history), old(disk.errorLog), old(net.remoteRows)),
                Alerting(Observations(old(lastRates), rates), threshold), ts,
                net.remoteConfigured, net.remoteState, disk.writable)
    {
      ghost var last0 := lastRates;
      ghost var s0 := Sinks(disk.history, disk.errorLog, net.remoteRows);
      messages, csvRows := GatherRates(ts, rates, threshold, disk, net);
      GatherAllSpec(last0, s0, rates, ts, threshold, net.remoteConfigured, net.remoteState, disk.writable);
    }

    /** The loop itself: one `GatherNext` per rate. */
    method GatherRates(ts: string, rates: ODict<RawQuote>, threshold: real, disk: Disk, net: Network)
      returns (messages: seq<AlertBlock>, csvRows: seq<seq<Cell>>)
      modifies this`lastRates, disk`history, disk`errorLog, net`remoteRows
      ensures Gather(lastRates, messages, csvRows, Sinks(disk.history, disk.errorLog, net.remoteRows)) ==
        GatherAll(Gather(old(lastRates), [], [], Sinks(old(disk.history), old(disk.errorLog), old(net.remoteRows))), rates,
                  ts, threshold, net.remoteConfigured, net.remoteState, disk.writable)
    {
      ghost var g0 := Gather(lastRates, [], [], Sinks(disk.history, disk.errorLog, net.remoteRows));
      messages, csvRows := [], [];
      var i := 0;
      while i < |rates|
        invariant 0 <= i <= |rates|
        invariant Gather(lastRates, messages, csvRows, Sinks(disk.history, disk.errorLog, net.remoteRows)) ==
          GatherAll(g0, rates[..i], ts, threshold, net.remoteConfigured, net.remoteState, disk.writable)
      {
        assert rates[..i + 1][..i] == rates[..i];
        messages, csvRows := RecordOne(rates[i], ts, threshold, messages, csvRows, disk, net);
        i := i + 1;
      }
      assert rates[..|rates|] == rates;
    }

    /** One turn of the loop of lines 68-121, on the rate `e`. */
    method RecordOne(e: Entry<RawQuote>, ts: string, threshold: real,
                     messages: seq<AlertBlock>, csvRows: seq<seq<Cell>>, disk: Disk, net: Network)
      returns (messages': seq<AlertBlock>, csvRows': seq<seq<Cell>>)
      modifies this`lastRates, disk`history, disk`errorLog, net`remoteRows
      ensures Gather(lastRates, messages', csvRows', Sinks(disk.history, disk.errorLog, net.remoteRows)) ==
        GatherNext(Gather(old(lastRates), messages, csvRows, Sinks(old(disk.history), old(disk.errorLog), old(net.remoteRows))),
                   e, ts, threshold, net.remoteConfigured, net.remoteState, disk.writable)
    {
      messages', csvRows' := messages, csvRows;
      var name, parsed := e.key, Parse(e.value);
      if parsed.Some? {
        var o := Observe(lastRates, name, parsed.value);
        csvRows' := csvRows + [CsvRow(o, ts)];
        if IsSignificant(o, threshold) {
          messages' := messages + [BlockOf(o)];
          SinkObservation(o, ts, disk, net);
        }
        lastRates := lastRates[name := parsed.value];
      }
    }

    /**
     * Lines 52-131 inside the market window: the loop, the CSV batch, the snapshot save and the
     * alert, which goes out only when some change was significant.
     */
    method MonitorTick(timestamp: string, rates: ODict<RawQuote>, threshold: real, disk: Disk, net: Network)
      modifies this`lastRates, disk`history, disk`csv, disk`lastRates, disk`errorLog, net`remoteRows, net`sent
      ensures View(disk, net) == AfterMonitor(old(View(disk, net)), rates, timestamp, threshold,
                                              net.remoteConfigured, net.remoteState, disk.writable, net.telegramUp)
    {
      ghost var last0 := lastRates;
      ghost var s0 := Sinks(disk.history, disk.errorLog, net.remoteRows);
      var messages, csvRows := GatherRates(timestamp, rates, threshold, disk, net);
      GatherAllSpec(last0, s0, rates, timestamp, threshold, net.remoteConfigured, net.remoteState, disk.writable);
      AppendToCsv(disk, TASK_COLUMNS, csvRows);
      var ok := disk.WriteLastRates(StoredAll(lastRates));
      disk.LogErrors(WriteErrors(ok, LAST_RATES_PATH));
      if messages != [] {
        SafeSendMessage(net, disk, ConfiguredChat, Alert(Some(ALERT_HEADER), messages));
      }
    }

    /**
     * `check_and_save_dolar()` at `hour`, with `timestamp` the tick's instant and `fetched` what
     * `fetch_dolar_rates()` returned (its `rates` are empty after a fetch error). The gate always
     * runs; inside 10 <= hour < 17 the tick is `MonitorTick` with the 0.00001 threshold.
     */
    method CheckAndSaveDolar(hour: nat, timestamp: string, fetched: FetchResult, disk: Disk, net: Network)
      modifies this, disk`history, disk`csv, disk`lastRates, disk`errorLog, net`remoteRows, net`sent
      ensures Flags(marketOpenSent, marketCloseSent) == Gate(Flags(old(marketOpenSent), old(marketCloseSent)), hour).flags
      ensures View(disk, net) == AfterCheck(old(View(disk, net)), Flags(old(marketOpenSent), old(marketCloseSent)), hour,
                                            timestamp, fetched, MIN_CHANGE_THRESHOLD,
                                            net.remoteConfigured, net.remoteState, disk.writable, net.telegramUp)
    {
      CheckAt(hour, timestamp, fetched, MIN_CHANGE_THRESHOLD, disk, net);
    }

    /** The body of `check_and_save_dolar()`, for any threshold. */
    method CheckAt(hour: nat, timestamp: string, fetched: FetchResult, threshold: real, disk: Disk, net: Network)
      modifies this, disk`history, disk`csv, disk`lastRates, disk`errorLog, net`remoteRows, net`sent
      ensures Flags(marketOpenSent, marketCloseSent) == Gate(Flags(old(marketOpenSent), old(marketCloseSent)), hour).flags
      ensures View(disk, net) == AfterCheck(old(View(disk, net)), Flags(old(marketOpenSent), old(marketCloseSent)), hour,
                                            timestamp, fetched, threshold,
                                            net.remoteConfigured, net.remoteState, disk.writable, net.telegramUp)
    {
      ghost var v0 := View(disk, net);
      ghost var g := Gate(Flags(marketOpenSent, marketCloseSent), hour);
      GateTick(hour, disk, net);
      assert View(disk, net) == AfterNotices(v0, g.notices, net.telegramUp);
      MonitorInWindow(hour, timestamp, fetched, threshold, disk, net);
    }

    /** Lines 52-131: outside 10 <= hour < 17 the tick returns; inside it monitors the fetched rates. */
    method MonitorInWindow(hour: nat, timestamp: string, fetched: FetchResult, threshold: real, disk: Disk, net: Network)
      modifies this`lastRates, disk`history, disk`csv, disk`lastRates, disk`errorLog, net`remoteRows, net`sent
      ensures View(disk, net) ==
        if InWindow(hour) then AfterMonitor(old(View(disk, net)), AsRaw(fetched.Rates()), timestamp, threshold,
                                            net.remoteConfigured, net.remoteState, disk.writable, net.telegramUp)
        else old(View(disk, net))
    {
      if InWindow(hour) {
        MonitorTick(timestamp, AsRaw(fetched.Rates()), threshold, disk, net);
      }
    }

    /** `send_daily_summary()`: the summary notice, then a tick. */
    method SendDailySummary(hour: nat, timestamp: string, fetched: FetchResult, disk: Disk, net: Network)
      modifies this, disk`history, disk`csv, disk`lastRates, disk`errorLog, net`remoteRows, net`sent
      ensures Flags(marketOpenSent, marketCloseSent) == Gate(Flags(old(marketOpenSent), old(marketCloseSent)), hour).flags
      ensures View(disk, net) == AfterCheck(AfterNotices(old(View(disk, net)), [SUMMARY_TEXT], net.telegramUp),
                                            Flags(old(marketOpenSent), old(marketCloseSent)), hour,
                                            timestamp, fetched, MIN_CHANGE_THRESHOLD, net.remoteConfigured, net.remoteState, disk.writable, net.telegramUp)
    {
      ghost var v0 := View(disk, net);
      SafeSendMessage(net, disk, ConfiguredChat, Plain(SUMMARY_TEXT));
      assert View(disk, net) == AfterNotices(v0, [SUMMARY_TEXT], net.telegramUp);
      CheckAndSaveDolar(hour, timestamp, fetched, disk, net);
    }

    /** `reset_flags()`. */
    method ResetFlags()
      modifies this`marketOpenSent, this`marketCloseSent
      ensures !marketOpenSent && !marketCloseSent
    {
      marketOpenSent := false;
      marketCloseSent := false;
    }
  }

  /** The notices as Telegram messages to the configured chat. */
  function Notices(texts: seq<string>): (msgs: seq<Outgoing>)
    ensures |msgs| == |texts|
  {
    if texts == [] then [] else [Outgoing(ConfiguredChat, Plain(texts[0]))] + Notices(texts[1..])
  }

  /** `last_rates` as saved: each pair as `{"compra": ..., "venta": ...}`. */
  function StoredAll(last: map<string, Quote>): (m: map<string, RawQuote>)
    ensures m.Keys == last.Keys
    ensures forall k :: k in last ==> m[k] == Stored(last[k])
  {
    map k | k in last :: Stored(last[k])
  }
}

/**
 * app.py and flask/flask.py: the web table. `prepare_data` compares each rate with a baseline
 * dict (inserting the names the baseline lacks), and `real_rates` starts the baseline from the
 * current data when the stored one is empty. Both files carry the same `prepare_data`.
 */
module WebTable {
  import opened Wrappers
  import opened OrderedDict
  import opened Quotes
  import opened Formatters
  import opened DolarServices

  /** A rate as the table receives it: a dict with optional fields, or a bare value. */
  datatype RateValue = Fields(compra: Option<real>, venta: Option<real>) | Scalar(x: Option<real>)

  /**
   * Lines 47-48 of app.py: a dict gives its two fields (a missing one makes `float(dict)` raise),
   * anything else is used as both buy and sell.
   */
  function ValueOf(v: RateValue): (q: Option<Quote>)
    ensures v.Scalar? ==> (q.Some? <==> v.x.Some?) && (q.Some? ==> q.value == Quote(v.x.value, v.x.value))
    ensures v.Fields? ==> (q.Some? <==> v.compra.Some? && v.venta.Some?)
    ensures v.Fields? && q.Some? ==> q.value == Quote(v.compra.value, v.venta.value)
  {
    match v
    case Fields(c, s) => if c.Some? && s.Some? then Some(Quote(c.value, s.value)) else None
    case Scalar(x) => if x.Some? then Some(Quote(x.value, x.value)) else None
  }

  /** One row of the table; the percentages are exact (their two-decimal rendering is not modelled). */
  datatype Prepared = Prepared(compra: real, venta: real, emojiCompra: string, emojiVenta: string,
                               pctCompra: real, pctVenta: real)

  /** The row of the `except` branch: everything 0. */
  const ZERO_ROW: Prepared := Prepared(0.0, 0.0, YELLOW, YELLOW, 0.0, 0.0)

  /**
   * The row against a baseline entry: a missing field (KeyError) or a zero one
   * (ZeroDivisionError) sends the row to the `except` branch.
   */
  function RowAgainst(q: Quote, base: RawQuote): (p: Prepared)
    ensures base.compra.None? || base.venta.None? || base.compra == Some(0.0) || base.venta == Some(0.0) ==>
      p == ZERO_ROW
    ensures base.compra.Some? && base.venta.Some? && base.compra.value != 0.0 && base.venta.value != 0.0 ==>
      p.compra == q.compra && p.venta == q.venta &&
      p.emojiCompra == Emoji(q.compra - base.compra.value) && p.emojiVenta == Emoji(q.venta - base.venta.value) &&
      p.pctCompra * base.compra.value == (q.compra - base.compra.value) * 100.0 &&
      p.pctVenta * base.venta.value == (q.venta - base.venta.value) * 100.0
  {
    if base.compra.None? || base.venta.None? || base.compra.value == 0.0 || base.venta.value == 0.0 then ZERO_ROW
    else
      var dc := q.compra - base.compra.value;
      var dv := q.venta - base.venta.value;
      Prepared(q.compra, q.venta, Emoji(dc), Emoji(dv), dc / base.compra.value * 100.0, dv / base.venta.value * 100.0)
  }

  /**
   * Lines 46-62 of app.py for one name: with no baseline dict the diffs are 0; otherwise the
   * name's entry (or the current pair, which the call inserts) is the baseline.
   */
  function PrepareOne(name: string, v: RateValue, initial: Option<map<string, RawQuote>>): Prepared {
    match ValueOf(v)
    case None => ZERO_ROW
    case Some(q) =>
      match initial
      case None => Prepared(q.compra, q.venta, YELLOW, YELLOW, 0.0, 0.0)
      case Some(m) => RowAgainst(q, if name in m then m[name] else Stored(q))
  }

  /** The baseline dict after the loop: each parseable name it lacked is added with its current pair. */
  function Inserted(m: map<string, RawQuote>, data: ODict<RateValue>): map<string, RawQuote> {
    if data == [] then m
    else
      var e := data[|data| - 1];
      var acc := Inserted(m, data[..|data| - 1]);
      if ValueOf(e.value).Some? && e.key !in acc then acc[e.key := Stored(ValueOf(e.value).value)] else acc
  }

  /** Insertion only adds names: every entry the baseline had keeps its value. */
  lemma {:induction false} InsertedKeeps(m: map<string, RawQuote>, data: ODict<RateValue>, k: string)
    requires k in m
    ensures k in Inserted(m, data) && Inserted(m, data)[k] == m[k]
  {
    if data != [] {
      InsertedKeeps(m, data[..|data| - 1], k);
    }
  }

  /** A name the data does not mention is neither added nor changed. */
  lemma {:induction false} InsertedElsewhere(m: map<string, RawQuote>, data: ODict<RateValue>, k: string)
    requires !HasKey(data, k)
    ensures (k in Inserted(m, data) <==> k in m)
    ensures k in m ==> Inserted(m, data)[k] == m[k]
  {
    if data != [] {
      InsertedElsewhere(m, data[..|data| - 1], k);
    }
  }

  /** After the loop the baseline holds every parseable name, a new one with its current pair. */
  lemma InsertedCovers(m: map<string, RawQuote>, data: ODict<RateValue>, i: nat)
    requires WellFormed(data) && i < |data| && ValueOf(data[i].value).Some?
    ensures data[i].key in Inserted(m, data)
    ensures data[i].key !in m ==> Inserted(m, data)[data[i].key] == Stored(ValueOf(data[i].value).value)
  {
    var k := data[i].key;
    if k in m {
      InsertedKeeps(m, data, k);
    } else {
      InsertedStep(m, data, i);
      var rest := data[i + 1..];
      assert data == data[..i + 1] + rest;
      InsertedSuffix(m, data[..i + 1], rest, k);
    }
  }

  lemma InsertedStep(m: map<string, RawQuote>, data: ODict<RateValue>, i: nat)
    requires WellFormed(data) && i < |data| && ValueOf(data[i].value).Some? && data[i].key !in m
    ensures data[i].key in Inserted(m, data[..i + 1])
    ensures Inserted(m, data[..i + 1])[data[i].key] == Stored(ValueOf(data[i].value).value)
  {
    var k := data[i].key;
    assert data[..i + 1][..i] == data[..i];
    assert !HasKey(data[..i], k) by {
      forall j | 0 <= j < i ensures data[..i][j].key != k {
        assert data[..i][j] == data[j];
      }
    }
    InsertedElsewhere(m, data[..i], k);
  }

  /** Entries the baseline already has after a prefix stay as they are through the rest. */
  lemma {:induction false} InsertedSuffix(m: map<string, RawQuote>, front: ODict<RateValue>, rest: ODict<RateValue>, k: string)
    requires k in Inserted(m, front)
    ensures k in Inserted(m, front + rest) && Inserted(m, front + rest)[k] == Inserted(m, front)[k]
    decreases |rest|
  {
    if rest != [] {
      var init := rest[..|rest| - 1];
      InsertedSuffix(m, front, init, k);
      assert (front + rest)[..|front + rest| - 1] == front + init;
    } else {
      assert front + rest == front;
    }
  }

  /** The caller's baseline dict, which `prepare_data` extends in place. */
  class Baseline {
    var entries: map<string, RawQuote>

    constructor(entries: map<string, RawQuote>)
      ensures this.entries == entries
    {
      this.entries := entries;
    }
  }

  /**
   * `prepare_data(data_dict, initial_dict)` (`initial` null for `None`): one row per name, in the
   * data's order, each compared with the baseline as the caller passed it; the baseline gains the
   * parseable names it lacked.
   */
  method PrepareData(data: ODict<RateValue>, initial: Baseline?) returns (prepared: ODict<Prepared>)
    requires WellFormed(data)
    modifies initial
    ensures Keys(prepared) == Keys(data)
    ensures forall i :: 0 <= i < |data| ==>
      prepared[i].value == PrepareOne(data[i].key, data[i].value, if initial == null then None else Some(old(initial.entries)))
    ensures initial != null ==> initial.entries == Inserted(old(initial.entries), data)
  {
    ghost var m0 := if initial == null then map[] else initial.entries;
    ghost var init0: Option<map<string, RawQuote>> := if initial == null then None else Some(m0);
    prepared := [];
    var i := 0;
    while i < |data|
      invariant 0 <= i <= |data|
      invariant |prepared| == i
      invariant forall j :: 0 <= j < i ==> prepared[j] == Entry(data[j].key, PrepareOne(data[j].key, data[j].value, init0))
      invariant initial != null ==> initial.entries == Inserted(m0, data[..i])
    {
      var name, rates := data[i].key, data[i].value;
      assert data[..i + 1][..i] == data[..i];
      var row: Prepared;
      var parsed := ValueOf(rates);
      if parsed.None? {
        row := ZERO_ROW;
      } else if initial == null {
        row := Prepared(parsed.value.compra, parsed.value.venta, YELLOW, YELLOW, 0.0, 0.0);
      } else {
        assert !HasKey(data[..i], name) by {
          forall j | 0 <= j < i ensures data[..i][j].key != name {
            assert data[..i][j] == data[j];
          }
        }
        InsertedElsewhere(m0, data[..i], name);
        if name !in initial.entries {
          initial.entries := initial.entries[name := Stored(parsed.value)];
        }
        row := RowAgainst(parsed.value, initial.entries[name]);
      }
      prepared := prepared + [Entry(name, row)];
      i := i + 1;
    }
    assert data[..|data|] == data;
  }

  /** A name the baseline lacks is compared with itself: no change, unless a price is 0 (then all 0). */
  lemma MissingNameShowsNoChange(name: string, v: RateValue, m: map<string, RawQuote>)
    requires name !in m && ValueOf(v).Some?
    ensures var q := ValueOf(v).value;
      PrepareOne(name, v, Some(m)) ==
        if q.compra == 0.0 || q.venta == 0.0 then ZERO_ROW else Prepared(q.compra, q.venta, YELLOW, YELLOW, 0.0, 0.0)
  {
  }

  /** Every row's markers and percentages against a baseline that is the data itself are flat. */
  lemma SelfBaselineIsFlat(name: string, q: Quote, m: map<string, RawQuote>)
    requires name in m ==> m[name] == Stored(q)
    ensures var p := PrepareOne(name, Fields(Some(q.compra), Some(q.venta)), Some(m));
      p.emojiCompra == YELLOW && p.emojiVenta == YELLOW && p.pctCompra == 0.0 && p.pctVenta == 0.0
  {
  }

  // ---------------------------------------------------------------- real_rates

  /** A dict's entries as a map (the keys of a dict are distinct). */
  function ToMap<V>(d: ODict<V>): (m: map<string, V>)
    ensures forall k :: k in m <==> HasKey(d, k)
  {
    if d == [] then map[] else ToMap(d[..|d| - 1])[d[|d| - 1].key := d[|d| - 1].value]
  }

  /** The fetched rates as `prepare_data` reads them: dicts with both fields. */
  function AsValues(rates: ODict<RateData>): (vs: ODict<RateValue>)
    ensures Keys(vs) == Keys(rates)
    ensures forall i :: 0 <= i < |rates| ==> vs[i].value == Fields(Some(rates[i].value.compra), Some(rates[i].value.venta))
  {
    seq(|rates|, i requires 0 <= i < |rates| =>
      Entry(rates[i].key, Fields(Some(rates[i].value.compra), Some(rates[i].value.venta))))
  }

  /**
   * The stores `real_rates` reaches through `load_initial_rates`, `save_initial_rates` and
   * `save_last_rates`.
   */
  class WebStore {
    var initial: map<string, RawQuote>
    var lastSaved: ODict<RateData>

    constructor()
      ensures initial == map[] && lastSaved == []
    {
      initial := map[];
      lastSaved := [];
    }

    /**
     * `real_rates()` (app.py lines 110-123, flask/flask.py lines 98-114), with `data` what
     * `get_all_dolar_rates()` returned: an empty stored baseline is replaced by the current data
     * and saved, the rows are computed against the baseline, and the data is saved as the last rates.
     */
    method RealRates(data: ODict<RateData>) returns (prepared: ODict<Prepared>)
      requires WellFormed(data)
      modifies this
      ensures initial == (if old(initial) == map[] then ToMap(AsRaw(data)) else old(initial))
      ensures lastSaved == data
      ensures Keys(prepared) == Keys(data)
      ensures forall i :: 0 <= i < |data| ==>
        prepared[i].value == PrepareOne(data[i].key, AsValues(data)[i].value, Some(initial))
    {
      var initialRates := initial;
      if initialRates == map[] {
        initialRates := ToMap(AsRaw(data));
        initial := initialRates;
      }
      var baseline := new Baseline(initialRates);
      var values := AsValues(data);
      assert WellFormed(values) by {
        forall i, j | 0 <= i < j < |values| ensures values[i].key != values[j].key {
          assert Keys(values)[i] == Keys(data)[i] && Keys(values)[j] == Keys(data)[j];
        }
      }
      prepared := PrepareData(values, baseline);
      lastSaved := data;
    }
  }

  /** The first visit, with an empty stored baseline, shows every rate unchanged. */
  lemma FirstVisitIsFlat(data: ODict<RateData>, i: nat)
    requires WellFormed(data) && i < |data|
    ensures var p := PrepareOne(data[i].key, AsValues(data)[i].value, Some(ToMap(AsRaw(data))));
      p.emojiCompra == YELLOW && p.emojiVenta == YELLOW && p.pctCompra == 0.0 && p.pctVenta == 0.0
  {
    var q := Quote(data[i].value.compra, data[i].value.venta);
    ToMapLast(AsRaw(data), i);
    assert Parse(AsRaw(data)[i].value) == Some(q);
    SelfBaselineIsFlat(data[i].key, q, ToMap(AsRaw(data)));
  }

  /** The values keep the rates' keys, so they stay distinct. */
  lemma AsValuesWellFormed(rates: ODict<RateData>)
    requires WellFormed(rates)
    ensures WellFormed(AsValues(rates))
  {
    var vs := AsValues(rates);
    forall i, j | 0 <= i < j < |vs| ensures vs[i].key != vs[j].key {
      assert Keys(vs)[i] == Keys(rates)[i] && Keys(vs)[j] == Keys(rates)[j];
    }
  }

  /** In a dict with distinct keys, the map holds each entry's own value. */
  lemma {:induction false} ToMapLast<V>(d: ODict<V>, i: nat)
    requires WellFormed(d) && i < |d|
    ensures d[i].key in ToMap(d) && ToMap(d)[d[i].key] == d[i].value
  {
    var n := |d| - 1;
    var init := d[..n];
    assert ToMap(d) == ToMap(init)[d[n].key := d[n].value];
    if i < n {
      assert WellFormed(init) by {
        forall a, b | 0 <= a < b < |init| ensures init[a].key != init[b].key {
          assert init[a] == d[a] && init[b] == d[b];
        }
      }
      ToMapLast(init, i);
      assert init[i] == d[i];
      assert d[i].key != d[n].key;
    }
  }
}

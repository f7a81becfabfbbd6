/**
 * services/dolar_services.py: normalising the provider's quotes into the seven instrument
 * keys, the difference against a previous quote, and the Telegram report of the rates.
 */
module DolarServices {
  import opened Wrappers
  import opened Text
  import opened OrderedDict
  import opened Quotes
  import opened Formatters

  // ---------------------------------------------------------------- compute_diff

  /** Absolute and percentage change of buy and sell. */
  datatype Delta = Delta(diffCompra: real, diffVenta: real, pctCompra: real, pctVenta: real)

  /**
   * `compute_diff(data, last)`: a field missing from `last` takes the current value as its
   * baseline, so it shows no change; a zero baseline gives a 0 percentage instead of dividing.
   */
  function ComputeDiff(data: Quote, last: RawQuote): (d: Delta)
    ensures last.compra.None? ==> d.diffCompra == 0.0 && d.pctCompra == 0.0
    ensures last.venta.None? ==> d.diffVenta == 0.0 && d.pctVenta == 0.0
    ensures last.compra.Some? ==> last.compra.value + d.diffCompra == data.compra
    ensures last.venta.Some? ==> last.venta.value + d.diffVenta == data.venta
    ensures last.compra == Some(0.0) ==> d.pctCompra == 0.0
    ensures last.venta == Some(0.0) ==> d.pctVenta == 0.0
    ensures last.compra.Some? ==> d.pctCompra == Pct(d.diffCompra, last.compra.value)
    ensures last.venta.Some? ==> d.pctVenta == Pct(d.diffVenta, last.venta.value)
  {
    var lastCompra := last.compra.GetOr(data.compra);
    var lastVenta := last.venta.GetOr(data.venta);
    var diffCompra := data.compra - lastCompra;
    var diffVenta := data.venta - lastVenta;
    PctOfNoChange(lastCompra);
    PctOfNoChange(lastVenta);
    Delta(diffCompra, diffVenta, Pct(diffCompra, lastCompra), Pct(diffVenta, lastVenta))
  }

  /** Against a non-zero baseline the percentage is the change over the baseline, rounded. */
  lemma ComputeDiffPct(data: Quote, last: RawQuote)
    ensures var d := ComputeDiff(data, last);
      (last.compra.Some? && last.compra.value != 0.0 ==>
        -1.0 / 200.0 <= d.pctCompra - d.diffCompra / last.compra.value * 100.0 <= 1.0 / 200.0) &&
      (last.venta.Some? && last.venta.value != 0.0 ==>
        -1.0 / 200.0 <= d.pctVenta - d.diffVenta / last.venta.value * 100.0 <= 1.0 / 200.0)
  {
    var d := ComputeDiff(data, last);
    PctBounds(d.diffCompra, data.compra - d.diffCompra);
    PctBounds(d.diffVenta, data.venta - d.diffVenta);
  }

  // ---------------------------------------------------------------- fetch_dolar_rates

  /** What `fetch_dolar_rates` keeps of one rate: buy, sell and their mean. */
  datatype RateData = RateData(compra: real, venta: real, promedio: real)

  /** `fechaActualizacion`: absent or empty, a string `fromisoformat` rejects, or an instant. */
  datatype Fecha = NoFecha | BadFecha(raw: string) | At(instant: int)

  /**
   * One element of the provider's JSON array. `nombre` is None when the key is missing (or not a
   * string); `compra`/`venta` are None when missing or null.
   */
  datatype ProviderItem = ProviderItem(nombre: Option<string>, compra: Option<real>, venta: Option<real>, fecha: Fecha)

  /** The HTTP exchange: a failure (network, timeout, non-2xx, bad JSON) or the decoded array. */
  datatype ApiResponse = ApiFailure(reason: string) | ApiItems(items: seq<ProviderItem>)

  /** `{"rates": ..., "updated_at": ...}` or `{"error": ..., "rates": {}}`. */
  datatype FetchResult = Fetched(rates: ODict<RateData>, updatedAt: string) | FetchFailed(error: string)
  {
    /** `result.get("rates", {})`. */
    function Rates(): ODict<RateData> {
      if Fetched? then rates else []
    }
  }

  /** The fetched `rates` as a caller reads them back: `info["compra"]`, `info["venta"]`. */
  function AsRaw(rates: ODict<RateData>): (raw: ODict<RawQuote>)
    ensures |raw| == |rates|
    ensures forall i :: 0 <= i < |rates| ==>
      raw[i].key == rates[i].key && Parse(raw[i].value) == Some(Quote(rates[i].value.compra, rates[i].value.venta))
  {
    seq(|rates|, i requires 0 <= i < |rates| => Entry(rates[i].key, RawQuote(Some(rates[i].value.compra), Some(rates[i].value.venta))))
  }

  /**
   * The substrings that select each instrument, tested in this order; group `i` selects
   * `DOLAR_TYPES[i]`.
   */
  const NAME_PATTERNS: seq<seq<string>> :=
    [["oficial"], ["blue"], ["bolsa", "mep"], ["contado con liqui", "ccl"], ["tarjeta"], ["cripto"], ["mayorista"]]

  /** Some pattern of `patterns` occurs in `nombre`. */
  predicate AnyOccurs(nombre: string, patterns: seq<string>) {
    patterns != [] && (Contains(nombre, patterns[0]) || AnyOccurs(nombre, patterns[1..]))
  }

  predicate MatchesGroup(nombre: string, g: nat)
    requires g < |NAME_PATTERNS|
  {
    AnyOccurs(nombre, NAME_PATTERNS[g])
  }

  lemma GroupsSpelledOut(nombre: string)
    ensures MatchesGroup(nombre, 0) <==> Contains(nombre, "oficial")
    ensures MatchesGroup(nombre, 1) <==> Contains(nombre, "blue")
    ensures MatchesGroup(nombre, 2) <==> Contains(nombre, "bolsa") || Contains(nombre, "mep")
    ensures MatchesGroup(nombre, 3) <==> Contains(nombre, "contado con liqui") || Contains(nombre, "ccl")
    ensures MatchesGroup(nombre, 4) <==> Contains(nombre, "tarjeta")
    ensures MatchesGroup(nombre, 5) <==> Contains(nombre, "cripto")
    ensures MatchesGroup(nombre, 6) <==> Contains(nombre, "mayorista")
  {
    forall p: string, q: string
      ensures AnyOccurs(nombre, [p]) <==> Contains(nombre, p)
      ensures AnyOccurs(nombre, [p, q]) <==> Contains(nombre, p) || Contains(nombre, q)
    {
      assert [p][1..] == [];
      assert [p, q][1..] == [q];
      assert [q][1..] == [];
    }
  }

  /**
   * The `if/elif` chain that maps a lower-cased provider name to an instrument key: the key of
   * the first pattern group that occurs in the name, or none.
   */
  function KeyFor(nombre: string): (k: Option<string>)
    ensures k.Some? ==> k.value in DOLAR_TYPES
  {
    if Contains(nombre, "oficial") then Some("oficial")
    else if Contains(nombre, "blue") then Some("blue")
    else if Contains(nombre, "bolsa") || Contains(nombre, "mep") then Some("mep")
    else if Contains(nombre, "contado con liqui") || Contains(nombre, "ccl") then Some("ccl")
    else if Contains(nombre, "tarjeta") then Some("tarjeta")
    else if Contains(nombre, "cripto") then Some("cripto")
    else if Contains(nombre, "mayorista") then Some("mayorista")
    else None
  }

  /** The key chosen is that of the first pattern group occurring in the name; none when no group occurs. */
  lemma KeyForFirstMatch(nombre: string)
    ensures KeyFor(nombre).None? <==> forall g :: 0 <= g < 7 ==> !MatchesGroup(nombre, g)
    ensures forall g :: 0 <= g < 7 ==>
      (KeyFor(nombre) == Some(DOLAR_TYPES[g]) <==>
       MatchesGroup(nombre, g) && forall h :: 0 <= h < g ==> !MatchesGroup(nombre, h))
  {
    GroupsSpelledOut(nombre);
  }

  function ErrorText(reason: string): string {
    "No se pudo obtener la cotización (" + reason + ")"
  }

  /**
   * The exception processing one item raises, as text: a missing name, or an unparseable date of a
   * kept item. (A price that is present but not a number cannot be expressed by `ProviderItem`.)
   */
  function ItemFailure(it: ProviderItem): Option<string> {
    if it.nombre.None? then Some("'nombre'")
    else if it.compra.None? || it.venta.None? then None
    else if it.fecha.BadFecha? then Some("Invalid isoformat string: '" + it.fecha.raw + "'")
    else None
  }

  /** The first exception raised while walking the items, if any. */
  function FirstFailure(items: seq<ProviderItem>): Option<string> {
    if items == [] then None
    else
      var earlier := FirstFailure(items[..|items| - 1]);
      if earlier.Some? then earlier else ItemFailure(items[|items| - 1])
  }

  lemma {:induction false} FirstFailureExtends(items: seq<ProviderItem>, i: nat)
    requires i <= |items| && FirstFailure(items[..i]).Some?
    ensures FirstFailure(items) == FirstFailure(items[..i])
    decreases |items| - i
  {
    if i < |items| {
      assert items[..i + 1][..i] == items[..i];
      FirstFailureExtends(items, i + 1);
    } else {
      assert items[..i] == items;
    }
  }

  /** The first item that raises decides the error of the whole walk. */
  lemma FailureStep(items: seq<ProviderItem>, i: nat)
    requires i < |items| && FirstFailure(items[..i]).None? && ItemFailure(items[i]).Some?
    ensures FirstFailure(items) == ItemFailure(items[i])
  {
    assert items[..i + 1][..i] == items[..i];
    FirstFailureExtends(items, i + 1);
  }

  /** An item that gets past the `compra`/`venta` check. */
  predicate Kept(it: ProviderItem) {
    it.nombre.Some? && it.compra.Some? && it.venta.Some?
  }

  function RateOf(it: ProviderItem): RateData
    requires Kept(it)
  {
    RateData(it.compra.value, it.venta.value, (it.compra.value + it.venta.value) / 2.0)
  }

  /** The rate the last kept item mapped to key `k` carries: a later item overwrites an earlier one. */
  function LastRateFor(items: seq<ProviderItem>, k: string): Option<RateData> {
    if items == [] then None
    else
      var it := items[|items| - 1];
      if Kept(it) && KeyFor(Lower(it.nombre.value)) == Some(k) then Some(RateOf(it))
      else LastRateFor(items[..|items| - 1], k)
  }

  /** The keys of the kept items that map to an instrument, each where it first occurs. */
  function KeyOrder(items: seq<ProviderItem>): seq<string> {
    if items == [] then []
    else
      var earlier := KeyOrder(items[..|items| - 1]);
      var it := items[|items| - 1];
      if Kept(it) && KeyFor(Lower(it.nombre.value)).Some? && KeyFor(Lower(it.nombre.value)).value !in earlier
      then earlier + [KeyFor(Lower(it.nombre.value)).value]
      else earlier
  }

  /** The latest update instant among the kept items that carry one. */
  function LatestFecha(items: seq<ProviderItem>): (r: Option<int>)
    ensures r.Some? ==> exists i :: 0 <= i < |items| && Kept(items[i]) && items[i].fecha == At(r.value)
    ensures forall i :: 0 <= i < |items| && Kept(items[i]) && items[i].fecha.At? ==>
      r.Some? && items[i].fecha.instant <= r.value
  {
    if items == [] then None
    else
      var init := items[..|items| - 1];
      var prev := LatestFecha(init);
      var it := items[|items| - 1];
      assert forall i :: 0 <= i < |init| ==> items[i] == init[i];
      if Kept(it) && it.fecha.At? && (prev.None? || it.fecha.instant > prev.value) then Some(it.fecha.instant)
      else prev
  }

  /** An item dropped for a missing buy or sell leaves every running result as it was. */
  lemma SkipStep(items: seq<ProviderItem>, i: nat)
    requires i < |items| && items[i].nombre.Some? && !Kept(items[i])
    ensures FirstFailure(items[..i + 1]) == FirstFailure(items[..i])
    ensures LatestFecha(items[..i + 1]) == LatestFecha(items[..i])
    ensures forall k :: LastRateFor(items[..i + 1], k) == LastRateFor(items[..i], k)
    ensures KeyOrder(items[..i + 1]) == KeyOrder(items[..i])
  {
    assert items[..i + 1][..i] == items[..i];
  }

  /** A kept item with a readable date raises nothing and may advance the latest instant. */
  lemma KeptStep(items: seq<ProviderItem>, i: nat)
    requires i < |items| && Kept(items[i]) && !items[i].fecha.BadFecha?
    ensures FirstFailure(items[..i + 1]) == FirstFailure(items[..i])
    ensures var prev := LatestFecha(items[..i]); var f := items[i].fecha;
      LatestFecha(items[..i + 1]) ==
        if f.At? && (prev.None? || f.instant > prev.value) then Some(f.instant) else prev
  {
    assert items[..i + 1][..i] == items[..i];
  }

  /** What the fetch loop keeps true of its dict after a prefix of the items. */
  ghost predicate StepHolds(rates: ODict<RateData>, prefix: seq<ProviderItem>) {
    WellFormed(rates) &&
    Keys(rates) == KeyOrder(prefix) &&
    (forall k :: Get(rates, k) == LastRateFor(prefix, k)) &&
    (forall j :: 0 <= j < |rates| ==> rates[j].key in DOLAR_TYPES)
  }

  /** Storing under an instrument key keeps every key of the dict an instrument key. */
  lemma PutKeepsTypes(rates: ODict<RateData>, key: string, rd: RateData)
    requires WellFormed(rates) && key in DOLAR_TYPES
    requires forall j :: 0 <= j < |rates| ==> rates[j].key in DOLAR_TYPES
    ensures forall j :: 0 <= j < |Put(rates, key, rd)| ==> Put(rates, key, rd)[j].key in DOLAR_TYPES
  {
    var after := Put(rates, key, rd);
    PutKeys(rates, key, rd);
    forall j | 0 <= j < |after|
      ensures after[j].key in DOLAR_TYPES
    {
      assert Keys(after)[j] == after[j].key;
      if j < |rates| {
        assert Keys(rates)[j] == rates[j].key;
      }
    }
  }

  /** Storing a kept item under its key keeps the dict equal to `LastRateFor` of the longer prefix. */
  lemma PutTracksLast(rates: ODict<RateData>, items: seq<ProviderItem>, i: nat)
    requires i < |items| && Kept(items[i]) && KeyFor(Lower(items[i].nombre.value)).Some?
    requires forall k :: Get(rates, k) == LastRateFor(items[..i], k)
    ensures forall k :: Get(Put(rates, KeyFor(Lower(items[i].nombre.value)).value, RateOf(items[i])), k) ==
                        LastRateFor(items[..i + 1], k)
  {
    assert items[..i + 1][..i] == items[..i] && items[..i + 1][i] == items[i];
    var key := KeyFor(Lower(items[i].nombre.value)).value;
    forall k {
      GetPut(rates, key, RateOf(items[i]), k);
    }
  }

  /** Storing a kept item under its key appends the key only when the dict did not hold it yet. */
  lemma PutTracksOrder(rates: ODict<RateData>, items: seq<ProviderItem>, i: nat, key: Option<string>)
    requires i < |items| && Kept(items[i]) && key == KeyFor(Lower(items[i].nombre.value))
    requires WellFormed(rates) && Keys(rates) == KeyOrder(items[..i])
    ensures key.None? ==> Keys(rates) == KeyOrder(items[..i + 1])
    ensures key.Some? ==> Keys(Put(rates, key.value, RateOf(items[i]))) == KeyOrder(items[..i + 1])
  {
    assert items[..i + 1][..i] == items[..i];
    if key.Some? {
      PutKeys(rates, key.value, RateOf(items[i]));
      assert HasKey(rates, key.value) <==> key.value in Keys(rates) by {
        if key.value in Keys(rates) {
          var j :| 0 <= j < |Keys(rates)| && Keys(rates)[j] == key.value;
          assert rates[j].key == key.value;
        }
      }
    }
  }

  /** Storing a kept item under its key (or dropping it when no key matches) keeps the loop's invariant. */
  lemma RateStep(rates: ODict<RateData>, items: seq<ProviderItem>, i: nat, key: Option<string>)
    requires i < |items| && Kept(items[i]) && key == KeyFor(Lower(items[i].nombre.value))
    requires StepHolds(rates, items[..i])
    ensures key.None? ==> StepHolds(rates, items[..i + 1])
    ensures key.Some? ==> StepHolds(Put(rates, key.value, RateOf(items[i])), items[..i + 1])
  {
    PutTracksOrder(rates, items, i, key);
    if key.Some? {
      PutKeys(rates, key.value, RateOf(items[i]));
      PutKeepsTypes(rates, key.value, RateOf(items[i]));
      PutTracksLast(rates, items, i);
    } else {
      assert items[..i + 1][..i] == items[..i] && items[..i + 1][i] == items[i];
    }
  }

  /** `updated_at`: the local rendering of the latest instant, or "desconocida" when there is none. */
  function UpdatedAtText(latest: Option<int>, localTime: int -> string): string {
    if latest.Some? then localTime(latest.value) else "desconocida"
  }

  /**
   * `fetch_dolar_rates`, over the API's answer. `localTime` renders an instant in the
   * Buenos Aires zone as `%d/%m/%Y %H:%M`.
   */
  method FetchDolarRates(response: ApiResponse, localTime: int -> string) returns (result: FetchResult)
    ensures response.ApiFailure? ==> result == FetchFailed(ErrorText(response.reason))
    ensures response.ApiItems? ==> (result.FetchFailed? <==> FirstFailure(response.items).Some?)
    ensures response.ApiItems? && result.FetchFailed? ==> result.error == ErrorText(FirstFailure(response.items).value)
    ensures result.Fetched? ==> response.ApiItems? && WellFormed(result.rates)
    ensures result.Fetched? ==> Keys(result.rates) == KeyOrder(response.items)
    ensures result.Fetched? ==> forall k :: Get(result.rates, k) == LastRateFor(response.items, k)
    ensures result.Fetched? ==> forall i :: 0 <= i < |result.rates| ==> result.rates[i].key in DOLAR_TYPES
    ensures result.Fetched? ==> result.updatedAt == UpdatedAtText(LatestFecha(response.items), localTime)
  {
    if response.ApiFailure? {
      return FetchFailed(ErrorText(response.reason));
    }
    var items := response.items;
    var rates: ODict<RateData> := [];
    var lastUpdate: Option<int> := None;
    var i := 0;
    while i < |items|
      invariant 0 <= i <= |items|
      invariant FirstFailure(items[..i]).None?
      invariant StepHolds(rates, items[..i])
      invariant lastUpdate == LatestFecha(items[..i])
    {
      var item := items[i];
      if item.nombre.None? {
        FailureStep(items, i);
        return FetchFailed(ErrorText("'nombre'"));
      }
      var nombre := Lower(item.nombre.value);
      if item.compra.None? || item.venta.None? {
        SkipStep(items, i);
        i := i + 1;
        continue;
      }
      var compra, venta := item.compra.value, item.venta.value;
      var promedio := (compra + venta) / 2.0;
      match item.fecha {
        case BadFecha(raw) =>
          FailureStep(items, i);
          return FetchFailed(ErrorText("Invalid isoformat string: '" + raw + "'"));
        case At(t) =>
          if lastUpdate.None? || t > lastUpdate.value {
            lastUpdate := Some(t);
          }
        case NoFecha =>
      }
      KeptStep(items, i);
      var key := KeyFor(nombre);
      RateStep(rates, items, i, key);
      if key.Some? {
        assert RateData(compra, venta, promedio) == RateOf(item);
        rates := Put(rates, key.value, RateData(compra, venta, promedio));
        assert StepHolds(rates, items[..i + 1]);
      }
      i := i + 1;
    }
    assert items[..|items|] == items;
    result := Fetched(rates, UpdatedAtText(lastUpdate, localTime));
  }

  // ---------------------------------------------------------------- format_message

  /** The icon in front of each instrument's block. */
  const ICONS: map<string, string> :=
    map["oficial" := "🏦", "blue" := "💵", "mep" := "📊", "ccl" := "💹",
        "tarjeta" := "💳", "cripto" := "🪙", "mayorista" := "🏛️"]

  const DEFAULT_ICON: string := "💰"

  /** What one `format_rate` block shows: icon, capitalised name, the current pair, markers and the change. */
  datatype RateBlock = RateBlock(icon: string, title: string, compra: real, venta: real,
                                 markerCompra: string, markerVenta: string, delta: Delta)

  /** The reply `format_message` builds: a plain text, one instrument's block, or all seven. */
  datatype Formatted =
    | PlainText(text: string)
    | SingleRate(block: RateBlock, updatedAt: string)
    | AllRates(blocks: seq<RateBlock>, updatedAt: string)

  /** The current pair for `name`, `{"compra": 0, "venta": 0}` when the rates lack it. */
  function CurrentOr0(rates: ODict<RateData>, name: string): Quote {
    match Get(rates, name)
    case Some(rd) => Quote(rd.compra, rd.venta)
    case None => Quote(0.0, 0.0)
  }

  /** The previous pair for `name`, `{"compra": 0, "venta": 0}` when last_rates lacks it. */
  function LastOr0(lastRates: map<string, RawQuote>, name: string): RawQuote {
    if name in lastRates then lastRates[name] else RawQuote(Some(0.0), Some(0.0))
  }

  /** `format_rate(name)`. */
  function FormatRate(rates: ODict<RateData>, lastRates: map<string, RawQuote>, name: string): (b: RateBlock)
    ensures b.title == Capitalize(name)
    ensures b.compra == CurrentOr0(rates, name).compra && b.venta == CurrentOr0(rates, name).venta
    ensures b.markerCompra == Emoji(b.delta.diffCompra) && b.markerVenta == Emoji(b.delta.diffVenta)
    ensures b.icon == (if name in ICONS then ICONS[name] else DEFAULT_ICON)
    ensures b.delta == ComputeDiff(CurrentOr0(rates, name), LastOr0(lastRates, name))
  {
    var data := CurrentOr0(rates, name);
    var d := ComputeDiff(data, LastOr0(lastRates, name));
    RateBlock(if name in ICONS then ICONS[name] else DEFAULT_ICON, Capitalize(name),
              data.compra, data.venta, Emoji(d.diffCompra), Emoji(d.diffVenta), d)
  }

  /**
   * An instrument missing from last_rates is compared against 0/0: its change is its whole
   * current value and its percentage is 0.
   */
  lemma MissingLastShowsWholeValue(rates: ODict<RateData>, lastRates: map<string, RawQuote>, name: string)
    requires name !in lastRates
    ensures FormatRate(rates, lastRates, name).delta ==
            Delta(CurrentOr0(rates, name).compra, CurrentOr0(rates, name).venta, 0.0, 0.0)
  {
  }

  /**
   * Against a previous pair with both fields, a block shows the change from it to the current
   * pair (0/0 when the rates lack the name), marked by its sign.
   */
  lemma BlockShowsChange(rates: ODict<RateData>, lastRates: map<string, RawQuote>, name: string)
    requires name in lastRates && lastRates[name].compra.Some? && lastRates[name].venta.Some?
    ensures var b := FormatRate(rates, lastRates, name);
      var cur := if HasKey(rates, name) then CurrentOr0(rates, name) else Quote(0.0, 0.0);
      b.delta.diffCompra == cur.compra - lastRates[name].compra.value &&
      b.delta.diffVenta == cur.venta - lastRates[name].venta.value &&
      (b.markerCompra == GREEN <==> cur.compra > lastRates[name].compra.value) &&
      (b.markerCompra == RED <==> cur.compra < lastRates[name].compra.value) &&
      (b.markerVenta == GREEN <==> cur.venta > lastRates[name].venta.value) &&
      (b.markerVenta == RED <==> cur.venta < lastRates[name].venta.value)
  {
    var b := FormatRate(rates, lastRates, name);
    EmojiIsOneOfThree(b.delta.diffCompra);
    EmojiIsOneOfThree(b.delta.diffVenta);
  }

  /** Each of the seven instruments has its own icon; only other names get the default one. */
  lemma InstrumentIcons(rates: ODict<RateData>, lastRates: map<string, RawQuote>, name: string)
    ensures (FormatRate(rates, lastRates, name).icon == DEFAULT_ICON) <==> name !in DOLAR_TYPES
  {
  }

  function NotFoundText(tipo: string): string {
    "No se encontró el tipo '" + tipo + "'. Tipos disponibles: " + Join(DOLAR_TYPES, ", ")
  }

  /**
   * `format_message(result, last_rates, tipo)`: the fetch error verbatim; otherwise the block of
   * the requested instrument, all seven blocks in `DOLAR_TYPES` order when none is requested,
   * or the "not found" text for an unknown one.
   */
  function FormatMessage(result: FetchResult, lastRates: map<string, RawQuote>, tipo: Option<string>): (r: Formatted)
    ensures result.FetchFailed? ==> r == PlainText(result.error)
    ensures result.Fetched? && (tipo.None? || tipo.value == "") ==>
      r.AllRates? && r.updatedAt == result.updatedAt && |r.blocks| == |DOLAR_TYPES| &&
      forall i :: 0 <= i < |DOLAR_TYPES| ==> r.blocks[i] == FormatRate(result.rates, lastRates, DOLAR_TYPES[i])
    ensures result.Fetched? && tipo.Some? && tipo.value != "" && Lower(tipo.value) in DOLAR_TYPES ==>
      r == SingleRate(FormatRate(result.rates, lastRates, Lower(tipo.value)), result.updatedAt)
    ensures result.Fetched? && tipo.Some? && tipo.value != "" && Lower(tipo.value) !in DOLAR_TYPES ==>
      r == PlainText(NotFoundText(Lower(tipo.value)))
  {
    match result
    case FetchFailed(error) => PlainText(error)
    case Fetched(rates, updatedAt) =>
      if tipo.Some? && tipo.value != "" then
        var t := Lower(tipo.value);
        if t in DOLAR_TYPES then SingleRate(FormatRate(rates, lastRates, t), updatedAt)
        else PlainText(NotFoundText(t))
      else
        AllRates(seq(|DOLAR_TYPES|, i requires 0 <= i < |DOLAR_TYPES| => FormatRate(rates, lastRates, DOLAR_TYPES[i])), updatedAt)
  }

  /** The full report names the seven instruments once each, in `DOLAR_TYPES` order. */
  lemma ReportOrder(result: FetchResult, lastRates: map<string, RawQuote>)
    requires result.Fetched?
    ensures var r := FormatMessage(result, lastRates, None);
      r.AllRates? && |r.blocks| == 7 &&
      forall i :: 0 <= i < 7 ==> r.blocks[i].title == Capitalize(DOLAR_TYPES[i])
  {
  }
}

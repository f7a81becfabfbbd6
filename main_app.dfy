/**
 * main.py: the Telegram webhook's command dispatch and the web table's baseline selection. The
 * webhook formats `/dolar` against the last rates stored before it saves the new ones; the table
 * takes today's opening rates from the map loaded before today's entry is saved.
 */
module MainApp {
  import opened Wrappers
  import opened Text
  import opened OrderedDict
  import opened Quotes
  import opened DolarServices
  import opened Files
  import opened Channels
  import opened InitialRates
  import opened Helpers
  import opened WebTable
  import SchedulerTasks

  /** Line 143: the texts answered with the help message. */
  const HELP_WORDS: seq<string> := ["/start", "/help", "hola", "buenas"]
  const HELP_TEXT: string :=
    "👋 ¡Bienvenido al bot del Dólar Argentina! 🇦🇷\n\n" +
    "💵 Comandos disponibles:\n" +
    "/dolar - todas las cotizaciones\n" +
    "/dolar_oficial - oficial\n" +
    "/dolar_blue - blue\n" +
    "/dolar_mep - MEP / Bolsa\n" +
    "/dolar_ccl - Contado con Liquidación\n" +
    "/dolar_tarjeta - tarjeta\n" +
    "/dolar_cripto - cripto\n" +
    "/dolar_mayorista - mayorista"
  const DEFAULT_TEXT: string := "No entendí ese comando. Escribí /dolar para ver las opciones 💬"
  const SEND_FAILED: string := "Error enviando mensaje a Telegram:"
  const WEBHOOK_FAILED: string := "ERROR EN WEBHOOK:"

  /** The decoded update: no `message`, or a message with its chat id (if any) and text (if any). */
  datatype Update = NoMessage | Message(chatId: Option<int>, text: Option<string>)

  datatype Command = Help | DolarCmd(tipo: Option<string>) | Other

  /** Lines 140-163: the text, lower-cased and stripped, selects the reply. */
  function CommandOf(text: Option<string>): (c: Command)
    ensures var t := Strip(Lower(text.GetOr("")));
      (c == Help <==> t in HELP_WORDS) &&
      (c.DolarCmd? <==> t !in HELP_WORDS && StartsWith(t, "/dolar")) &&
      (c.DolarCmd? ==> c.tipo == ParseTipo(t))
  {
    var t := Strip(Lower(text.GetOr("")));
    if t in HELP_WORDS then Help
    else if StartsWith(t, "/dolar") then DolarCmd(ParseTipo(t))
    else Other
  }

  /** A `/dolar` command selects one of the seven instruments or all of them. */
  lemma DolarTipoIsKnown(text: Option<string>)
    requires CommandOf(text).DolarCmd?
    ensures CommandOf(text).tipo.Some? ==> CommandOf(text).tipo.value in DOLAR_TYPES
  {
    ParseTipoInTypes(Strip(Lower(text.GetOr(""))), 0);
  }

  /** The reply to a command, given the fetch and the last-rates file as it was before the call. */
  function Reply(c: Command, fetched: FetchResult, f: JsonFile<RawQuote>): Body {
    match c
    case Help => Plain(HELP_TEXT)
    case DolarCmd(tipo) => Report(FormatMessage(fetched, LoadJson(f), tipo))
    case Other => Plain(DEFAULT_TEXT)
  }

  /** `rates_data.get("rates", {})` as saved into data/last_rates.json. */
  function SavedRates(fetched: FetchResult): (m: map<string, RawQuote>)
    ensures fetched.FetchFailed? ==> m == map[]
  {
    ToMap(AsRaw(fetched.Rates()))
  }

  /**
   * `telegram_webhook(request)`, lines 134-193, with `fetched` what `fetch_dolar_rates()` returns
   * for a `/dolar` command. Returns the `ok` field of the answer.
   */
  method TelegramWebhook(update: Update, fetched: FetchResult, disk: Disk, net: Network) returns (ok: bool)
    modifies disk`lastRates, disk`errorLog, disk`console, net`sent
    ensures update.NoMessage? ==>
      ok && net.sent == old(net.sent) && disk.lastRates == old(disk.lastRates) && disk.console == old(disk.console) &&
      disk.errorLog == old(disk.errorLog)
    ensures update.Message? && update.chatId.None? ==>
      !ok && net.sent == old(net.sent) && disk.lastRates == old(disk.lastRates) &&
      disk.console == old(disk.console) + [WEBHOOK_FAILED] && disk.errorLog == old(disk.errorLog)
    ensures update.Message? && update.chatId.Some? ==>
      var c := CommandOf(update.text);
      ok &&
      net.sent == old(net.sent) +
        (if net.telegramUp then [Outgoing(ChatId(update.chatId.value), Reply(c, fetched, old(disk.lastRates)))] else []) &&
      disk.lastRates == (if c.DolarCmd? && disk.writable then Holds(SavedRates(fetched)) else old(disk.lastRates)) &&
      disk.console == old(disk.console) + (if net.telegramUp then [] else [SEND_FAILED]) &&
      disk.errorLog == old(disk.errorLog) + AnswerErrors(c, old(disk.lastRates), disk.writable)
  {
    if update.NoMessage? {
      return true;
    }
    if update.chatId.None? {
      disk.console := disk.console + [WEBHOOK_FAILED];
      return false;
    }
    AnswerMessage(update.chatId.value, CommandOf(update.text), fetched, disk, net);
    ok := true;
  }

  /** Lines 139-189 once the chat is known: the reply to `c`, and for `/dolar` the save. */
  method AnswerMessage(chatId: int, c: Command, fetched: FetchResult, disk: Disk, net: Network)
    modifies disk`lastRates, disk`errorLog, disk`console, net`sent
    ensures net.sent == old(net.sent) +
      (if net.telegramUp then [Outgoing(ChatId(chatId), Reply(c, fetched, old(disk.lastRates)))] else [])
    ensures disk.lastRates == (if c.DolarCmd? && disk.writable then Holds(SavedRates(fetched)) else old(disk.lastRates))
    ensures disk.console == old(disk.console) + (if net.telegramUp then [] else [SEND_FAILED])
    ensures disk.errorLog == old(disk.errorLog) + AnswerErrors(c, old(disk.lastRates), disk.writable)
  {
    var body := Reply(c, fetched, disk.lastRates);
    if c.DolarCmd? {
      SaveLastRates(fetched, disk);
    }
    var sent := net.Send(ChatId(chatId), body);
    if !sent {
      disk.console := disk.console + [SEND_FAILED];
    }
  }

  /** What answering `c` logs: for `/dolar`, an unreadable last-rates file and a failed save. */
  function AnswerErrors(c: Command, f: JsonFile<RawQuote>, writable: bool): seq<string> {
    if c.DolarCmd? then ReadErrors(f, LAST_RATES_PATH) + WriteErrors(writable, LAST_RATES_PATH) else []
  }

  /**
   * Lines 168-173 around the reply: the read of data/last_rates.json (whose errors are logged)
   * and the save of the new rates.
   */
  method SaveLastRates(fetched: FetchResult, disk: Disk)
    modifies disk`lastRates, disk`errorLog
    ensures disk.lastRates == (if disk.writable then Holds(SavedRates(fetched)) else old(disk.lastRates))
    ensures disk.errorLog ==
      old(disk.errorLog) + ReadErrors(old(disk.lastRates), LAST_RATES_PATH) + WriteErrors(disk.writable, LAST_RATES_PATH)
  {
    disk.LogErrors(ReadErrors(disk.lastRates, LAST_RATES_PATH));
    var saved := disk.WriteLastRates(SavedRates(fetched));
    disk.LogErrors(WriteErrors(saved, LAST_RATES_PATH));
  }

  // ---------------------------------------------------------------- /dolar as written

  /** What the `/dolar` branch ends with: a reply, or an exception caught by the outer handler. */
  datatype Outcome = Replied(msg: Formatted) | Crashed

  /**
   * The `/dolar` branch over utils/file_helpers.py `load_json` as written (lines 168-170):
   * `format_message` reads `last_rates.get(...)` for every report it builds, which raises on the
   * `None` of a missing file and on the `[]` of an unreadable or empty one.
   */
  function DolarOutcomeAsWritten(fetched: FetchResult, f: JsonFile<RawQuote>, tipo: Option<string>): (r: Outcome)
    ensures r.Crashed? <==>
      (fetched.Fetched? && !LoadJsonAsWritten(f).LoadedDict? &&
       (tipo.None? || tipo.value == "" || Lower(tipo.value) in DOLAR_TYPES))
  {
    if fetched.FetchFailed? then Replied(PlainText(fetched.error))
    else if tipo.Some? && tipo.value != "" && Lower(tipo.value) !in DOLAR_TYPES then Replied(PlainText(NotFoundText(Lower(tipo.value))))
    else match LoadJsonAsWritten(f)
      case LoadedDict(m) => Replied(FormatMessage(fetched, m, tipo))
      case _ => Crashed
  }

  /**
   * The last-rates file after the as-written branch: a crash skips the save. Unlike
   * `SaveLastRates`, this run assumes the save itself succeeds (a writable disk).
   */
  function FileAfterAsWritten(fetched: FetchResult, f: JsonFile<RawQuote>, tipo: Option<string>): JsonFile<RawQuote> {
    if DolarOutcomeAsWritten(fetched, f, tipo).Crashed? then f else Holds(SavedRates(fetched))
  }

  /** The corrected branch: the `{}` default makes every instrument read as new. */
  function DolarOutcome(fetched: FetchResult, f: JsonFile<RawQuote>, tipo: Option<string>): (r: Outcome)
    ensures r.Replied?
  {
    Replied(FormatMessage(fetched, LoadJson(f), tipo))
  }

  /** The states from which the as-written `/dolar` cannot answer a successful fetch. */
  predicate Unanswerable(f: JsonFile<RawQuote>) {
    f.Missing? || f.Corrupt? || f == Holds(map[])
  }

  /**
   * As written, over a run of `/dolar` commands with no scheduler tick in between, a fresh
   * install (or one whose last fetch failed) does not recover: whatever the fetches, the file
   * stays unanswerable, and every successful `/dolar` crashes, while the corrected branch
   * answers it. A tick that saves a parseable rate ends such a run (`TickSaveLetsDolarAnswer`).
   */
  lemma {:induction false} DolarNeverRecoversAsWritten(f: JsonFile<RawQuote>, fetches: seq<FetchResult>)
    requires Unanswerable(f)
    ensures Unanswerable(RunDolarAsWritten(f, fetches))
    ensures forall i :: 0 <= i < |fetches| && fetches[i].Fetched? ==>
      DolarOutcomeAsWritten(fetches[i], RunDolarAsWritten(f, fetches[..i]), None).Crashed? &&
      DolarOutcome(fetches[i], RunDolarAsWritten(f, fetches[..i]), None).Replied?
    decreases |fetches|
  {
    if fetches != [] {
      var init := fetches[..|fetches| - 1];
      DolarNeverRecoversAsWritten(f, init);
      var last := fetches[|fetches| - 1];
      if last.FetchFailed? {
        assert SavedRates(last) == map[];
      }
      forall i | 0 <= i < |fetches| && fetches[i].Fetched?
        ensures DolarOutcomeAsWritten(fetches[i], RunDolarAsWritten(f, fetches[..i]), None).Crashed?
      {
        if i < |init| {
          assert fetches[..i] == init[..i];
          assert fetches[i] == init[i];
        } else {
          assert fetches[..i] == init;
        }
      }
    }
  }

  /**
   * scheduler/tasks.py saves the same data/last_rates.json after every tick in the market window:
   * once a tick on a writable disk has a parseable rate, the file holds a non-empty object and the
   * as-written `/dolar` answers again.
   */
  lemma TickSaveLetsDolarAnswer(v: SchedulerTasks.TickView, rates: ODict<RawQuote>, i: nat, ts: string, threshold: real,
                                configured: bool, state: RemoteState, up: bool, fetched: FetchResult, tipo: Option<string>)
    requires WellFormed(rates) && i < |rates| && Parse(rates[i].value).Some?
    ensures var w := SchedulerTasks.AfterMonitor(v, rates, ts, threshold, configured, state, true, up);
      w.stored.Holds? && rates[i].key in w.stored.content && DolarOutcomeAsWritten(fetched, w.stored, tipo).Replied?
  {
    SchedulerTasks.SnapshotAlwaysUpdated(v.last, rates, i);
  }

  /** The file after a run of `/dolar` commands (no instrument named), as written. */
  function RunDolarAsWritten(f: JsonFile<RawQuote>, fetches: seq<FetchResult>): JsonFile<RawQuote> {
    if fetches == [] then f
    else FileAfterAsWritten(fetches[|fetches| - 1], RunDolarAsWritten(f, fetches[..|fetches| - 1]), None)
  }

  // ---------------------------------------------------------------- real_rates

  /**
   * Line 118: today's opening rates from the map loaded before today's entry is saved, or the
   * current data when that map has no entry for today.
   */
  function TodayBaseline(f: JsonFile<DayRates>, today: string, data: ODict<RateData>): map<string, RawQuote> {
    var all := LoadJson(f);
    if today in all then all[today] else ToMap(AsRaw(data))
  }

  /**
   * `real_rates()`, lines 102-125, on date `today` with `data` what `get_all_dolar_rates()`
   * returned: load the openings, save today's if absent, compare with today's baseline, save the
   * data as the last rates.
   */
  method MainRealRates(today: string, data: ODict<RateData>, disk: Disk) returns (prepared: ODict<Prepared>)
    requires WellFormed(data)
    modifies disk`initials, disk`errorLog, disk`lastRates
    ensures disk.initials == InitialsAfter(old(disk.initials), today, ToMap(AsRaw(data)), disk.writable)
    ensures disk.lastRates == (if disk.writable then Holds(ToMap(AsRaw(data))) else old(disk.lastRates))
    ensures disk.errorLog == old(disk.errorLog) +
      ReadErrors(old(disk.initials), INITIAL_RATES_PATH) + ReadErrors(old(disk.initials), INITIAL_RATES_PATH) +
      (if today in LoadJson(old(disk.initials)) then [] else WriteErrors(disk.writable, INITIAL_RATES_PATH)) +
      WriteErrors(disk.writable, LAST_RATES_PATH)
    ensures Keys(prepared) == Keys(data)
    ensures forall i :: 0 <= i < |data| ==>
      prepared[i].value == PrepareOne(data[i].key, AsValues(data)[i].value, Some(TodayBaseline(old(disk.initials), today, data)))
  {
    var allInitials := LoadInitialRates(disk);
    ghost var before := disk.initials;
    var raw := ToMap(AsRaw(data));
    SaveInitialRatesByDay(disk, today, raw);
    var initialToday := if today in allInitials then allInitials[today] else raw;
    assert initialToday == TodayBaseline(before, today, data);
    var baseline := new Baseline(initialToday);
    var values := AsValues(data);
    AsValuesWellFormed(data);
    prepared := PrepareData(values, baseline);
    assert forall i :: 0 <= i < |data| ==> values[i].key == data[i].key by {
      assert forall i :: 0 <= i < |data| ==> Keys(values)[i] == Keys(data)[i];
    }
    var ok := disk.WriteLastRates(raw);
    disk.LogErrors(WriteErrors(ok, LAST_RATES_PATH));
  }

  /** With no opening stored for today, every row shows no change. */
  lemma FirstVisitOfTheDayIsFlat(f: JsonFile<DayRates>, today: string, data: ODict<RateData>, i: nat)
    requires WellFormed(data) && i < |data| && today !in LoadJson(f)
    ensures var p := PrepareOne(data[i].key, AsValues(data)[i].value, Some(TodayBaseline(f, today, data)));
      p.emojiCompra == Formatters.YELLOW && p.emojiVenta == Formatters.YELLOW && p.pctCompra == 0.0 && p.pctVenta == 0.0
  {
    FirstVisitIsFlat(data, i);
  }
}

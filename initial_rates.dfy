/**
 * storage/initial_rates.py: data/initial_rates.json maps a date key (`YYYY-MM-DD`) to the rates
 * first seen that day; the first writer of a date wins.
 */
module InitialRates {
  import opened Wrappers
  import opened Quotes
  import opened Files

  /** The rates of one day: instrument -> buy/sell. */
  type DayRates = map<string, RawQuote>

  /** `load_initial_rates()`: the stored date -> rates map as it is. */
  method LoadInitialRates(disk: Disk) returns (all: map<string, DayRates>)
    modifies disk`errorLog
    ensures disk.initials.Holds? ==> all == disk.initials.content
    ensures !disk.initials.Holds? ==> all == map[]
    ensures disk.errorLog == old(disk.errorLog) + ReadErrors(disk.initials, INITIAL_RATES_PATH)
  {
    all := LoadJson(disk.initials);
    disk.LogErrors(ReadErrors(disk.initials, INITIAL_RATES_PATH));
  }

  /** The file after `save_initial_rates_by_day(rates)` on date `today`. */
  function InitialsAfter(f: JsonFile<DayRates>, today: string, rates: DayRates, writable: bool): JsonFile<DayRates> {
    var all := LoadJson(f);
    if today in all || !writable then f else Holds(all[today := rates])
  }

  /**
   * `save_initial_rates_by_day(rates)`: today's key is written only when absent, and then the
   * whole map is saved.
   */
  method SaveInitialRatesByDay(disk: Disk, today: string, rates: DayRates)
    modifies disk`initials, disk`errorLog
    ensures disk.initials == InitialsAfter(old(disk.initials), today, rates, disk.writable)
    ensures disk.errorLog == old(disk.errorLog) + ReadErrors(old(disk.initials), INITIAL_RATES_PATH) +
      (if today in LoadJson(old(disk.initials)) then [] else WriteErrors(disk.writable, INITIAL_RATES_PATH))
  {
    var allInitials := LoadInitialRates(disk);
    if today !in allInitials {
      allInitials := allInitials[today := rates];
      var ok := disk.WriteInitials(allInitials);
      disk.LogErrors(WriteErrors(ok, INITIAL_RATES_PATH));
    }
  }

  /** An absent date is inserted with `rates` and saved; a present one is left exactly as stored. */
  lemma SaveByDayEffect(f: JsonFile<DayRates>, today: string, rates: DayRates)
    ensures today !in LoadJson(f) ==> LoadJson(InitialsAfter(f, today, rates, true)) == LoadJson(f)[today := rates]
    ensures today in LoadJson(f) ==> InitialsAfter(f, today, rates, true) == f
  {
  }

  /** Two saves on the same date: the first one's rates stay (or what was there before both). */
  lemma FirstWriterWins(f: JsonFile<DayRates>, today: string, first: DayRates, second: DayRates, writable: bool)
    ensures var after := InitialsAfter(InitialsAfter(f, today, first, true), today, second, writable);
      today in LoadJson(after) &&
      LoadJson(after)[today] == if today in LoadJson(f) then LoadJson(f)[today] else first
  {
  }

  /** A save never alters, adds or removes any other date. */
  lemma OtherDatesUntouched(f: JsonFile<DayRates>, today: string, rates: DayRates, writable: bool, day: string)
    requires day != today
    ensures var after := LoadJson(InitialsAfter(f, today, rates, writable));
      (day in after <==> day in LoadJson(f)) && (day in after ==> after[day] == LoadJson(f)[day])
  {
  }

  // ---------------------------------------------------------------- as written

  /** The call either raises (with the exception's text) or ends with the file as given. */
  datatype SaveOutcome = Raised(error: string) | Done(file: JsonFile<DayRates>)

  /**
   * `save_initial_rates_by_day` over utils/file_helpers.py `load_json` as written: `None`
   * cannot be searched with `in`, and `[]` cannot be indexed by a date, so both raise.
   */
  function SaveByDayAsWritten(f: JsonFile<DayRates>, today: string, rates: DayRates, writable: bool): (r: SaveOutcome)
    ensures r.Raised? <==> !LoadJsonAsWritten(f).LoadedDict?
  {
    match LoadJsonAsWritten(f)
    case LoadedNone => Raised("argument of type 'NoneType' is not iterable")
    case LoadedList => Raised("list indices must be integers or slices, not str")
    case LoadedDict(all) =>
      if today in all || !writable then Done(f) else Done(Holds(all[today := rates]))
  }

  /**
   * As written, a missing (or unreadable, or `{}`) store can never be started: every call raises
   * and the file stays as it is; with the `{}` default the first call creates it.
   */
  lemma InitialsNeverStartAsWritten(f: JsonFile<DayRates>, today: string, rates: DayRates)
    requires f.Missing? || f.Corrupt? || f == Holds(map[])
    ensures SaveByDayAsWritten(f, today, rates, true).Raised?
    ensures InitialsAfter(f, today, rates, true) == Holds(map[today := rates])
  {
    var empty: map<string, DayRates> := map[];
    assert LoadJson(f) == empty;
  }

  /** Where the as-written store is a non-empty object, it behaves as the corrected one. */
  lemma AsWrittenAgreesOnObjects(f: JsonFile<DayRates>, today: string, rates: DayRates, writable: bool)
    requires f.Holds? && f.content != map[]
    ensures SaveByDayAsWritten(f, today, rates, writable) == Done(InitialsAfter(f, today, rates, writable))
  {
  }
}

/**
 * The calendar date picker: which days are marked and selectable, and the
 * three-way resolution of a picked day (no diary, one diary, several diaries)
 * together with the chooser that settles the last case.
 */
module Calendar {
  import opened Wrappers
  import opened Effects
  import opened Diaries
  import opened Text

  /** A day of the calendar grid, as the picker hands it to its callbacks. */
  datatype CalendarDay = CalendarDay(year: nat, month: nat, day: nat)

  /** Month and day lie in their calendar ranges (the grid only shows such days). */
  predicate ValidDay(d: CalendarDay) {
    1 <= d.month <= 12 && 1 <= d.day <= 31
  }

  /** Strictly earlier, in calendar order. */
  predicate Before(a: CalendarDay, b: CalendarDay) {
    a.year < b.year
    || (a.year == b.year && a.month < b.month)
    || (a.year == b.year && a.month == b.month && a.day < b.day)
  }

  /** `new Date("1900-01-01")`, the earliest selectable day. */
  const FIRST_DAY := CalendarDay(1900, 1, 1)

  /** date-fns `format(d, "yyyy-MM-dd")`: year padded to four digits, month and day to two. */
  function Format(d: CalendarDay): string {
    ZeroPad(d.year, 4) + "-" + ZeroPad(d.month, 2) + "-" + ZeroPad(d.day, 2)
  }

  /** Reads a `yyyy-MM-dd` string back into a day; None when the separators are not where they belong. */
  function ParseDay(s: string): Option<CalendarDay> {
    if |s| < 7 || s[|s| - 3] != '-' || s[|s| - 6] != '-' then None
    else Some(CalendarDay(ParseDecimal(s[..|s| - 6]), ParseDecimal(s[|s| - 5..|s| - 3]), ParseDecimal(s[|s| - 2..])))
  }

  /** The formatted day reads back as the same day. */
  lemma ParseFormat(d: CalendarDay)
    requires ValidDay(d)
    ensures ParseDay(Format(d)) == Some(d)
  {
    ShortDecimal(d.month);
    ShortDecimal(d.day);
    FieldsOfKey(ZeroPad(d.year, 4), ZeroPad(d.month, 2), ZeroPad(d.day, 2));
    ParseZeroPad(d.year, 4);
    ParseZeroPad(d.month, 2);
    ParseZeroPad(d.day, 2);
  }

  lemma FieldsOfKey(y: string, m: string, dd: string)
    requires 1 <= |y| && |m| == 2 && |dd| == 2
    ensures var s := y + "-" + m + "-" + dd;
      && |s| >= 7 && s[|s| - 3] == '-' && s[|s| - 6] == '-'
      && s[..|s| - 6] == y && s[|s| - 5..|s| - 3] == m && s[|s| - 2..] == dd
  {
    var s := y + "-" + m + "-" + dd;
    assert s[..|s| - 6] == y;
    assert s[|s| - 5..|s| - 3] == m;
    assert s[|s| - 2..] == dd;
  }

  lemma ShortDecimal(n: nat)
    requires n < 100
    ensures |Decimal(n)| <= 2
  {
    if n >= 10 {
      assert Decimal(n) == Decimal(n / 10) + [DigitChar(n % 10)];
    }
  }

  /** Distinct days have distinct keys, so `diaryDates` marks each day on its own. */
  lemma FormatInjective(a: CalendarDay, b: CalendarDay)
    requires ValidDay(a) && ValidDay(b)
    requires Format(a) == Format(b)
    ensures a == b
  {
    ParseFormat(a);
    ParseFormat(b);
  }

  /** `modifiers.hasDiary`: the day's key is among the diary dates. */
  predicate HasDiary(diaryDates: seq<string>, d: CalendarDay) {
    Format(d) in diaryDates
  }

  /**
   * `disabledDays`, at day granularity: after today, before 1900-01-01, or
   * (not after today and) without a diary.
   */
  function IsDisabled(diaryDates: seq<string>, today: CalendarDay, d: CalendarDay): (disabled: bool)
    ensures !disabled <==> !Before(d, FIRST_DAY) && !Before(today, d) && HasDiary(diaryDates, d)
  {
    Before(today, d) || Before(d, FIRST_DAY) || (!HasDiary(diaryDates, d) && !Before(today, d))
  }

  // ---------------------------------------------------------------------
  // The lookup and its three-way resolution

  const MSG_LOAD_FAILED := "일기를 불러오는데 실패했습니다."
  const MSG_NO_DIARY := "선택한 날짜에 작성된 일기가 없습니다."
  const MSG_DATES_FAILED := "일기 날짜를 불러오는데 실패했습니다."

  /** What a store query answers: `{error, message}`, `{data}` with possibly missing data, or a rejection. */
  datatype StoreResult<T> = StoreError(message: string) | StoreData(data: Option<T>) | StoreThrew

  /** How a picked day resolves. */
  datatype Resolution =
    | LookupFailed(message: string)
    | NoDiary
    | Resolved(id: string)
    | Ambiguous(candidates: seq<Diary>)

  /** The diaries found for the day: `result.data ?? []`. */
  function Found(lookup: StoreResult<seq<Diary>>): seq<Diary>
    requires lookup.StoreData?
  {
    lookup.data.GetOr([])
  }

  /**
   * The decision `handleDateSelect` makes once the lookup has answered: a
   * failure is reported, no diary is an info notice, one diary is opened
   * directly, and several diaries are all offered in the order returned.
   */
  function Resolve(lookup: StoreResult<seq<Diary>>): (r: Resolution)
    ensures lookup.StoreError? ==> r == LookupFailed(OrElse(lookup.message, MSG_LOAD_FAILED))
    ensures lookup.StoreThrew? ==> r == LookupFailed(MSG_LOAD_FAILED)
    ensures r.LookupFailed? ==> r.message != "" && !lookup.StoreData?
    ensures lookup.StoreData? ==>
      && (r.NoDiary? <==> |Found(lookup)| == 0)
      && (r.Resolved? <==> |Found(lookup)| == 1)
      && (r.Ambiguous? <==> |Found(lookup)| >= 2)
    ensures r.Resolved? ==> r.id == Found(lookup)[0].id
    ensures r.Ambiguous? ==> r.candidates == Found(lookup)
  {
    match lookup
    case StoreError(m) => LookupFailed(OrElse(m, MSG_LOAD_FAILED))
    case StoreThrew => LookupFailed(MSG_LOAD_FAILED)
    case StoreData(_) =>
      var diaries := Found(lookup);
      if |diaries| > 0 then
        if |diaries| == 1 then Resolved(diaries[0].id) else Ambiguous(diaries)
      else NoDiary
  }

  /** A single match never prompts, and several matches never pick one silently. */
  lemma ResolveNeverGuesses(lookup: StoreResult<seq<Diary>>)
    requires lookup.StoreData? && |Found(lookup)| >= 2
    ensures !Resolve(lookup).Resolved? && |Resolve(lookup).candidates| == |Found(lookup)|
  {
  }

  /** One query of `getDiaryByDate`: the key asked for and whether the loading flag was up. */
  datatype LookupCall = LookupCall(date: string, loading: bool)

  /** The picker component's state and the effects it has performed. */
  class CalendarPicker {
    var date: Option<CalendarDay>
    var diaryDates: seq<string>
    var isLoading: bool
    var selectedDiaries: seq<Diary>
    var isModalOpen: bool
    var selectedDate: Option<CalendarDay>
    var lookups: seq<LookupCall>
    var effects: seq<Effect>

    constructor (today: CalendarDay)
      ensures date == Some(today) && diaryDates == [] && !isLoading
      ensures selectedDiaries == [] && !isModalOpen && selectedDate == None
      ensures lookups == [] && effects == []
    {
      date := Some(today);
      diaryDates := [];
      isLoading := false;
      selectedDiaries := [];
      isModalOpen := false;
      selectedDate := None;
      lookups := [];
      effects := [];
    }

    /** `fetchDiaryDates`: stores the dates on success, and only reports a failure. */
    method FetchDiaryDates(result: StoreResult<seq<string>>)
      modifies this`diaryDates, this`effects
      ensures result.StoreData? ==> diaryDates == result.data.GetOr([]) && effects == old(effects)
      ensures result.StoreError? ==>
        diaryDates == old(diaryDates) && effects == old(effects) + [Toast(ErrorNotice(OrElse(result.message, MSG_DATES_FAILED), ""))]
      ensures result.StoreThrew? ==>
        diaryDates == old(diaryDates) && effects == old(effects) + [Toast(ErrorNotice(MSG_DATES_FAILED, ""))]
    {
      match result
      case StoreError(m) =>
        effects := effects + [Toast(ErrorNotice(OrElse(m, MSG_DATES_FAILED), ""))];
      case StoreThrew =>
        effects := effects + [Toast(ErrorNotice(MSG_DATES_FAILED, ""))];
      case StoreData(data) =>
        diaryDates := data.GetOr([]);
    }

    /**
     * `handleDateSelect`. `lookup` is what `getDiaryByDate` answers for the
     * picked day's key. An undefined pick changes nothing; otherwise the day
     * is shown as selected, the lookup runs with the loading flag up, the
     * resolution decides the effect, and the loading flag ends down.
     */
    method HandleDateSelect(picked: Option<CalendarDay>, lookup: StoreResult<seq<Diary>>)
      modifies this`date, this`isLoading, this`selectedDiaries, this`isModalOpen, this`selectedDate,
               this`lookups, this`effects
      ensures picked.None? ==>
        && date == old(date) && isLoading == old(isLoading) && selectedDiaries == old(selectedDiaries)
        && isModalOpen == old(isModalOpen) && selectedDate == old(selectedDate)
        && lookups == old(lookups) && effects == old(effects)
      ensures picked.Some? ==>
        && date == picked && !isLoading
        && lookups == old(lookups) + [LookupCall(Format(picked.value), true)]
      ensures picked.Some? ==> match Resolve(lookup)
        case LookupFailed(m) =>
          && effects == old(effects) + [Toast(ErrorNotice(m, ""))]
          && selectedDiaries == old(selectedDiaries) && selectedDate == old(selectedDate) && isModalOpen == old(isModalOpen)
        case NoDiary =>
          && effects == old(effects) + [Toast(InfoNotice(MSG_NO_DIARY))]
          && selectedDiaries == old(selectedDiaries) && selectedDate == old(selectedDate) && isModalOpen == old(isModalOpen)
        case Resolved(id) =>
          && effects == old(effects) + [Push(DiaryPath(id))]
          && selectedDiaries == old(selectedDiaries) && selectedDate == old(selectedDate) && isModalOpen == old(isModalOpen)
        case Ambiguous(candidates) =>
          && effects == old(effects)
          && selectedDiaries == candidates && selectedDate == picked && isModalOpen
    {
      if picked.None? {
        return;
      }
      date := picked;
      isLoading := true;
      lookups := lookups + [LookupCall(Format(picked.value), isLoading)];
      match Resolve(lookup) {
        case LookupFailed(m) =>
          effects := effects + [Toast(ErrorNotice(m, ""))];
        case NoDiary =>
          effects := effects + [Toast(InfoNotice(MSG_NO_DIARY))];
        case Resolved(id) =>
          effects := effects + [Push(DiaryPath(id))];
        case Ambiguous(candidates) =>
          selectedDiaries := candidates;
          selectedDate := picked;
          isModalOpen := true;
      }
      isLoading := false;
    }

    /** `handleCloseModal`, also what dismissing the chooser does: the chooser closes and nothing else happens. */
    method HandleCloseModal()
      modifies this`isModalOpen
      ensures !isModalOpen
    {
      isModalOpen := false;
    }

    /** The chooser's `handleSelectDiary(id)` wired to `handleCloseModal`: open the diary's page, then close. */
    method SelectDiary(id: string)
      modifies this`isModalOpen, this`effects
      ensures effects == old(effects) + [Push(DiaryPath(id))] && !isModalOpen
    {
      effects := effects + [Push(DiaryPath(id))];
      HandleCloseModal();
    }
  }

  /**
   * Picking a day with several diaries and then choosing one of them opens
   * that diary, exactly as a day with only that diary would have done.
   */
  method PickThenChoose(p: CalendarPicker, day: CalendarDay, diaries: seq<Diary>, k: nat)
    requires 2 <= |diaries| && k < |diaries|
    modifies p
    ensures p.effects == old(p.effects) + [Push(DiaryPath(diaries[k].id))]
    ensures !p.isModalOpen && !p.isLoading && p.selectedDiaries == diaries
  {
    p.HandleDateSelect(Some(day), StoreData(Some(diaries)));
    assert p.isModalOpen && p.selectedDiaries == diaries;
    p.SelectDiary(p.selectedDiaries[k].id);
  }
}

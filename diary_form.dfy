/**
 * The diary editing form: its reducer over a six-field record, the initial
 * state, the required-fields check and the submit sequence that brackets the
 * save with the `isSubmitting` flag.
 */
module Form {
  import opened Wrappers
  import opened Effects
  import opened Diaries
  import Tags

  /** An option of the emotion or weather select: the stored value and its visible caption. */
  datatype SelectOption = SelectOption(value: string, caption: string)

  const EMOTION_OPTIONS: seq<SelectOption> := [
    SelectOption("happy", "😊 행복"),
    SelectOption("sad", "😢 슬픔"),
    SelectOption("angry", "😠 화남"),
    SelectOption("peaceful", "😌 평온"),
    SelectOption("excited", "🤗 설렘"),
    SelectOption("tired", "😫 피곤")
  ]

  const WEATHER_OPTIONS: seq<SelectOption> := [
    SelectOption("sunny", "☀️ 맑음"),
    SelectOption("cloudy", "☁️ 흐림"),
    SelectOption("rainy", "🌧️ 비"),
    SelectOption("snowy", "🌨️ 눈"),
    SelectOption("windy", "💨 바람")
  ]

  /** The form's selects offer exactly the tag tables' values with the same captions. */
  lemma OptionsMirrorTables()
    ensures |EMOTION_OPTIONS| == |Tags.EMOTIONS| && |WEATHER_OPTIONS| == |Tags.WEATHER|
    ensures forall i :: 0 <= i < |EMOTION_OPTIONS| ==>
      EMOTION_OPTIONS[i] == SelectOption(Tags.EMOTIONS[i].value, Tags.EMOTIONS[i].caption)
    ensures forall i :: 0 <= i < |WEATHER_OPTIONS| ==>
      WEATHER_OPTIONS[i] == SelectOption(Tags.WEATHER[i].value, Tags.WEATHER[i].caption)
  {
  }

  /** Whatever emotion the form's select stores, the list view finds a non-empty icon for it. */
  lemma EmotionOptionHasIcon(i: nat)
    requires i < |EMOTION_OPTIONS|
    ensures Tags.GetEmotionIcon(EMOTION_OPTIONS[i].value) != ""
  {
    OptionsMirrorTables();
    Tags.EmotionTableWellFormed();
    Tags.EmotionIconSpec("");
    assert Tags.GetEmotionIcon(Tags.EMOTIONS[i].value) == Tags.EMOTIONS[i].icon;
  }

  /** Whatever weather the form's select stores, the list view finds a non-empty icon for it. */
  lemma WeatherOptionHasIcon(i: nat)
    requires i < |WEATHER_OPTIONS|
    ensures Tags.GetWeatherIcon(WEATHER_OPTIONS[i].value) != ""
  {
    OptionsMirrorTables();
    Tags.WeatherTableWellFormed();
    Tags.WeatherIconSpec("");
    assert Tags.GetWeatherIcon(Tags.WEATHER[i].value) == Tags.WEATHER[i].icon;
  }

  datatype FormState = FormState(
    title: string,
    content: string,
    emotion: string,
    weather: string,
    diaryDate: string,
    isSubmitting: bool)

  /** The reducer's actions; `Unrecognised` stands for any other `type` tag reaching the `default` branch. */
  datatype FormAction =
    | SetTitle(text: string)
    | SetContent(text: string)
    | SetEmotion(text: string)
    | SetWeather(text: string)
    | SetDiaryDate(text: string)
    | SetSubmitting(flag: bool)
    | ResetForm
    | LoadDiary(diary: Diary)
    | Unrecognised(kind: string)

  /** The six fields of the form state, named so that frame properties can quantify over them. */
  datatype Field = Title | Content | Emotion | Weather | DiaryDate | Submitting

  datatype FieldValue = TextValue(text: string) | Flag(flag: bool)

  function Value(s: FormState, f: Field): FieldValue {
    match f
    case Title => TextValue(s.title)
    case Content => TextValue(s.content)
    case Emotion => TextValue(s.emotion)
    case Weather => TextValue(s.weather)
    case DiaryDate => TextValue(s.diaryDate)
    case Submitting => Flag(s.isSubmitting)
  }

  const ALL_FIELDS: set<Field> := {Title, Content, Emotion, Weather, DiaryDate, Submitting}

  /** The fields an action is allowed to write: a reference for the reducer's frame. */
  function Writes(a: FormAction): set<Field> {
    match a
    case SetTitle(_) => {Title}
    case SetContent(_) => {Content}
    case SetEmotion(_) => {Emotion}
    case SetWeather(_) => {Weather}
    case SetDiaryDate(_) => {DiaryDate}
    case SetSubmitting(_) => {Submitting}
    case ResetForm => ALL_FIELDS
    case LoadDiary(_) => ALL_FIELDS
    case Unrecognised(_) => {}
  }

  /**
   * `diaryFormReducer`. `today` stands for `new Date().toISOString().split('T')[0]`,
   * which RESET_FORM reads.
   */
  function Reduce(s: FormState, a: FormAction, today: string): (r: FormState)
    // nothing outside the action's fields changes
    ensures forall f :: f !in Writes(a) ==> Value(r, f) == Value(s, f)
    // a SET_* action stores its payload in its field
    ensures a.SetTitle? ==> r.title == a.text
    ensures a.SetContent? ==> r.content == a.text
    ensures a.SetEmotion? ==> r.emotion == a.text
    ensures a.SetWeather? ==> r.weather == a.text
    ensures a.SetDiaryDate? ==> r.diaryDate == a.text
    ensures a.SetSubmitting? ==> r.isSubmitting == a.flag
    // RESET_FORM: an empty form dated today, whatever came before
    ensures a.ResetForm? ==>
      forall f :: f in {Title, Content, Emotion, Weather} ==> Value(r, f) == TextValue("")
    ensures a.ResetForm? ==> r.diaryDate == today && !r.isSubmitting
    // LOAD_DIARY: the diary's four tags and texts and its diary date, not submitting
    ensures a.LoadDiary? ==>
      && r.title == a.diary.title && r.content == a.diary.content
      && r.emotion == a.diary.emotion && r.weather == a.diary.weather
      && r.diaryDate == a.diary.diary_date && !r.isSubmitting
  {
    match a
    case SetTitle(t) => s.(title := t)
    case SetContent(t) => s.(content := t)
    case SetEmotion(t) => s.(emotion := t)
    case SetWeather(t) => s.(weather := t)
    case SetDiaryDate(t) => s.(diaryDate := t)
    case SetSubmitting(b) => s.(isSubmitting := b)
    case ResetForm => FormState("", "", "", "", today, false)
    case LoadDiary(d) => FormState(d.title, d.content, d.emotion, d.weather, d.diary_date, false)
    case Unrecognised(_) => s
  }

  /** Every action is idempotent: dispatching it twice is the same as once. */
  lemma ReduceIdempotent(s: FormState, a: FormAction, today: string)
    ensures Reduce(Reduce(s, a, today), a, today) == Reduce(s, a, today)
  {
  }

  /** RESET_FORM and LOAD_DIARY forget the prior state entirely. */
  lemma ReduceForgetsPriorState(s: FormState, t: FormState, a: FormAction, today: string)
    requires a.ResetForm? || a.LoadDiary?
    ensures Reduce(s, a, today) == Reduce(t, a, today)
  {
  }

  /** Two actions writing disjoint fields commute. */
  lemma ReduceCommutes(s: FormState, a: FormAction, b: FormAction, today: string)
    requires Writes(a) !! Writes(b)
    ensures Reduce(Reduce(s, a, today), b, today) == Reduce(Reduce(s, b, today), a, today)
  {
  }

  /**
   * The state the component starts from: each field from `diary`, with `||`
   * falling back to '' (or, for the diary date, to `today`) when the diary is
   * absent or its field is empty.
   */
  function InitialState(diary: Option<Diary>, today: string): (r: FormState)
    ensures !r.isSubmitting
    ensures diary.None? ==> r == FormState("", "", "", "", today, false)
    ensures diary.Some? ==>
      && r.title == diary.value.title && r.content == diary.value.content
      && r.emotion == diary.value.emotion && r.weather == diary.value.weather
    ensures diary.Some? && diary.value.diary_date != "" ==> r.diaryDate == diary.value.diary_date
    ensures diary.Some? && diary.value.diary_date == "" ==> r.diaryDate == today
  {
    match diary
    case None => FormState("", "", "", "", today, false)
    case Some(d) => FormState(OrElse(d.title, ""), OrElse(d.content, ""), OrElse(d.emotion, ""),
                              OrElse(d.weather, ""), OrElse(d.diary_date, today), false)
  }

  /** Starting from a diary is the same as loading it, unless its diary date is empty. */
  lemma InitialStateIsLoad(d: Diary, s: FormState, today: string)
    requires d.diary_date != ""
    ensures InitialState(Some(d), today) == Reduce(s, LoadDiary(d), today)
  {
  }

  /** Without a diary the component starts from the reset form. */
  lemma InitialStateIsReset(s: FormState, today: string)
    ensures InitialState(None, today) == Reduce(s, ResetForm, today)
  {
  }

  /** The fields `isFormValid` demands; the diary date and the flag are not among them. */
  const REQUIRED: set<Field> := {Title, Content, Emotion, Weather}

  /** `isFormValid` (without its toast): every required field is non-empty. */
  function IsFormValid(s: FormState): (ok: bool)
    ensures ok <==> forall f :: f in REQUIRED ==> Value(s, f) != TextValue("")
  {
    !(s.title == "" || s.content == "" || s.emotion == "" || s.weather == "")
  }

  /** Validity never looks at the diary date or at the submitting flag. */
  lemma ValidityIgnoresDateAndFlag(s: FormState, date: string, flag: bool)
    ensures IsFormValid(s.(diaryDate := date, isSubmitting := flag)) == IsFormValid(s)
  {
    assert forall f :: f in REQUIRED ==> Value(s.(diaryDate := date, isSubmitting := flag), f) == Value(s, f);
  }

  /** A freshly reset form is never valid, so it cannot be submitted as is. */
  lemma ResetFormInvalid(s: FormState, today: string)
    ensures !IsFormValid(Reduce(s, ResetForm, today))
  {
    assert Title in REQUIRED;
  }

  const MSG_FILL_ALL := "모든 필드를 입력해주세요."
  const MSG_UPDATED := "일기가 수정되었습니다."
  const MSG_UPDATE_FAILED := "일기 수정 중 오류가 발생했습니다."
  const MSG_CREATED := "새 일기가 작성되었습니다."
  const MSG_CREATE_FAILED := "일기 작성 중 오류가 발생했습니다."
  const MSG_SAVE_THREW := "일기 저장 중 오류가 발생했습니다. 다시 시도해주세요."

  /** What `handleSaveDiary` sends to the server actions. */
  datatype SaveRequest =
    | UpdateRequest(id: string, title: string, content: string, emotion: string, weather: string, diaryDate: string)
    | CreateRequest(title: string, content: string, emotion: string, weather: string)

  /** The server action's reply: `{success: true}`, `{success: false, error}`, or a rejected promise. */
  datatype SaveOutcome = Saved | SaveFailed(error: string) | SaveThrew

  /** Editing an existing diary updates it by id with the diary date; otherwise a diary is created without one. */
  function RequestFor(s: FormState, diary: Option<Diary>, isEditing: bool): (r: SaveRequest)
    ensures r.UpdateRequest? <==> isEditing && diary.Some?
    ensures r.UpdateRequest? ==> r.id == diary.value.id && r.diaryDate == s.diaryDate
    ensures r.title == s.title && r.content == s.content && r.emotion == s.emotion && r.weather == s.weather
  {
    if isEditing && diary.Some? then
      UpdateRequest(diary.value.id, s.title, s.content, s.emotion, s.weather, s.diaryDate)
    else
      CreateRequest(s.title, s.content, s.emotion, s.weather)
  }

  /** The toasts and navigation `handleSaveDiary` performs once the save has answered. */
  function SaveEffects(req: SaveRequest, outcome: SaveOutcome): (log: seq<Effect>)
    // exactly one toast, first
    ensures 1 <= |log| && log[0].Toast?
    ensures forall i :: 1 <= i < |log| ==> !log[i].Toast?
    // it navigates, and then refreshes, exactly when the save succeeded
    ensures outcome.Saved? <==> |log| == 3
    ensures outcome.Saved? ==> log[0].notice.SuccessNotice? && log[2] == Refresh
    ensures outcome.Saved? && req.UpdateRequest? ==> log[1] == Push(DiaryPath(req.id))
    ensures outcome.Saved? && req.CreateRequest? ==> log[1] == Push("/")
    ensures outcome.Saved? && req.UpdateRequest? ==> log[0].notice.message == MSG_UPDATED
    ensures outcome.Saved? && req.CreateRequest? ==> log[0].notice.message == MSG_CREATED
    // a failure is one error toast, with no navigation: the action's message, or the default for the kind of save
    ensures !outcome.Saved? ==> |log| == 1 && log[0].notice.ErrorNotice? && log[0].notice.message != ""
    ensures !outcome.Saved? ==> log[0].notice.description == ""
    ensures outcome.SaveFailed? ==>
      log[0].notice.message == OrElse(outcome.error, if req.UpdateRequest? then MSG_UPDATE_FAILED else MSG_CREATE_FAILED)
    ensures outcome.SaveThrew? ==> log[0].notice.message == MSG_SAVE_THREW
  {
    match outcome
    case Saved =>
      if req.UpdateRequest? then [Toast(SuccessNotice(MSG_UPDATED)), Push(DiaryPath(req.id)), Refresh]
      else [Toast(SuccessNotice(MSG_CREATED)), Push("/"), Refresh]
    case SaveFailed(e) =>
      if req.UpdateRequest? then [Toast(ErrorNotice(OrElse(e, MSG_UPDATE_FAILED), ""))]
      else [Toast(ErrorNotice(OrElse(e, MSG_CREATE_FAILED), ""))]
    case SaveThrew => [Toast(ErrorNotice(MSG_SAVE_THREW, ""))]
  }

  /** One call to a server action, with the value of `isSubmitting` while it ran. */
  datatype SaveCall = SaveCall(request: SaveRequest, submitting: bool)

  /** The form component: its reducer state, the saves it has made and the effects it has performed. */
  class DiaryForm {
    const diary: Option<Diary>
    const isEditing: bool
    var state: FormState
    var saves: seq<SaveCall>
    var effects: seq<Effect>

    constructor (diary: Option<Diary>, isEditing: bool, today: string)
      ensures this.diary == diary && this.isEditing == isEditing
      ensures state == InitialState(diary, today)
      ensures saves == [] && effects == []
    {
      this.diary := diary;
      this.isEditing := isEditing;
      state := InitialState(diary, today);
      saves := [];
      effects := [];
    }

    /** `dispatch`. */
    method Dispatch(a: FormAction, today: string)
      modifies this`state
      ensures state == Reduce(old(state), a, today)
    {
      state := Reduce(state, a, today);
    }

    /**
     * The effect on `[diary, isEditing]`: it runs after mount and again after
     * every render in which either prop changed; each run, in edit mode, loads
     * the given diary into the form, replacing whatever was typed. One call is
     * one run of the effect.
     */
    method LoadDiaryEffect(today: string)
      modifies this`state
      ensures diary.Some? && isEditing ==> state == Reduce(old(state), LoadDiary(diary.value), today)
      ensures !(diary.Some? && isEditing) ==> state == old(state)
    {
      if diary.Some? && isEditing {
        Dispatch(LoadDiary(diary.value), today);
      }
    }

    /**
     * `handleSubmit`. An invalid form only shows the fill-in toast. A valid form
     * sets the flag, makes exactly one save with the flag up, performs the
     * save's effects and lowers the flag again; nothing else in the form changes.
     */
    method HandleSubmit(today: string, outcome: SaveOutcome)
      modifies this`state, this`saves, this`effects
      ensures !IsFormValid(old(state)) ==>
        && state == old(state) && saves == old(saves)
        && effects == old(effects) + [Toast(ErrorNotice(MSG_FILL_ALL, ""))]
      ensures IsFormValid(old(state)) ==>
        && state == old(state).(isSubmitting := false)
        && saves == old(saves) + [SaveCall(RequestFor(old(state), diary, isEditing), true)]
        && effects == old(effects) + SaveEffects(RequestFor(old(state), diary, isEditing), outcome)
    {
      if !IsFormValid(state) {
        effects := effects + [Toast(ErrorNotice(MSG_FILL_ALL, ""))];
        return;
      }
      var request := RequestFor(state, diary, isEditing);
      Dispatch(SetSubmitting(true), today);
      saves := saves + [SaveCall(request, state.isSubmitting)];
      effects := effects + SaveEffects(request, outcome);
      Dispatch(SetSubmitting(false), today);
    }
  }
}

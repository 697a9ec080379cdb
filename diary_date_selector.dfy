/**
 * The chooser shown when a day has several diaries: one button per diary, in
 * the order given, keyed by id, each showing the title, the creation time,
 * the emotion and the weather, under a line giving their number.
 */
module DateSelector {
  import opened Diaries

  /** One button of the chooser; `key` is the React key, `time` the formatted `created_at`. */
  datatype Choice = Choice(key: string, title: string, time: string, emotion: string, weather: string)

  datatype ChooserView = ChooserView(heading: string, count: nat, choices: seq<Choice>)

  /** The button offered for one diary; `formatTime` is date-fns' "a h:mm" rendering, taken as given. */
  function ChoiceFor(d: Diary, formatTime: string -> string): (c: Choice)
    ensures c.key == d.id && c.title == d.title && c.time == formatTime(d.created_at)
    ensures c.emotion == d.emotion && c.weather == d.weather
  {
    Choice(d.id, d.title, formatTime(d.created_at), d.emotion, d.weather)
  }

  /** `diaries.map(...)`: exactly one button per diary, in order. */
  function Choices(diaries: seq<Diary>, formatTime: string -> string): (cs: seq<Choice>)
    ensures |cs| == |diaries|
    ensures forall i :: 0 <= i < |diaries| ==>
      && cs[i].key == diaries[i].id && cs[i].title == diaries[i].title
      && cs[i].time == formatTime(diaries[i].created_at)
      && cs[i].emotion == diaries[i].emotion && cs[i].weather == diaries[i].weather
  {
    if diaries == [] then [] else [ChoiceFor(diaries[0], formatTime)] + Choices(diaries[1..], formatTime)
  }

  /** The chooser for the picked day; `heading` is the day as "yyyy년 MM월 dd일", taken as given. */
  function View(heading: string, diaries: seq<Diary>, formatTime: string -> string): (v: ChooserView)
    ensures v.count == |diaries| == |v.choices|
    ensures forall i :: 0 <= i < |diaries| ==> v.choices[i].key == diaries[i].id
  {
    ChooserView(heading, |diaries|, Choices(diaries, formatTime))
  }

  /** Every diary passed in can be chosen: its id is the key of some button, and only such ids are. */
  lemma ChoosableIds(diaries: seq<Diary>, formatTime: string -> string, id: string)
    ensures (exists c :: c in Choices(diaries, formatTime) && c.key == id)
        <==> (exists d :: d in diaries && d.id == id)
  {
    var cs := Choices(diaries, formatTime);
    if exists d :: d in diaries && d.id == id {
      var d :| d in diaries && d.id == id;
      var i :| 0 <= i < |diaries| && diaries[i] == d;
      assert cs[i] in cs;
    }
    if exists c :: c in cs && c.key == id {
      var c :| c in cs && c.key == id;
      var i :| 0 <= i < |cs| && cs[i] == c;
      assert diaries[i] in diaries;
    }
  }
}

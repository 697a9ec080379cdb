/**
 * The emotion and weather tag tables and their icon lookups
 * (`getEmotionIcon`, `getWeatherIcon`): `Array.find` by exact value, with
 * the empty string when nothing matches.
 */
module Tags {
  import opened Wrappers

  datatype TagOption = TagOption(value: string, caption: string, icon: string)

  const EMOTIONS: seq<TagOption> := [
    TagOption("happy", "😊 행복", "😊"),
    TagOption("sad", "😢 슬픔", "😢"),
    TagOption("angry", "😠 화남", "😠"),
    TagOption("peaceful", "😌 평온", "😌"),
    TagOption("excited", "🤗 설렘", "🤗"),
    TagOption("tired", "😫 피곤", "😫")
  ]

  const WEATHER: seq<TagOption> := [
    TagOption("sunny", "☀️ 맑음", "☀️"),
    TagOption("cloudy", "☁️ 흐림", "☁️"),
    TagOption("rainy", "🌧️ 비", "🌧️"),
    TagOption("snowy", "🌨️ 눈", "🌨️"),
    TagOption("windy", "💨 바람", "💨")
  ]

  /** No two entries of a table share a value. */
  ghost predicate DistinctValues(table: seq<TagOption>) {
    forall i, j :: 0 <= i < j < |table| ==> table[i].value != table[j].value
  }

  /** `table.find(e => e.value === v)`: the first entry whose value is exactly `v`. */
  function Find(table: seq<TagOption>, v: string): (r: Option<TagOption>)
    ensures r.None? <==> forall i :: 0 <= i < |table| ==> table[i].value != v
    ensures r.Some? ==> exists i :: 0 <= i < |table| && table[i] == r.value && table[i].value == v
                                    && forall j :: 0 <= j < i ==> table[j].value != v
  {
    if table == [] then None
    else if table[0].value == v then Some(table[0])
    else
      var r := Find(table[1..], v);
      assert r.Some? ==> exists i :: 1 <= i < |table| && table[i] == r.value && table[i].value == v
                                     && forall j :: 0 <= j < i ==> table[j].value != v by {
        if r.Some? {
          var k :| 0 <= k < |table[1..]| && table[1..][k] == r.value && table[1..][k].value == v
                   && forall j :: 0 <= j < k ==> table[1..][j].value != v;
          assert table[k + 1] == r.value;
          assert forall j :: 1 <= j < k + 1 ==> table[j].value != v by {
            forall j | 1 <= j < k + 1 ensures table[j].value != v {
              assert table[j] == table[1..][j - 1];
            }
          }
        }
      }
      r
  }

  /** The icon of the entry of `table` whose value is `v`, or "" when there is none. */
  function IconOf(table: seq<TagOption>, v: string): (icon: string)
    ensures icon == "" || exists i :: 0 <= i < |table| && icon == table[i].icon
  {
    match Find(table, v)
    case Some(e) => e.icon
    case None => ""
  }

  /** `getEmotionIcon`. */
  function GetEmotionIcon(emotionValue: string): (icon: string)
    ensures icon == "" || exists i :: 0 <= i < |EMOTIONS| && icon == EMOTIONS[i].icon
  {
    IconOf(EMOTIONS, emotionValue)
  }

  /** `getWeatherIcon`. */
  function GetWeatherIcon(weatherValue: string): (icon: string)
    ensures icon == "" || exists i :: 0 <= i < |WEATHER| && icon == WEATHER[i].icon
  {
    IconOf(WEATHER, weatherValue)
  }

  /** In a table with distinct values the first match is the only match: each value gets its own icon. */
  lemma IconOfEntry(table: seq<TagOption>, i: nat)
    requires DistinctValues(table)
    requires i < |table|
    ensures IconOf(table, table[i].value) == table[i].icon
  {
    var r := Find(table, table[i].value);
    var k :| 0 <= k < |table| && table[k] == r.value && table[k].value == table[i].value
             && forall j :: 0 <= j < k ==> table[j].value != table[i].value;
  }

  /** A value missing from the table has no icon; a value in it has its entry's icon, which is never "". */
  lemma IconOfMissing(table: seq<TagOption>, v: string)
    requires forall i :: 0 <= i < |table| ==> table[i].icon != ""
    ensures IconOf(table, v) == "" <==> forall i :: 0 <= i < |table| ==> table[i].value != v
  {
    var r := Find(table, v);
    if r.Some? {
      var k :| 0 <= k < |table| && table[k] == r.value && table[k].value == v
               && forall j :: 0 <= j < k ==> table[j].value != v;
      assert table[k].icon != "";
    }
  }

  /** With distinct values and non-empty icons, the lookup is exactly "the icon of the matching entry, else ''". */
  lemma IconOfSpec(table: seq<TagOption>, v: string)
    requires DistinctValues(table)
    requires forall i :: 0 <= i < |table| ==> table[i].icon != ""
    ensures forall i :: 0 <= i < |table| ==> IconOf(table, table[i].value) == table[i].icon
    ensures IconOf(table, v) == "" <==> forall i :: 0 <= i < |table| ==> table[i].value != v
  {
    forall i | 0 <= i < |table| ensures IconOf(table, table[i].value) == table[i].icon {
      IconOfEntry(table, i);
    }
    IconOfMissing(table, v);
  }

  /** The emotion values are pairwise distinct and every icon is non-empty. */
  lemma EmotionTableWellFormed()
    ensures DistinctValues(EMOTIONS)
    ensures forall i :: 0 <= i < |EMOTIONS| ==> EMOTIONS[i].icon != ""
  {
  }

  /** The weather values are pairwise distinct and every icon is non-empty. */
  lemma WeatherTableWellFormed()
    ensures DistinctValues(WEATHER)
    ensures forall i :: 0 <= i < |WEATHER| ==> WEATHER[i].icon != ""
  {
  }

  /** Every emotion in the table maps to its own icon; anything else, however close, maps to "". */
  lemma EmotionIconSpec(v: string)
    ensures forall i :: 0 <= i < |EMOTIONS| ==> GetEmotionIcon(EMOTIONS[i].value) == EMOTIONS[i].icon
    ensures GetEmotionIcon(v) == "" <==> forall i :: 0 <= i < |EMOTIONS| ==> EMOTIONS[i].value != v
  {
    EmotionTableWellFormed();
    IconOfSpec(EMOTIONS, v);
  }

  /** Every weather in the table maps to its own icon; anything else maps to "". */
  lemma WeatherIconSpec(v: string)
    ensures forall i :: 0 <= i < |WEATHER| ==> GetWeatherIcon(WEATHER[i].value) == WEATHER[i].icon
    ensures GetWeatherIcon(v) == "" <==> forall i :: 0 <= i < |WEATHER| ==> WEATHER[i].value != v
  {
    WeatherTableWellFormed();
    IconOfSpec(WEATHER, v);
  }

  /** Matching is exact: a capitalised value is not an emotion or a weather. */
  lemma CapitalisedValueHasNoIcon()
    ensures GetEmotionIcon("Happy") == "" && GetWeatherIcon("Sunny") == ""
  {
    forall i | 0 <= i < |EMOTIONS| ensures EMOTIONS[i].value != "Happy" {
      assert EMOTIONS[i].value[0] != "Happy"[0];
    }
    forall i | 0 <= i < |WEATHER| ensures WEATHER[i].value != "Sunny" {
      assert WEATHER[i].value[0] != "Sunny"[0];
    }
    EmotionIconSpec("Happy");
    WeatherIconSpec("Sunny");
  }
}

/** The diary record as the entry store returns it, and the route of its page. */
module Diaries {
  /** One row of the `diary` table; timestamps and the diary date are strings as the store sends them. */
  datatype Diary = Diary(
    id: string,
    title: string,
    content: string,
    emotion: string,
    weather: string,
    created_at: string,
    updated_at: string,
    diary_date: string)

  const DIARY_ROUTE := "/diary/"

  /** The page of one diary, `/diary/<id>`. */
  function DiaryPath(id: string): (p: string)
    ensures |p| == |DIARY_ROUTE| + |id|
    ensures p[..|DIARY_ROUTE|] == DIARY_ROUTE && p[|DIARY_ROUTE|..] == id
  {
    DIARY_ROUTE + id
  }

  /** Distinct ids get distinct pages, so navigation identifies the diary. */
  lemma DiaryPathInjective(a: string, b: string)
    ensures DiaryPath(a) == DiaryPath(b) ==> a == b
  {
    if DiaryPath(a) == DiaryPath(b) {
      assert a == DiaryPath(a)[|DIARY_ROUTE|..];
    }
  }
}

/**
 * The observable effects of the UI handlers: toast notices and router calls.
 * Handlers append them, in the order the source performs them, to an effect log.
 */
module Effects {
  /** A toast: `toast.success`, `toast.info` or `toast.error` (the latter with an optional description). */
  datatype Notice =
    | SuccessNotice(message: string)
    | InfoNotice(message: string)
    | ErrorNotice(message: string, description: string)

  datatype Effect =
    | Toast(notice: Notice)
    | Push(url: string)  // router.push
    | Refresh            // router.refresh

  /** JavaScript's `s || fallback` on strings: the empty string is falsy. */
  function OrElse(s: string, fallback: string): (r: string)
    ensures r == s || r == fallback
    ensures r == "" ==> s == "" && fallback == ""
    ensures s != "" ==> r == s
    ensures s == "" ==> r == fallback
  {
    if s != "" then s else fallback
  }
}

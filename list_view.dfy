/**
 * The three-way choice both list pages make when rendering: a spinner while
 * loading, an empty-state message when the filtered list is empty, and one
 * item per filtered entry otherwise.
 */
module ListView {
  datatype View<T> = Spinner | NothingFound | Items(items: seq<T>)

  function Select<T>(loading: bool, filtered: seq<T>): (v: View<T>)
    ensures v.Spinner? <==> loading
    ensures v.NothingFound? <==> !loading && |filtered| == 0
    ensures v.Items? <==> !loading && |filtered| > 0
    ensures v.Items? ==> v.items == filtered
  {
    if loading then Spinner
    else if |filtered| == 0 then NothingFound
    else Items(filtered)
  }
}

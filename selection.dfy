/**
 * `ZoomableImageViewModel`: the state shared by every thumbnail and the
 * detail overlay of one scope. The thumbnails and the overlay update its
 * fields directly; it has no methods of its own.
 */
module Selection {
  import opened Common

  class ViewModel {
    /** The image shown in the detail view, once a thumbnail has handed it over. */
    var imageSelected: Option<Image>
    /** The id of the tapped thumbnail; at most one at a time. */
    var imageIdSelected: Option<string>
    /** Whether the detail view is presented. */
    var presentingImage: bool

    constructor ()
      ensures imageSelected == None && imageIdSelected == None && !presentingImage
    {
      imageSelected := None;
      imageIdSelected := None;
      presentingImage := false;
    }
  }

  /** The selection after a thumbnail with id `id` is tapped: the tap only takes effect while nothing is selected. */
  function AfterTap(selected: Option<string>, id: string): (r: Option<string>)
    ensures r.Some?
    ensures selected.Some? ==> r == selected
    ensures selected.None? ==> r == Some(id)
  {
    if selected.None? then Some(id) else selected
  }

  /** The selection after the thumbnails `ids` are tapped in turn. */
  function AfterTaps(selected: Option<string>, ids: seq<string>): Option<string>
    decreases |ids|
  {
    if ids == [] then selected else AfterTaps(AfterTap(selected, ids[0]), ids[1..])
  }

  /** Single-flight selection: whatever is tapped, the first selection stands until it is cleared. */
  lemma {:induction false} FirstTapWins(selected: Option<string>, ids: seq<string>)
    ensures selected.Some? ==> AfterTaps(selected, ids) == selected
    ensures selected.None? && ids != [] ==> AfterTaps(selected, ids) == Some(ids[0])
    ensures selected.None? && ids == [] ==> AfterTaps(selected, ids) == None
    decreases |ids|
  {
    if ids != [] {
      FirstTapWins(AfterTap(selected, ids[0]), ids[1..]);
    }
  }
}

/**
 * The two thumbnail views. Each shares the scope's view model; a tap
 * selects the thumbnail's id if nothing is selected, and when the selected
 * id becomes the thumbnail's own, the thumbnail hands its image to the view
 * model and starts the presentation.
 */
module Thumbnails {
  import opened Common
  import opened Fetch
  import opened Selection

  /** `ZoomableSquareImageViaAsyncFn`: a thumbnail whose image comes from an async function. */
  class AsyncFnThumbnail {
    const vm: ViewModel
    const id: string
    var state: FnState
    var tasksInFlight: nat

    /** The fetch state as a value of the `Fetch` state machine. */
    function Snapshot(): Loader
      reads this
    {
      Loader(state, tasksInFlight)
    }

    ghost predicate Valid()
      reads this
    {
      Fetch.Valid(Snapshot())
    }

    constructor (vm: ViewModel, id: string)
      ensures this.vm == vm && this.id == id
      ensures Valid() && Snapshot() == Initial
    {
      this.vm := vm;
      this.id := id;
      state := NotCalledYet;
      tasksInFlight := 0;
    }

    /** The progress view's `onAppear`: starts a task that sets `calling`, unless the fetch has ended. */
    method Appear() returns (started: bool)
      requires Valid()
      modifies this
      ensures Valid()
      ensures started <==> !old(state).IsTerminal()
      ensures Snapshot() == OnAppear(old(Snapshot()))
    {
      started := !state.IsTerminal();
      if started {
        state := Calling;
        tasksInFlight := tasksInFlight + 1;
      }
    }

    /** A started task's `await async_fn()` returns `result`. */
    method FetchReturned(result: Option<Image>)
      requires Valid() && tasksInFlight > 0
      modifies this
      ensures Valid()
      ensures Snapshot() == OnReturn(old(Snapshot()), result)
    {
      match result {
        case Some(image) => state := FinishedWith(image);
        case None => state := Failed;
      }
      tasksInFlight := tasksInFlight - 1;
    }

    /** The tap handler, which exists only once the image has loaded. */
    method Tap()
      modifies vm
      ensures state.FinishedWith? ==> vm.imageIdSelected == AfterTap(old(vm.imageIdSelected), id)
      ensures !state.FinishedWith? ==> vm.imageIdSelected == old(vm.imageIdSelected)
      ensures vm.imageSelected == old(vm.imageSelected) && vm.presentingImage == old(vm.presentingImage)
    {
      if state.FinishedWith? && vm.imageIdSelected.None? {
        vm.imageIdSelected := Some(id);
      }
    }

    /** The loaded image's `onChange(of: imageIdSelected)`: present this image when its id is the selected one. */
    method SelectionChanged()
      modifies vm
      ensures vm.imageIdSelected == old(vm.imageIdSelected)
      ensures state.FinishedWith? && vm.imageIdSelected == Some(id) ==>
        vm.imageSelected == Some(state.image) && vm.presentingImage
      ensures !(state.FinishedWith? && vm.imageIdSelected == Some(id)) ==>
        vm.imageSelected == old(vm.imageSelected) && vm.presentingImage == old(vm.presentingImage)
    {
      if state.FinishedWith? && vm.imageIdSelected == Some(id) {
        vm.imageSelected := Some(state.image);
        vm.presentingImage := true;
      }
    }

    /** The loaded thumbnail is hidden while it is the selected one, so only the detail view shows its image. */
    function Opacity(): (r: real)
      reads this, vm
      ensures r == 0.0 || r == 1.0
      ensures r == 0.0 <==> state.FinishedWith? && vm.imageIdSelected == Some(id)
    {
      if state.FinishedWith? && vm.imageIdSelected == Some(id) then 0.0 else 1.0
    }
  }

  /**
   * `ZoomableSquareAsyncImage`: a thumbnail loaded from a URL, identified by
   * the URL's string. `loaded` is the image `AsyncImage` has delivered;
   * while it is `None` (loading, or failed for good) the progress view shows
   * and no `onChange` handler exists, but the tap handler on the outer view
   * is live all along.
   */
  class UrlThumbnail {
    const vm: ViewModel
    const url: string
    var loaded: Option<Image>

    constructor (vm: ViewModel, url: string)
      ensures this.vm == vm && this.url == url && loaded == None
    {
      this.vm := vm;
      this.url := url;
      loaded := None;
    }

    /** `AsyncImage` delivers `image`: the content closure, with its `onChange` handler, replaces the progress view. */
    method Loaded(image: Image)
      modifies this
      ensures loaded == Some(image)
    {
      loaded := Some(image);
    }

    method Tap()
      modifies vm
      ensures vm.imageIdSelected == AfterTap(old(vm.imageIdSelected), url)
      ensures vm.imageSelected == old(vm.imageSelected) && vm.presentingImage == old(vm.presentingImage)
    {
      if vm.imageIdSelected.None? {
        vm.imageIdSelected := Some(url);
      }
    }

    /**
     * `onChange(of: imageIdSelected)` on the loaded image: present it when
     * the URL is the selected id. Before the image has loaded the handler
     * does not exist, so nothing happens.
     */
    method SelectionChanged()
      modifies vm
      ensures vm.imageIdSelected == old(vm.imageIdSelected)
      ensures loaded.Some? && vm.imageIdSelected == Some(url) ==> vm.imageSelected == loaded && vm.presentingImage
      ensures !(loaded.Some? && vm.imageIdSelected == Some(url)) ==>
        vm.imageSelected == old(vm.imageSelected) && vm.presentingImage == old(vm.presentingImage)
    {
      if loaded.Some? && vm.imageIdSelected == Some(url) {
        vm.imageSelected := loaded;
        vm.presentingImage := true;
      }
    }

    /** The thumbnail is hidden while it is the selected one, loaded or not. */
    function Opacity(): (r: real)
      reads vm
      ensures r == 0.0 || r == 1.0
      ensures r == 0.0 <==> vm.imageIdSelected == Some(url)
    {
      if vm.imageIdSelected == Some(url) then 0.0 else 1.0
    }
  }
}

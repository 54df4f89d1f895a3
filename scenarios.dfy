/**
 * End-to-end runs of the thumbnails and the overlay sharing one view model,
 * as a client sees them through the methods' contracts.
 */
module Scenarios {
  import opened Common
  import opened Transform
  import opened Selection
  import opened Thumbnails
  import opened Overlay

  /** Tap a thumbnail whose fetch has succeeded and let its onChange handler present it. */
  method Present(overlay: DetailOverlay, thumb: AsyncFnThumbnail, image: Image)
    requires overlay.Valid() && thumb.Valid() && thumb.vm == overlay.vm
    requires overlay.IsIdentity() && thumb.tasksInFlight == 0 && thumb.state.NotCalledYet?
    requires overlay.vm.imageIdSelected == None && !overlay.vm.presentingImage
    modifies overlay.vm, thumb
    ensures overlay.vm.imageIdSelected == Some(thumb.id)
    ensures overlay.vm.imageSelected == Some(image) && overlay.vm.presentingImage
    ensures thumb.Valid() && thumb.state == Fetch.FinishedWith(image)
  {
    var started := thumb.Appear();
    thumb.FetchReturned(Some(image));
    thumb.Tap();
    thumb.SelectionChanged();
  }

  /** A drag released 250 points away fades the background out completely and dismisses. */
  method DragFarDismisses() returns (selected: Option<string>, presenting: bool, identity: bool)
    ensures selected == None && !presenting && identity
  {
    var overlay := new DetailOverlay();
    var thumb := new AsyncFnThumbnail(overlay.vm, "A");
    Present(overlay, thumb, Image(1));
    overlay.DragChanged(Size(0.0, 250.0));
    assert overlay.offset == Size(0.0, 250.0);
    var scheduled := overlay.DragEnded(250.0);
    assert scheduled;
    overlay.CompleteDismiss();
    selected, presenting, identity := overlay.vm.imageIdSelected, overlay.vm.presentingImage, overlay.IsIdentity();
  }

  /** A drag released 30 points away leaves the background at 0.85 and springs back, still presenting. */
  method DragNearSpringsBack() returns (selected: Option<string>, presenting: bool, identity: bool)
    ensures selected == Some("B") && presenting && identity
  {
    var overlay := new DetailOverlay();
    var thumb := new AsyncFnThumbnail(overlay.vm, "B");
    Present(overlay, thumb, Image(2));
    overlay.DragChanged(Size(0.0, 30.0));
    assert BackgroundOpacity(true, 30.0) == 0.85;
    var scheduled := overlay.DragEnded(30.0);
    assert !scheduled;
    selected, presenting, identity := overlay.vm.imageIdSelected, overlay.vm.presentingImage, overlay.IsIdentity();
  }

  /**
   * A pinch through magnifications 1.0, 1.5 and 1.2 about (0.8, 0.5) ends
   * zoomed to 1.2 with the offset and the anchor left as they were; a drag
   * is then ignored.
   */
  method PinchThenDrag() returns (zoom: real, offset: Size, anchor: UnitPoint)
    ensures zoom == 1.2 && offset == Zero && anchor == UnitPoint(0.8, 0.5)
  {
    var overlay := new DetailOverlay();
    var thumb := new AsyncFnThumbnail(overlay.vm, "C");
    Present(overlay, thumb, Image(3));
    overlay.MagnifyChanged(1.0, UnitPoint(0.8, 0.5));
    overlay.MagnifyChanged(1.5, UnitPoint(0.8, 0.5));
    overlay.MagnifyChanged(1.2, UnitPoint(0.8, 0.5));
    overlay.MagnifyEnded();
    overlay.DragChanged(Size(10.0, 10.0));
    zoom, offset, anchor := overlay.zoomScale, overlay.offset, overlay.scaleAnchor;
  }

  /** While one thumbnail is selected, tapping another changes nothing and does not present it. */
  method SecondTapIgnored() returns (selected: Option<string>, shown: Option<Image>)
    ensures selected == Some("A") && shown == Some(Image(1))
  {
    var overlay := new DetailOverlay();
    var a := new AsyncFnThumbnail(overlay.vm, "A");
    var b := new UrlThumbnail(overlay.vm, "B");
    Present(overlay, a, Image(1));
    b.Loaded(Image(2));
    b.Tap();
    b.SelectionChanged();
    selected, shown := overlay.vm.imageIdSelected, overlay.vm.imageSelected;
  }

  /**
   * A URL thumbnail tapped before its image has loaded takes the selection
   * and hides itself, but no handler presents it: the detail view never
   * appears, and dismissing does nothing since nothing is presented. When
   * the image then loads, its `onChange` handler does not fire, because the
   * selected id does not change again. The selection stays stuck.
   */
  method TapBeforeLoadSticks() returns (selected: Option<string>, shown: Option<Image>, presenting: bool, hidden: bool)
    ensures selected == Some("U") && shown == None && !presenting && hidden
  {
    var overlay := new DetailOverlay();
    var b := new UrlThumbnail(overlay.vm, "U");
    b.Tap();
    b.SelectionChanged();
    var scheduled := overlay.DismissDetailView();
    assert !scheduled;
    b.Loaded(Image(4));
    selected, shown, presenting := overlay.vm.imageIdSelected, overlay.vm.imageSelected, overlay.vm.presentingImage;
    hidden := b.Opacity() == 0.0;
  }

  /**
   * A drag and a pinch that overlap: the drag moves the image 100 points,
   * a pinch commits a zoom of 1.5 before the drag is released, and the
   * release is then ignored because the image is zoomed. The offset stays,
   * so the image is drawn at the drag shrink 0.9 rather than the zoom 1.5,
   * and a further drag is ignored too.
   */
  method DragThenPinchStrandsOffset() returns (offset: Size, zoom: real, drawn: real, presenting: bool)
    ensures offset == Size(0.0, 100.0) && zoom == 1.5 && drawn == 0.9 && presenting
  {
    var overlay := new DetailOverlay();
    var thumb := new AsyncFnThumbnail(overlay.vm, "D");
    Present(overlay, thumb, Image(5));
    overlay.DragChanged(Size(0.0, 100.0));
    overlay.MagnifyChanged(1.5, Center);
    overlay.MagnifyEnded();
    var scheduled := overlay.DragEnded(100.0);
    overlay.DragChanged(Size(0.0, 0.0));
    offset, zoom, presenting := overlay.offset, overlay.zoomScale, overlay.vm.presentingImage;
    assert IsDistance(overlay.offset, 100.0);
    drawn := CombinedScale(presenting, 100.0, zoom, overlay.currentZoomScale);
  }
}

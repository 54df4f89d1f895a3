/**
 * `WithZoomableDetailViewOverlay`: the full-screen detail view laid over
 * the thumbnails, and the gesture handlers that move, shrink, zoom and
 * dismiss it.
 *
 * Animations are left out: each handler sets the values its animation
 * ends at. The completion block of `dismissDetailView`, which runs once
 * the dismiss animation has finished, is the separate method
 * `CompleteDismiss`.
 */
module Overlay {
  import opened Common
  import opened Transform
  import opened Selection

  class DetailOverlay {
    const vm: ViewModel
    var offset: Size
    var zoomScale: real
    var currentZoomScale: real
    var dragIsTracking: bool
    var scaleAnchor: UnitPoint

    /** The committed zoom never drops below 1: pinch end floors it, every reset sets it to 1. */
    ghost predicate Valid()
      reads this
    {
      zoomScale >= 1.0
    }

    /** The transform the detail view rests at. */
    predicate IsIdentity()
      reads this
    {
      offset == Zero && zoomScale == 1.0 && currentZoomScale == 0.0 && scaleAnchor == Center
    }

    constructor ()
      ensures Valid() && IsIdentity() && !dragIsTracking
      ensures fresh(vm)
      ensures vm.imageSelected == None && vm.imageIdSelected == None && !vm.presentingImage
    {
      vm := new ViewModel();
      offset := Zero;
      zoomScale := 1.0;
      currentZoomScale := 0.0;
      dragIsTracking := false;
      scaleAnchor := Center;
    }

    /**
     * `dismissDetailView`: when presenting, ends the presentation and resets
     * the transform; the completion step is then due. Otherwise nothing.
     */
    method DismissDetailView() returns (completionScheduled: bool)
      requires Valid()
      modifies this, vm
      ensures Valid()
      ensures completionScheduled == old(vm.presentingImage)
      ensures !vm.presentingImage
      ensures completionScheduled ==> IsIdentity()
      ensures !completionScheduled ==>
        offset == old(offset) && zoomScale == old(zoomScale) &&
        currentZoomScale == old(currentZoomScale) && scaleAnchor == old(scaleAnchor)
      ensures dragIsTracking == old(dragIsTracking)
      ensures vm.imageSelected == old(vm.imageSelected) && vm.imageIdSelected == old(vm.imageIdSelected)
    {
      completionScheduled := vm.presentingImage;
      if vm.presentingImage {
        vm.presentingImage := false;
        offset := Zero;
        zoomScale := 1.0;
        currentZoomScale := 0.0;
        scaleAnchor := Center;
      }
    }

    /** The completion block of the dismiss animation: clears the selection, so another thumbnail can be tapped. */
    method CompleteDismiss()
      modifies vm
      ensures vm.imageSelected == None && vm.imageIdSelected == None
      ensures vm.presentingImage == old(vm.presentingImage)
    {
      vm.imageSelected := None;
      vm.imageIdSelected := None;
    }

    /** A drag sample with cumulative `translation`. Ignored while zoomed. */
    method DragChanged(translation: Size)
      requires Valid()
      modifies this
      ensures Valid()
      ensures old(zoomScale) != 1.0 ==> unchanged(this)
      ensures old(zoomScale) == 1.0 ==>
        dragIsTracking &&
        offset == (if vm.presentingImage then translation else old(offset)) &&
        zoomScale == old(zoomScale) && currentZoomScale == old(currentZoomScale) && scaleAnchor == old(scaleAnchor)
    {
      if zoomScale != 1.0 {
        return;
      }
      dragIsTracking := true;
      if vm.presentingImage {
        offset := translation;
      }
    }

    /**
     * The end of a drag; `distance` is the length of the current offset.
     * Ignored while zoomed. Otherwise, when presenting, dismisses if the
     * background has faded below 0.8 and springs back to the identity
     * transform if not.
     */
    method DragEnded(distance: real) returns (completionScheduled: bool)
      requires Valid() && IsDistance(offset, distance)
      modifies this, vm
      ensures Valid()
      ensures vm.imageSelected == old(vm.imageSelected) && vm.imageIdSelected == old(vm.imageIdSelected)
      ensures old(zoomScale) != 1.0 ==>
        unchanged(this) && vm.presentingImage == old(vm.presentingImage) && !completionScheduled
      ensures old(zoomScale) == 1.0 && !old(vm.presentingImage) ==>
        !dragIsTracking && offset == old(offset) && zoomScale == old(zoomScale) &&
        currentZoomScale == old(currentZoomScale) && scaleAnchor == old(scaleAnchor) &&
        !vm.presentingImage && !completionScheduled
      ensures old(zoomScale) == 1.0 && old(vm.presentingImage) ==>
        !dragIsTracking && IsIdentity() &&
        (completionScheduled <==> BackgroundOpacity(true, distance) < DismissOpacity) &&
        (completionScheduled <==> SquaredLength(old(offset)) > 1600.0) &&
        vm.presentingImage == !completionScheduled
    {
      if zoomScale != 1.0 {
        return false;
      }
      DismissThreshold(offset, distance);
      dragIsTracking := false;
      completionScheduled := false;
      if vm.presentingImage {
        if BackgroundOpacity(vm.presentingImage, distance) < DismissOpacity {
          completionScheduled := DismissDetailView();
        } else {
          offset := Zero;
          zoomScale := 1.0;
          currentZoomScale := 0.0;
          scaleAnchor := Center;
        }
      }
    }

    /** A pinch sample: the live zoom is the magnification minus one, pivoting on the pinch's start point. */
    method MagnifyChanged(magnification: real, startAnchor: UnitPoint)
      requires Valid()
      modifies this
      ensures Valid()
      ensures currentZoomScale == magnification - 1.0 && scaleAnchor == startAnchor
      ensures offset == old(offset) && zoomScale == old(zoomScale) && dragIsTracking == old(dragIsTracking)
    {
      currentZoomScale := magnification - 1.0;
      scaleAnchor := startAnchor;
    }

    /** The end of a pinch: the live zoom is added to the committed zoom, which is floored at 1. */
    method MagnifyEnded()
      requires Valid()
      modifies this
      ensures Valid()
      ensures currentZoomScale == 0.0
      ensures zoomScale == Max(1.0, old(zoomScale + currentZoomScale))
      ensures old(zoomScale + currentZoomScale) >= 1.0 ==> zoomScale + currentZoomScale == old(zoomScale + currentZoomScale)
      ensures offset == old(offset) && scaleAnchor == old(scaleAnchor) && dragIsTracking == old(dragIsTracking)
    {
      zoomScale := zoomScale + currentZoomScale;
      currentZoomScale := 0.0;
      if zoomScale < 1.0 {
        zoomScale := 1.0;
      }
    }

    /** A tap on the detail view takes the dismiss path. */
    method TapDetail() returns (completionScheduled: bool)
      requires Valid()
      modifies this, vm
      ensures Valid()
      ensures completionScheduled == old(vm.presentingImage)
      ensures !vm.presentingImage
      ensures completionScheduled ==> IsIdentity()
      ensures !completionScheduled ==>
        offset == old(offset) && zoomScale == old(zoomScale) &&
        currentZoomScale == old(currentZoomScale) && scaleAnchor == old(scaleAnchor)
      ensures dragIsTracking == old(dragIsTracking)
      ensures vm.imageSelected == old(vm.imageSelected) && vm.imageIdSelected == old(vm.imageIdSelected)
    {
      completionScheduled := DismissDetailView();
    }
  }
}

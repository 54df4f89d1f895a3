/** Values shared by the thumbnails, the view model and the detail overlay. */
module Common {

  /** Swift's optional: `nil` or a wrapped value. */
  datatype Option<+T> = None | Some(value: T)

  /** A SwiftUI `Image`. The model never looks inside an image; the handle only tells images apart. */
  datatype Image = Image(handle: nat)
}

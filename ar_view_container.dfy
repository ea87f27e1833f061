/**
 * The single-furniture container that preceded the view model: one anchor
 * holding a bookshelf and its preview.  While in preview mode the anchor
 * follows the ray-cast hit and its rotation can be set; toggling switches between the
 * preview and the placed bookshelf.
 */
module Container {
  import opened Wrappers
  import opened Frameworks

  class ARViewContainer {
    var isFurniturePreview: bool
    /** `isEnabled` of the scene's full bookshelf and of its preview. */
    var bookshelfEnabled: bool
    var bookshelfPreviewEnabled: bool
    /** The first child of the furniture scene, holding both models. */
    const furnitureAnchor: AnchorEntity

    /** Exactly one of the two models shows: the preview while in preview mode, the bookshelf otherwise. */
    ghost predicate Valid()
      reads this
    {
      bookshelfEnabled == !isFurniturePreview && bookshelfPreviewEnabled == isFurniturePreview
    }

    /**
     * `init()` followed by `makeUIView`: preview mode with the full bookshelf
     * disabled; the preview keeps the enabled state it is loaded with.
     */
    constructor (bookshelf: EntityId, preview: EntityId, anchorTransform: Transform)
      ensures Valid() && fresh(furnitureAnchor)
      ensures isFurniturePreview && !bookshelfEnabled && bookshelfPreviewEnabled
      ensures furnitureAnchor.name == "Furniture Anchor"
      ensures furnitureAnchor.content == PlacedFurniture(bookshelf, preview)
      ensures furnitureAnchor.transform == anchorTransform
    {
      isFurniturePreview := true;
      bookshelfPreviewEnabled := true;
      bookshelfEnabled := false;
      furnitureAnchor := new AnchorEntity("Furniture Anchor", PlacedFurniture(bookshelf, preview), anchorTransform);
    }

    /** `session(_:didUpdate:)`: in preview mode with normal tracking and a hit, the anchor moves there and keeps its rotation. */
    method SessionDidUpdate(trackingState: TrackingState, hit: Option<Transform>)
      modifies furnitureAnchor`transform
      ensures trackingState == Normal && isFurniturePreview && hit.Some? ==>
        furnitureAnchor.transform == hit.value.(rotation := old(furnitureAnchor.transform.rotation))
      ensures !(trackingState == Normal && isFurniturePreview && hit.Some?) ==>
        furnitureAnchor.transform == old(furnitureAnchor.transform)
    {
      match trackingState
      case Normal =>
        if isFurniturePreview {
          if hit.None? {
            return;
          }
          var rotation := furnitureAnchor.transform.rotation;
          furnitureAnchor.transform := hit.value;
          furnitureAnchor.transform := furnitureAnchor.transform.(rotation := rotation);
        }
      case NotAvailable =>
        return;
      case Limited(_) =>
        return;
    }

    /** `toggleFurnitures()`: flips both models' visibility and the mode. */
    method ToggleFurnitures()
      requires Valid()
      modifies this`bookshelfEnabled, this`bookshelfPreviewEnabled, this`isFurniturePreview
      ensures Valid()
      ensures bookshelfEnabled == !old(bookshelfEnabled)
      ensures bookshelfPreviewEnabled == !old(bookshelfPreviewEnabled)
      ensures isFurniturePreview == !old(isFurniturePreview)
    {
      bookshelfEnabled := !bookshelfEnabled;
      bookshelfPreviewEnabled := !bookshelfPreviewEnabled;
      isFurniturePreview := !isFurniturePreview;
    }

    /** Toggling twice puts back the mode and both models' visibility. */
    method ToggleFurnituresTwice()
      requires Valid()
      modifies this`bookshelfEnabled, this`bookshelfPreviewEnabled, this`isFurniturePreview
      ensures Valid()
      ensures bookshelfEnabled == old(bookshelfEnabled) && bookshelfPreviewEnabled == old(bookshelfPreviewEnabled)
      ensures isFurniturePreview == old(isFurniturePreview)
    {
      ToggleFurnitures();
      ToggleFurnitures();
    }

    /** `setFurnitureRotation(angle:)`: in preview mode only, sets the anchor's rotation to `AboutY(-angle)`, keeping its position. */
    method SetFurnitureRotation(angle: real)
      modifies furnitureAnchor`transform
      ensures isFurniturePreview ==>
        furnitureAnchor.transform == old(furnitureAnchor.transform).(rotation := AboutY(-angle))
      ensures !isFurniturePreview ==> furnitureAnchor.transform == old(furnitureAnchor.transform)
    {
      if isFurniturePreview {
        furnitureAnchor.transform := furnitureAnchor.transform.(rotation := AboutY(-angle));
      }
    }
  }
}

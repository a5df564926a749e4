/**
 * The gallery grid and its lightbox. Two cells: the image chosen for the
 * lightbox and whether the dialog is open. The dialog itself is a foreign
 * component; the model covers only the handlers the gallery hands to it and
 * assumes it shows its content exactly while `open` is true.
 */
module Lightbox {
  import opened Wrappers

  /** An image of the gallery; `src` names the imported asset. */
  datatype GalleryImage = GalleryImage(src: string, alt: string)

  /** Six tiles, all showing the same imported photo. The tiles are keyed by position. */
  const GalleryImages: seq<GalleryImage> := [
    GalleryImage("food1", "Delicious dish"),
    GalleryImage("food1", "Delicious dish"),
    GalleryImage("food1", "Delicious dish"),
    GalleryImage("food1", "Delicious dish"),
    GalleryImage("food1", "Delicious dish"),
    GalleryImage("food1", "Delicious dish")
  ]

  lemma GalleryImagesShape()
    ensures |GalleryImages| == 6
    ensures forall k :: 0 <= k < |GalleryImages| ==> GalleryImages[k] == GalleryImage("food1", "Delicious dish")
  {
  }

  /** What the lightbox shows: nothing, an open dialog without an image, or an open dialog with one. */
  datatype LightboxView = Closed | OpenEmpty | OpenWith(image: GalleryImage)

  /** The view for a pair of cells: the dialog content renders only when an image is selected. */
  function ViewOf(isOpen: bool, selectedImage: Option<GalleryImage>): (r: LightboxView)
    ensures r == Closed <==> !isOpen
    ensures r == OpenEmpty <==> isOpen && selectedImage.None?
    ensures r.OpenWith? <==> isOpen && selectedImage.Some?
    ensures r.OpenWith? ==> selectedImage == Some(r.image)
  {
    if !isOpen then Closed
    else match selectedImage
      case None => OpenEmpty
      case Some(image) => OpenWith(image)
  }

  class Gallery {
    const images: seq<GalleryImage>
    var selectedImage: Option<GalleryImage>
    var isOpen: bool

    /** An open dialog always has an image to show. */
    predicate Consistent()
      reads this
    {
      isOpen ==> selectedImage.Some?
    }

    constructor ()
      ensures images == GalleryImages
      ensures selectedImage == None && !isOpen
      ensures Consistent()
    {
      images := GalleryImages;
      selectedImage, isOpen := None, false;
    }

    /** A click on tile `k`: select its image and open the dialog. */
    method ClickImage(k: nat)
      requires k < |images|
      modifies this
      ensures selectedImage == Some(images[k]) && isOpen
      ensures Consistent()
    {
      selectedImage := Some(images[k]);
      isOpen := true;
    }

    /** The dialog's `onOpenChange(open)`: record `open`; closing also clears the selection. */
    method OnOpenChange(open: bool)
      modifies this
      ensures isOpen == open
      ensures selectedImage == if open then old(selectedImage) else None
      ensures !open ==> Consistent()
      ensures open ==> (Consistent() <==> old(selectedImage).Some?)
    {
      isOpen := open;
      if !open {
        selectedImage := None;
      }
    }

    /** The close button inside the dialog: closes it but keeps the selection. */
    method CloseButton()
      modifies this
      ensures !isOpen
      ensures selectedImage == old(selectedImage)
      ensures Consistent()
    {
      isOpen := false;
    }

    function Render(): (r: LightboxView)
      reads this
      ensures Consistent() ==> r != OpenEmpty
      ensures r == Closed <==> !isOpen
      ensures r.OpenWith? <==> isOpen && selectedImage.Some?
      ensures r.OpenWith? ==> selectedImage == Some(r.image)
    {
      ViewOf(isOpen, selectedImage)
    }
  }

  // ---------------------------------------------------------------------------
  // Scenarios

  /** Opening a tile and dismissing the dialog; dismissing twice is the same as once. */
  method DismissScenario(k: nat)
    requires k < |GalleryImages|
  {
    var g := new Gallery();
    assert g.Render() == Closed;
    g.ClickImage(k);
    assert g.Render() == OpenWith(GalleryImages[k]);
    g.OnOpenChange(false);
    assert !g.isOpen && g.selectedImage == None;
    g.OnOpenChange(false);
    assert !g.isOpen && g.selectedImage == None;
  }

  /** The close button leaves the last image selected until the next tile click replaces it. */
  method CloseButtonScenario(i: nat, j: nat)
    requires i < |GalleryImages| && j < |GalleryImages|
  {
    var g := new Gallery();
    g.ClickImage(i);
    g.CloseButton();
    assert g.selectedImage == Some(GalleryImages[i]) && g.Render() == Closed;
    g.ClickImage(j);
    assert g.Render() == OpenWith(GalleryImages[j]);
  }
}

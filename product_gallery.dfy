/**
 * The image gallery of `src/components/product/ProductGallery.tsx`: the
 * index of the main image, cycled by the previous / next arrows and set by
 * the thumbnails, and the zoom toggle. The main image is
 * `images[currentImage]`, so the gallery needs at least one image.
 */
module ProductGallery {
  import opened ProductData

  /** `(prev + 1) % images.length`; both operands are non-negative, so `%` agrees with JavaScript's. */
  function NextIndex(i: int, n: int): (r: int)
    requires 0 <= i < n
    ensures 0 <= r < n
    ensures i + 1 < n ==> r == i + 1
    ensures i + 1 == n ==> r == 0
  {
    (i + 1) % n
  }

  /** `(prev - 1 + images.length) % images.length` */
  function PrevIndex(i: int, n: int): (r: int)
    requires 0 <= i < n
    ensures 0 <= r < n
    ensures 0 < i ==> r == i - 1
    ensures i == 0 ==> r == n - 1
  {
    (i - 1 + n) % n
  }

  /** Next then previous, or previous then next, comes back to the same image. */
  lemma NextPrevInverse(i: int, n: int)
    requires 0 <= i < n
    ensures PrevIndex(NextIndex(i, n), n) == i
    ensures NextIndex(PrevIndex(i, n), n) == i
  {
  }

  /** The index after `k` presses of the next arrow. */
  function Advance(i: int, n: int, k: nat): (r: int)
    requires 0 <= i < n
    ensures 0 <= r < n
  {
    if k == 0 then i else NextIndex(Advance(i, n, k - 1), n)
  }

  /** Up to a full cycle, `k` presses of the next arrow move `k` places, wrapping past the last image once. */
  lemma {:induction false} AdvanceWithinCycle(i: int, n: int, k: nat)
    requires 0 <= i < n && k <= n
    ensures Advance(i, n, k) == if i + k < n then i + k else i + k - n
  {
    if k > 0 {
      AdvanceWithinCycle(i, n, k - 1);
    }
  }

  /** As many presses of the next arrow as there are images come back to the start. */
  lemma FullCycle(i: int, n: int)
    requires 0 <= i < n
    ensures Advance(i, n, n) == i
  {
    AdvanceWithinCycle(i, n, n);
  }

  /** The gallery's state. */
  class Gallery {
    const images: seq<ProductImage>
    var currentImage: int
    var isZoomed: bool

    ghost predicate Valid()
      reads this
    {
      0 <= currentImage < |images|
    }

    constructor (images: seq<ProductImage>)
      requires |images| > 0
      ensures this.images == images && currentImage == 0 && !isZoomed && Valid()
    {
      this.images := images;
      currentImage := 0;
      isZoomed := false;
    }

    /** The image shown large. */
    function MainImage(): (image: ProductImage)
      requires Valid()
      reads this
      ensures image in images
    {
      images[currentImage]
    }

    /** `nextImage` */
    method NextImage()
      requires Valid()
      modifies this
      ensures currentImage == NextIndex(old(currentImage), |images|) && Valid()
      ensures isZoomed == old(isZoomed)
    {
      currentImage := (currentImage + 1) % |images|;
    }

    /** `previousImage` */
    method PreviousImage()
      requires Valid()
      modifies this
      ensures currentImage == PrevIndex(old(currentImage), |images|) && Valid()
      ensures isZoomed == old(isZoomed)
    {
      currentImage := (currentImage - 1 + |images|) % |images|;
    }

    /** Clicking the thumbnail at `index` shows that image. */
    method SelectThumbnail(index: int)
      requires Valid() && 0 <= index < |images|
      modifies this
      ensures currentImage == index && Valid() && MainImage() == images[index]
      ensures isZoomed == old(isZoomed)
    {
      currentImage := index;
    }

    /** `handleZoom` */
    method HandleZoom()
      modifies this
      ensures isZoomed == !old(isZoomed)
      ensures currentImage == old(currentImage)
    {
      isZoomed := !isZoomed;
    }
  }

  /** Two zoom clicks restore the zoom state and keep the image. */
  method ZoomTwice(gallery: Gallery)
    requires gallery.Valid()
    modifies gallery
    ensures gallery.isZoomed == old(gallery.isZoomed)
    ensures gallery.currentImage == old(gallery.currentImage)
  {
    gallery.HandleZoom();
    gallery.HandleZoom();
  }
}

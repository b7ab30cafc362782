/**
 * The gallery page: sixteen images given a category by id, a category
 * filter, and a lightbox showing one image at a time.
 */
module Gallery {
  import opened Common

  /** A gallery image; the image is named by its photo id. */
  datatype GalleryImage = GalleryImage(id: int, alt: string, image: string)

  /** An image with the category the page gives it. */
  datatype CategorizedImage = CategorizedImage(id: int, alt: string, image: string, category: string)

  /** The eight images of the shared table followed by the eight added on this page. */
  const ExtendedGalleryImages: seq<GalleryImage> := [
    GalleryImage(1, "Modern interior design", "photo-1600607687939-ce8a6c25118c"),
    GalleryImage(2, "Contemporary building facade", "photo-1511818966892-d7d671e672a2"),
    GalleryImage(3, "Architectural blueprint", "photo-1580332449086-43d6ab233610"),
    GalleryImage(4, "Modern office reception area", "photo-1515263487990-61b07816b324"),
    GalleryImage(5, "Modern home exterior", "photo-1416331108676-a22ccb276e35"),
    GalleryImage(6, "Minimalist kitchen design", "photo-1556912172-45b7abe8b7e1"),
    GalleryImage(7, "Hand drawn architectural sketch", "photo-1474377207190-a7d8b3334068"),
    GalleryImage(8, "Unique architectural detail", "photo-1565538810643-b5bdb714032a"),
    GalleryImage(9, "Modern skyscraper with glass facade", "photo-1492321936769-b49830bc1d1e"),
    GalleryImage(10, "Luxury residential bathroom", "photo-1560448204-e02f11c3d0e2"),
    GalleryImage(11, "Contemporary office hallway", "photo-1564069114553-7215e1ff1890"),
    GalleryImage(12, "Rooftop garden on urban building", "photo-1533786581596-e7e075683b78"),
    GalleryImage(13, "Modern apartment building exterior", "photo-1605276374104-dee2a0ed3cd6"),
    GalleryImage(14, "Minimalist living room interior", "photo-1600210492493-0946911123ea"),
    GalleryImage(15, "Green building with vertical garden", "photo-1518709766631-a6a7f45921c3"),
    GalleryImage(16, "Modern hotel lobby design", "photo-1519167758481-83f550bb49b3")
  ]

  const InteriorIds: seq<int> := [3, 7, 10, 14, 16]
  const ExteriorIds: seq<int> := [2, 5, 9, 13, 15]
  const CommercialIds: seq<int> := [4, 11, 12]
  const ResidentialIds: seq<int> := [1, 6, 8]

  /** The if-chain of `categorizedGallery`: the first list holding the id decides, and "exterior" is the default. */
  function CategoryOf(id: int): string {
    if id in InteriorIds then "interior"
    else if id in ExteriorIds then "exterior"
    else if id in CommercialIds then "commercial"
    else if id in ResidentialIds then "residential"
    else "exterior"
  }

  /**
   * The four lists are disjoint, so the order of the tests does not matter:
   * an image is in a category exactly when its id is in that category's list,
   * and "exterior" also takes every id in no list.
   */
  lemma CategoryOfSpec(id: int)
    ensures CategoryOf(id) == "interior" <==> id in InteriorIds
    ensures CategoryOf(id) == "commercial" <==> id in CommercialIds
    ensures CategoryOf(id) == "residential" <==> id in ResidentialIds
    ensures CategoryOf(id) == "exterior" <==> id !in InteriorIds && id !in CommercialIds && id !in ResidentialIds
    ensures CategoryOf(id) in {"interior", "exterior", "commercial", "residential"}
  {
  }

  function Count(b: bool): nat {
    if b then 1 else 0
  }

  /** The four lists are pairwise disjoint and together hold exactly the ids 1 to 16. */
  lemma IdListsPartition(id: int)
    ensures Count(id in InteriorIds) + Count(id in ExteriorIds) + Count(id in CommercialIds) +
            Count(id in ResidentialIds) == (if 1 <= id <= 16 then 1 else 0)
  {
  }

  /** One image with its category. */
  function Categorize(image: GalleryImage): (c: CategorizedImage)
    ensures c.id == image.id && c.alt == image.alt && c.image == image.image
    ensures c.category == CategoryOf(image.id)
  {
    CategorizedImage(image.id, image.alt, image.image, CategoryOf(image.id))
  }

  /** `categorizedGallery`. */
  function CategorizedGallery(images: seq<GalleryImage>): (r: seq<CategorizedImage>)
    ensures |r| == |images|
    ensures forall i :: 0 <= i < |images| ==>
      r[i].id == images[i].id && r[i].alt == images[i].alt && r[i].image == images[i].image &&
      r[i].category == CategoryOf(images[i].id)
  {
    Map(images, Categorize)
  }

  /** `filteredImages`: every image for "all", otherwise the images of that category. */
  function FilterImages(gallery: seq<CategorizedImage>, filter: string): seq<CategorizedImage>
  {
    if filter == "all" then gallery else Filter(gallery, (g: CategorizedImage) => g.category == filter)
  }

  /** A category filter over the categorized gallery keeps exactly the images whose id the category claims. */
  lemma FilterImagesByCategory(images: seq<GalleryImage>, filter: string, i: nat)
    requires filter != "all" && i < |images|
    ensures Categorize(images[i]) in FilterImages(CategorizedGallery(images), filter) <==> CategoryOf(images[i].id) == filter
  {
    var gallery := CategorizedGallery(images);
    assert gallery[i] == Categorize(images[i]);
    FilterMembership(gallery, (g: CategorizedImage) => g.category == filter, Categorize(images[i]));
  }

  /** The page's state: the active filter and the image in the lightbox, if any. */
  class GalleryPage {
    var activeFilter: string
    var lightboxImage: Option<string>

    constructor ()
      ensures activeFilter == "all" && lightboxImage == None
    {
      activeFilter := "all";
      lightboxImage := None;
    }

    /** A filter button. */
    method SetActiveFilter(filter: string)
      modifies this
      ensures activeFilter == filter && lightboxImage == old(lightboxImage)
    {
      activeFilter := filter;
    }

    /** The images the grid shows. */
    function Shown(): seq<CategorizedImage>
      reads this
    {
      FilterImages(CategorizedGallery(ExtendedGalleryImages), activeFilter)
    }

    /** The lightbox is drawn only for a non-empty image source. */
    predicate LightboxOpen()
      reads this
    {
      lightboxImage.Some? && lightboxImage.value != ""
    }

    /** `openLightbox`: the clicked image fills the lightbox. */
    method OpenLightbox(src: string)
      modifies this
      ensures lightboxImage == Some(src) && activeFilter == old(activeFilter)
      ensures LightboxOpen() <==> src != ""
    {
      lightboxImage := Some(src);
    }

    /** `closeLightbox`. */
    method CloseLightbox()
      modifies this
      ensures lightboxImage == None && !LightboxOpen() && activeFilter == old(activeFilter)
    {
      lightboxImage := None;
    }
  }
}

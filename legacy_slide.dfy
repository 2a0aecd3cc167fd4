/**
 * The legacy carousel slide (code/model/CarouselSlide.php): a stored record that
 * `fromItem` overwrites, field by field, from a page offered by a list source.
 */
module LegacySlide {
  import opened Common

  /**
   * The part of a page that `fromItem` reads. `MetaImageCaption` is present exactly
   * when the page answers `HasMetaImageCaption()`, and `MetaImage` holds the ID of the
   * meta image exactly when the page answers `HasMetaImage()`.
   */
  datatype Page = Page(
    ID: int,
    MetaTitle: string,
    MetaImageCaption: Option<string>,
    MetaSummary: string,
    MetaImage: Option<int>)

  /** The stored fields of a slide; a PHP null string is the empty string. */
  datatype SlideFields = SlideFields(
    Title: string,
    Caption: string,
    ImageID: int,
    LinkPageID: int,
    CarouselID: int,
    Disabled: bool)

  /** The fields of a slide that has just been created and not yet written to. */
  function NewSlide(): SlideFields
  {
    SlideFields("", "", 0, 0, 0, false)
  }

  /**
   * What `fromItem` makes of a slide: the fields it writes, from the page and the
   * carousel's ID; every other field, and the image when the page has none, kept.
   */
  function FromItemFields(before: SlideFields, item: Page, carouselID: int): (after: SlideFields)
    ensures after.Title == item.MetaTitle
    ensures item.MetaImageCaption.Some? ==> after.Caption == item.MetaImageCaption.value
    ensures item.MetaImageCaption.None? ==> after.Caption == item.MetaSummary
    ensures item.MetaImage.Some? ==> after.ImageID == item.MetaImage.value
    ensures item.MetaImage.None? ==> after.ImageID == before.ImageID
    ensures after.LinkPageID == item.ID && after.CarouselID == carouselID
    ensures after.Disabled == before.Disabled
  {
    before.(
      Title := item.MetaTitle,
      Caption := if item.MetaImageCaption.Some? then item.MetaImageCaption.value else item.MetaSummary,
      ImageID := if item.MetaImage.Some? then item.MetaImage.value else before.ImageID,
      LinkPageID := item.ID,
      CarouselID := carouselID)
  }

  /**
   * Applying `fromItem` twice with the same page and carousel is the same as applying it
   * once: every field it writes depends only on the page and the carousel, except the
   * image, which it either overwrites or keeps.
   */
  lemma FromItemIdempotent(s: SlideFields, item: Page, carouselID: int)
    ensures FromItemFields(FromItemFields(s, item, carouselID), item, carouselID)
         == FromItemFields(s, item, carouselID)
  {
  }

  class CarouselSlide {
    var Title: string
    var Caption: string
    var ImageID: int
    var LinkPageID: int
    var CarouselID: int
    var Disabled: bool

    /** The slide's stored fields as one value. */
    function Fields(): SlideFields
      reads this
    {
      SlideFields(Title, Caption, ImageID, LinkPageID, CarouselID, Disabled)
    }

    /** `CarouselSlide::create()`: a slide with every field at its default. */
    constructor ()
      ensures Fields() == NewSlide()
    {
      Title, Caption, ImageID, LinkPageID, CarouselID, Disabled := "", "", 0, 0, 0, false;
    }

    /**
     * Defines the receiver from the page `item` for the carousel whose ID is `carouselID`,
     * and answers the receiver itself.
     */
    method FromItem(item: Page, carouselID: int) returns (self: CarouselSlide)
      modifies this
      ensures self == this
      ensures Fields() == FromItemFields(old(Fields()), item, carouselID)
    {
      Title := item.MetaTitle;
      if item.MetaImageCaption.Some? {
        Caption := item.MetaImageCaption.value;
      } else {
        Caption := item.MetaSummary;
      }
      if item.MetaImage.Some? {
        ImageID := item.MetaImage.value;
      }
      LinkPageID := item.ID;
      CarouselID := carouselID;
      self := this;
    }
  }
}

/**
 * The current carousel slide (src/Model/CarouselSlide.php): the class names a template
 * asks of a slide, and the slides a plain slide contributes to its carousel.
 */
module Slides {

  /** How a slide links: the link modes of the link extension a slide carries. */
  datatype LinkMode = NoMode | PageMode | URLMode

  /** The fields of a slide that the carousel reads or writes, as one value. */
  datatype SlideView = SlideView(
    Title: string,
    ImageID: int,
    Caption: string,
    ParentID: int,
    HideTitle: bool,
    HideCaption: bool,
    LinkTo: LinkMode,
    LinkURL: string,
    LinkDisabled: bool,
    OpenLinkInNewTab: bool)

  class CarouselSlide {
    var Title: string
    var ImageID: int
    var Caption: string
    var ParentID: int
    var HideTitle: bool
    var HideCaption: bool
    var LinkTo: LinkMode
    var LinkURL: string
    var LinkDisabled: bool
    var OpenLinkInNewTab: bool
    /** What the inherited `isEnabled()` answers for this slide. */
    var Enabled: bool

    function View(): SlideView
      reads this
    {
      SlideView(Title, ImageID, Caption, ParentID, HideTitle, HideCaption,
                LinkTo, LinkURL, LinkDisabled, OpenLinkInNewTab)
    }

    /**
     * `CarouselSlide::create([...])` with the six given fields; the link fields keep their
     * defaults (no mode, no URL, link enabled, same tab) and the new slide is enabled.
     */
    constructor (title: string, imageID: int, caption: string, parentID: int,
                 hideTitle: bool, hideCaption: bool)
      ensures View() == SlideView(title, imageID, caption, parentID, hideTitle, hideCaption,
                                  NoMode, "", false, false)
      ensures Enabled
    {
      Title, ImageID, Caption, ParentID := title, imageID, caption, parentID;
      HideTitle, HideCaption := hideTitle, hideCaption;
      LinkTo, LinkURL, LinkDisabled, OpenLinkInNewTab := NoMode, "", false, false;
      Enabled := true;
    }

    /**
     * The class names of the slide element: the inherited names for the slide's position
     * (`inherited`), then the `carousel.item` style, then the `carousel.item-active` style
     * for the first slide only. Whether the slide is in the middle or last adds nothing here.
     */
    method SlideClassNames(inherited: seq<string>, style: string -> string, isFirst: bool)
      returns (classes: seq<string>)
      ensures |classes| == |inherited| + (if isFirst then 2 else 1)
      ensures classes[..|inherited|] == inherited
      ensures classes[|inherited|] == style("carousel.item")
      ensures isFirst ==> classes[|inherited| + 1] == style("carousel.item-active")
    {
      classes := inherited;
      classes := classes + [style("carousel.item")];
      if isFirst {
        classes := classes + [style("carousel.item-active")];
      }
    }

    /**
     * The class names of the slide image: the inherited names, then the styles for
     * `image.fluid` and `carousel.image`, as the `styles` lookup answers them.
     */
    function ImageClassNames(inherited: seq<string>, styles: seq<string> -> seq<string>): (classes: seq<string>)
      ensures |classes| == |inherited| + |styles(["image.fluid", "carousel.image"])|
      ensures classes[..|inherited|] == inherited
      ensures classes[|inherited|..] == styles(["image.fluid", "carousel.image"])
    {
      inherited + styles(["image.fluid", "carousel.image"])
    }

    /** The class names of the caption: the inherited names, then the `carousel.caption` styles. */
    function CaptionClassNames(inherited: seq<string>, styles: seq<string> -> seq<string>): (classes: seq<string>)
      ensures |classes| == |inherited| + |styles(["carousel.caption"])|
      ensures classes[..|inherited|] == inherited
      ensures classes[|inherited|..] == styles(["carousel.caption"])
    {
      inherited + styles(["carousel.caption"])
    }

    /** The slides this slide contributes: itself when it is enabled, and nothing otherwise. */
    method EnabledSlides() returns (slides: seq<CarouselSlide>)
      ensures Enabled ==> slides == [this]
      ensures !Enabled ==> slides == []
    {
      slides := [];
      if Enabled {
        slides := slides + [this];
      }
    }
  }

  /** The views of a run of slides, in order. */
  function Views(slides: seq<CarouselSlide>): (r: seq<SlideView>)
    reads slides
    ensures |r| == |slides|
    ensures forall i | 0 <= i < |slides| :: r[i] == slides[i].View()
  {
    if slides == [] then [] else [slides[0].View()] + Views(slides[1..])
  }

  /** The views of two runs of slides put together are the views of each run, in order. */
  lemma ViewsConcat(a: seq<CarouselSlide>, b: seq<CarouselSlide>)
    ensures Views(a + b) == Views(a) + Views(b)
  {
  }
}

/**
 * The current carousel component (src/Components/CarouselComponent.php): the slides it
 * gathers from its children, when it is disabled, and what its template and wrapper
 * element are given.
 */
module Components {
  import opened Common
  import opened Slides
  import opened ListSources

  /**
   * The stored fields of a carousel. Boolean database fields are stored as integers
   * (0 or 1), as the `(boolean)` casts read them; a PHP null string is the empty string.
   */
  datatype Carousel = Carousel(
    SlideInterval: int,
    HeadingLevel: string,
    ShowControls: int,
    ShowIndicators: int,
    ShowIcons: int,
    HideTitle: int)

  /** A child of the carousel: a plain slide, or a list source that makes slides. */
  datatype Child = SlideChild(slide: CarouselSlide) | SourceChild(source: ListSource)

  /** The value of an HTML attribute: a string or an integer. */
  datatype AttrValue = Text(s: string) | Number(n: int)

  type Attributes = map<string, AttrValue>

  /** A carousel as created: the configured defaults, with no heading level set. */
  function Defaults(): (c: Carousel)
    ensures c.SlideInterval == 5000 && c.HideTitle == 1 && c.ShowIcons == 1
    ensures ControlsShown(c) && IndicatorsShown(c)
    ensures HeadingTag(c).None?
  {
    Carousel(5000, "", 1, 1, 1, 1)
  }

  /** The heading tag: the heading level when it is set to a true value, and nothing otherwise. */
  function HeadingTag(c: Carousel): (tag: Option<string>)
    ensures tag.Some? <==> Truthy(c.HeadingLevel)
    ensures tag.Some? ==> tag.value == c.HeadingLevel
  {
    if Truthy(c.HeadingLevel) then Some(c.HeadingLevel) else None
  }

  /** Whether the template shows the controls: the stored flag, cast to a boolean. */
  function ControlsShown(c: Carousel): (shown: bool)
    ensures shown <==> c.ShowControls != 0
  {
    c.ShowControls != 0
  }

  /** Whether the template shows the indicators: the stored flag, cast to a boolean. */
  function IndicatorsShown(c: Carousel): (shown: bool)
    ensures shown <==> c.ShowIndicators != 0
  {
    c.ShowIndicators != 0
  }

  /**
   * The class of an indicator: the `carousel.indicator-active` style for the first
   * indicator, and the empty string for every other.
   */
  function IndicatorClass(isFirst: bool, style: string -> string): (cls: string)
    ensures isFirst ==> cls == style("carousel.indicator-active")
    ensures !isFirst ==> cls == ""
  {
    if isFirst then style("carousel.indicator-active") else ""
  }

  /** The id of the wrapper element: the component's HTML id with "_Wrapper" after it. */
  function WrapperID(htmlID: string): (id: string)
    ensures |id| == |htmlID| + 8
    ensures id[..|htmlID|] == htmlID && id[|htmlID|..] == "_Wrapper"
  {
    htmlID + "_Wrapper"
  }

  /** The slides a child contributes. */
  function ChildSlides(child: Child): seq<SlideView>
    reads if child.SlideChild? then {child.slide} else {}
  {
    match child
    case SlideChild(s) => if s.Enabled then [s.View()] else []
    case SourceChild(src) => CreatedViews(src, src.ListItems)
  }

  /** The plain slides among the children. */
  function SlideObjects(children: seq<Child>): set<CarouselSlide>
  {
    set c | c in children && c.SlideChild? :: c.slide
  }

  /** The slides of the children, each child's in turn, in child order. */
  function ExpectedSlides(children: seq<Child>): seq<SlideView>
    reads SlideObjects(children)
  {
    if children == [] then []
    else ChildSlides(children[0]) + ExpectedSlides(children[1..])
  }

  /** Gathering slides from two runs of children is gathering from each run, in order. */
  lemma {:induction false} ExpectedSlidesAppend(a: seq<Child>, b: seq<Child>)
    ensures ExpectedSlides(a + b) == ExpectedSlides(a) + ExpectedSlides(b)
  {
    if a == [] {
      assert a + b == b;
    } else {
      assert (a + b)[0] == a[0];
      assert (a + b)[1..] == a[1..] + b;
      ExpectedSlidesAppend(a[1..], b);
    }
  }

  /** The carousel has no slides exactly when no child contributes any. */
  lemma {:induction false} NoSlidesIffNoChildContributes(children: seq<Child>)
    ensures ExpectedSlides(children) == []
        <==> forall i | 0 <= i < |children| :: ChildSlides(children[i]) == []
  {
    if children != [] {
      NoSlidesIffNoChildContributes(children[1..]);
      assert forall i | 1 <= i < |children| :: children[i] == children[1..][i - 1];
    }
  }

  /**
   * The enabled slides of the carousel: the enabled slides of each child, in child order.
   * A plain slide contributes itself when enabled; a list source contributes a new slide
   * for every list item with a meta image.
   */
  method EnabledSlides(children: seq<Child>) returns (slides: seq<CarouselSlide>)
    ensures Views(slides) == ExpectedSlides(children)
  {
    slides := [];
    for i := 0 to |children|
      invariant Views(slides) == ExpectedSlides(children[..i])
    {
      assert forall o | o in SlideObjects(children[..i]) :: allocated(o);
      var part := ChildEnabledSlides(children[i]);
      ExpectedSlidesStep(children, i);
      ViewsConcat(slides, part);
      slides := slides + part;
    }
    assert children[..|children|] == children;
  }

  /** The enabled slides one child contributes. */
  method ChildEnabledSlides(child: Child) returns (part: seq<CarouselSlide>)
    ensures Views(part) == ChildSlides(child)
  {
    match child {
      case SlideChild(s) =>
        part := s.EnabledSlides();
      case SourceChild(src) =>
        part := ListSources.EnabledSlides(src);
    }
  }

  /** One more child: its slides come after those of the children before it. */
  lemma ExpectedSlidesStep(children: seq<Child>, i: nat)
    requires i < |children|
    ensures ExpectedSlides(children[..i + 1]) == ExpectedSlides(children[..i]) + ChildSlides(children[i])
  {
    ExpectedSlidesAppend(children[..i], [children[i]]);
    assert children[..i + 1] == children[..i] + [children[i]];
    assert [children[i]][1..] == [];
  }

  /**
   * The carousel is disabled when it has no enabled slides, and otherwise as the
   * inherited `isDisabled()` answers (`inheritedDisabled`).
   */
  method IsDisabled(children: seq<Child>, inheritedDisabled: bool) returns (disabled: bool)
    ensures disabled <==> ExpectedSlides(children) == [] || inheritedDisabled
  {
    var slides := EnabledSlides(children);
    if slides == [] {
      return true;
    }
    return inheritedDisabled;
  }

  /** The wrapper's data attributes before any extension updates them. */
  function BaseDataAttributes(c: Carousel): (attrs: Attributes)
    ensures attrs.Keys == {"data-ride", "data-interval"}
    ensures attrs["data-ride"] == Text("carousel")
    ensures attrs["data-interval"] == Number(c.SlideInterval)
  {
    map["data-ride" := Text("carousel"), "data-interval" := Number(c.SlideInterval)]
  }

  /** The wrapper's own attributes before any extension updates them. */
  function BaseWrapperAttributes(htmlID: string, wrapperClass: string): (attrs: Attributes)
    ensures attrs.Keys == {"id", "class"}
    ensures attrs["id"] == Text(WrapperID(htmlID)) && attrs["class"] == Text(wrapperClass)
  {
    map["id" := Text(WrapperID(htmlID)), "class" := Text(wrapperClass)]
  }

  /**
   * PHP's `array_merge` of two arrays with string keys: every key of either, with the value
   * of the second where both have it.
   */
  function ArrayMerge(first: Attributes, second: Attributes): (merged: Attributes)
    ensures merged.Keys == first.Keys + second.Keys
    ensures forall k | k in second :: merged[k] == second[k]
    ensures forall k | k in first && k !in second :: merged[k] == first[k]
  {
    first + second
  }

  /**
   * The data attributes of the wrapper: `data-ride` and `data-interval`, as the
   * `updateWrapperDataAttributes` extensions (`update`) leave them.
   */
  method WrapperDataAttributes(c: Carousel, update: Attributes -> Attributes) returns (attrs: Attributes)
    ensures attrs == update(BaseDataAttributes(c))
  {
    attrs := map["data-ride" := Text("carousel")];
    attrs := attrs["data-interval" := Number(c.SlideInterval)];
    attrs := update(attrs);
  }

  /**
   * The attributes of the wrapper: its id and class as the `updateWrapperAttributes`
   * extensions (`update`) leave them, merged with the data attributes, which win on a
   * clash. `htmlID` is what the inherited `getHTMLID()` answers and `wrapperClass` what
   * the inherited wrapper class answers.
   */
  method WrapperAttributes(c: Carousel, htmlID: string, wrapperClass: string,
                           update: Attributes -> Attributes, updateData: Attributes -> Attributes)
    returns (attrs: Attributes)
    ensures attrs.Keys == update(BaseWrapperAttributes(htmlID, wrapperClass)).Keys
                        + updateData(BaseDataAttributes(c)).Keys
    ensures forall k | k in updateData(BaseDataAttributes(c)) :: attrs[k] == updateData(BaseDataAttributes(c))[k]
    ensures forall k | k in update(BaseWrapperAttributes(htmlID, wrapperClass))
                       && k !in updateData(BaseDataAttributes(c)) ::
              attrs[k] == update(BaseWrapperAttributes(htmlID, wrapperClass))[k]
  {
    attrs := map["id" := Text(WrapperID(htmlID))];
    attrs := attrs["class" := Text(wrapperClass)];
    attrs := update(attrs);
    var data := WrapperDataAttributes(c, updateData);
    attrs := ArrayMerge(attrs, data);
  }
}

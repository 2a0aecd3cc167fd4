/**
 * The legacy carousel component (code/components/CarouselComponent.php): which slides the
 * carousel shows, and the strings its template and initialisation script are given.
 */
module LegacyComponent {
  import opened Common
  import opened LegacySlide

  /**
   * The stored configuration of a carousel that the modelled methods read. Boolean
   * database fields are `bool`; a PHP null string is the empty string.
   */
  datatype Carousel = Carousel(
    ID: int,
    Nav: bool,
    Dots: bool,
    Loop: bool,
    Center: bool,
    AutoPlay: bool,
    AutoHeight: bool,
    NumberOfSlides: int,
    AnimationIn: string,
    AnimationOut: string,
    ButtonMargin: string,
    ButtonMarginUnit: string,
    RoundedButtons: bool,
    ShowItems: string,
    IconPrev: string,
    IconNext: string)

  /**
   * A carousel as created, before it is first written: the configured defaults, with list
   * items shown after the stored slides and a one-rem button margin.
   */
  function Defaults(): (c: Carousel)
    ensures c.Nav && c.Dots && c.Loop && c.Center && c.AutoPlay && c.AutoHeight
    ensures c.NumberOfSlides == 1 && !c.RoundedButtons
    ensures c.ShowItems == "after"
    ensures ButtonMarginCSS(c) == Some("1rem")
    ensures c.IconPrev == "fa-chevron-left" && c.IconNext == "fa-chevron-right"
  {
    assert "1" + "rem" == "1rem";
    Carousel(0, true, true, true, true, true, true, 1, "", "", "1", "rem", false, "after",
             "fa-chevron-left", "fa-chevron-right")
  }

  /** A value handed to the initialisation script: a string or an integer. */
  datatype JSValue = Text(s: string) | Number(n: int)

  /** The keys `getJSVars` writes on top of the inherited variables. */
  const CarouselVarNames: set<string> :=
    {"CarouselID", "NumberOfSlides", "Nav", "Dots", "Loop", "Center", "AutoPlay",
     "AutoHeight", "AnimateIn", "AnimateOut", "ContainerClass", "IconPrev", "IconNext"}

  /** A string wrapped in single quotes, as the script template expects string literals. */
  function Quoted(s: string): string
  {
    "'" + s + "'"
  }

  /** `NiceAsBoolean()` of a boolean field: the literal text "true" or "false". */
  function NiceAsBoolean(b: bool): string
  {
    if b then "true" else "false"
  }

  /**
   * The CSS margin of the navigation buttons: the margin followed by its unit, and no
   * value at all when no margin is set.
   */
  function ButtonMarginCSS(c: Carousel): (css: Option<string>)
    ensures css.None? <==> c.ButtonMargin == ""
    ensures css.Some? ==> |css.value| == |c.ButtonMargin| + |c.ButtonMarginUnit|
    ensures css.Some? ==> css.value[..|c.ButtonMargin|] == c.ButtonMargin
    ensures css.Some? ==> css.value[|c.ButtonMargin|..] == c.ButtonMarginUnit
  {
    if c.ButtonMargin != "" then Some(c.ButtonMargin + c.ButtonMarginUnit) else None
  }

  /** The id of the carousel element: the component's HTML id with "_Carousel" after it. */
  function CarouselID(htmlID: string): (id: string)
    ensures |id| == |htmlID| + 9
    ensures id[..|htmlID|] == htmlID && id[|htmlID|..] == "_Carousel"
  {
    htmlID + "_Carousel"
  }

  /** Distinct components get distinct carousel element ids. */
  lemma CarouselIDInjective(a: string, b: string)
    requires CarouselID(a) == CarouselID(b)
    ensures a == b
  {
    assert a == CarouselID(a)[..|a|];
  }

  /** The class of the navigation container: "owl-nav", and "rounded" after it when the buttons are rounded. */
  function NavClass(c: Carousel): (cls: string)
    ensures |cls| == (if c.RoundedButtons then 15 else 7)
    ensures cls[..7] == "owl-nav"
    ensures c.RoundedButtons ==> cls[7..] == " rounded"
  {
    if c.RoundedButtons then "owl-nav rounded" else "owl-nav"
  }

  /** `getNavContainerClass()`: the class list imploded with spaces. */
  method NavContainerClass(c: Carousel) returns (cls: string)
    ensures cls == NavClass(c)
  {
    var classes := ["owl-nav"];
    if c.RoundedButtons {
      classes := classes + ["rounded"];
    }
    cls := Join(" ", classes);
    if c.RoundedButtons {
      assert classes[..1] == ["owl-nav"];
      assert Join(" ", classes[..1]) == "owl-nav";
    }
  }

  /**
   * The carousel's own variables of the initialisation script. `htmlID` is what the
   * inherited `getHTMLID()` answers and `js` is the `JS()` escaping of a string field.
   */
  function ScriptVars(c: Carousel, htmlID: string, js: string -> string): map<string, JSValue>
  {
    map[
      "CarouselID" := Text(CarouselID(htmlID)),
      "NumberOfSlides" := Number(c.NumberOfSlides),
      "Nav" := Text(NiceAsBoolean(c.Nav)),
      "Dots" := Text(NiceAsBoolean(c.Dots)),
      "Loop" := Text(NiceAsBoolean(c.Loop)),
      "Center" := Text(NiceAsBoolean(c.Center)),
      "AutoPlay" := Text(NiceAsBoolean(c.AutoPlay)),
      "AutoHeight" := Text(NiceAsBoolean(c.AutoHeight)),
      "AnimateIn" := Text(Quoted(js(c.AnimationIn))),
      "AnimateOut" := Text(Quoted(js(c.AnimationOut))),
      "ContainerClass" := Text(Quoted(NavClass(c))),
      "IconPrev" := Text(c.IconPrev),
      "IconNext" := Text(c.IconNext)]
  }

  /** The carousel writes exactly its thirteen script variables. */
  lemma ScriptVarsKeys(c: Carousel, htmlID: string, js: string -> string)
    ensures ScriptVars(c, htmlID, js).Keys == CarouselVarNames
  {
  }

  /** The six carousel flags reach the script as the literals "true" or "false". */
  lemma ScriptVarsFlags(c: Carousel, htmlID: string, js: string -> string)
    ensures var vars := ScriptVars(c, htmlID, js);
      vars["Nav"] == Text(NiceAsBoolean(c.Nav)) && vars["Dots"] == Text(NiceAsBoolean(c.Dots))
      && vars["Loop"] == Text(NiceAsBoolean(c.Loop)) && vars["Center"] == Text(NiceAsBoolean(c.Center))
      && vars["AutoPlay"] == Text(NiceAsBoolean(c.AutoPlay))
      && vars["AutoHeight"] == Text(NiceAsBoolean(c.AutoHeight))
  {
  }

  /**
   * The animations and the nav container class reach the script as single-quoted string
   * literals, the animations escaped by `JS()`.
   */
  lemma ScriptVarsQuoted(c: Carousel, htmlID: string, js: string -> string)
    ensures var vars := ScriptVars(c, htmlID, js);
      vars["AnimateIn"] == Text(Quoted(js(c.AnimationIn)))
      && vars["AnimateOut"] == Text(Quoted(js(c.AnimationOut)))
      && vars["ContainerClass"] == Text(Quoted(NavClass(c)))
  {
  }

  /**
   * The carousel element id is the HTML id with "_Carousel" after it, and the number of
   * slides and the icons are copied unchanged.
   */
  lemma ScriptVarsCopied(c: Carousel, htmlID: string, js: string -> string)
    ensures var vars := ScriptVars(c, htmlID, js);
      vars["CarouselID"] == Text(htmlID + "_Carousel")
      && vars["NumberOfSlides"] == Number(c.NumberOfSlides)
      && vars["IconPrev"] == Text(c.IconPrev) && vars["IconNext"] == Text(c.IconNext)
  {
  }

  /**
   * `getJSVars()`: the inherited variables of the initialisation script (`inherited`), with
   * the carousel's own written over them; every inherited variable of another name is kept.
   */
  method JSVars(c: Carousel, inherited: map<string, JSValue>, htmlID: string, js: string -> string)
    returns (vars: map<string, JSValue>)
    ensures vars == inherited + ScriptVars(c, htmlID, js)
    ensures vars.Keys == inherited.Keys + CarouselVarNames
    ensures forall k | k in inherited && k !in CarouselVarNames :: vars[k] == inherited[k]
    ensures forall k | k in CarouselVarNames :: vars[k] == ScriptVars(c, htmlID, js)[k]
  {
    var own: map<string, JSValue> := map[];
    own := own["CarouselID" := Text(CarouselID(htmlID))];
    own := own["NumberOfSlides" := Number(c.NumberOfSlides)];
    own := own["Nav" := Text(NiceAsBoolean(c.Nav))];
    own := own["Dots" := Text(NiceAsBoolean(c.Dots))];
    own := own["Loop" := Text(NiceAsBoolean(c.Loop))];
    own := own["Center" := Text(NiceAsBoolean(c.Center))];
    own := own["AutoPlay" := Text(NiceAsBoolean(c.AutoPlay))];
    own := own["AutoHeight" := Text(NiceAsBoolean(c.AutoHeight))];
    own := own["AnimateIn" := Text(Quoted(js(c.AnimationIn)))];
    own := own["AnimateOut" := Text(Quoted(js(c.AnimationOut)))];
    var navClass := NavContainerClass(c);
    own := own["ContainerClass" := Text(Quoted(navClass))];
    own := own["IconPrev" := Text(c.IconPrev)];
    own := own["IconNext" := Text(c.IconNext)];
    ScriptVarsKeys(c, htmlID, js);
    vars := inherited + own;
  }

  /** The stored fields of each slide, in order. */
  function FieldsOf(slides: seq<CarouselSlide>): (r: seq<SlideFields>)
    reads slides
    ensures |r| == |slides|
    ensures forall i | 0 <= i < |slides| :: r[i] == slides[i].Fields()
  {
    if slides == [] then [] else [slides[0].Fields()] + FieldsOf(slides[1..])
  }

  /**
   * `Slides()->filter('Disabled', 0)`: the stored slides that are not disabled, in stored
   * order. Nothing disabled is kept and nothing enabled is dropped.
   */
  function EnabledOf(slides: seq<CarouselSlide>): (r: seq<CarouselSlide>)
    reads slides
    ensures |r| <= |slides|
    ensures forall s | s in r :: s in slides && !s.Disabled
    ensures forall s | s in slides && !s.Disabled :: s in r
  {
    if slides == [] then []
    else (if slides[0].Disabled then [] else [slides[0]]) + EnabledOf(slides[1..])
  }

  /** The filter keeps stored order: filtering two runs of slides is filtering each run. */
  lemma {:induction false} EnabledOfAppend(a: seq<CarouselSlide>, b: seq<CarouselSlide>)
    ensures EnabledOf(a + b) == EnabledOf(a) + EnabledOf(b)
  {
    if a == [] {
      assert a + b == b;
    } else {
      assert (a + b)[0] == a[0];
      assert (a + b)[1..] == a[1..] + b;
      EnabledOfAppend(a[1..], b);
    }
  }

  /**
   * The fields of the slides made from the list items, one per item in item order, and
   * none when there are no list items at all (`getListItems()` answers null).
   */
  function ListedFields(listItems: Option<seq<Page>>, carouselID: int): (r: seq<SlideFields>)
    ensures listItems.None? ==> r == []
    ensures listItems.Some? ==> |r| == |listItems.value|
    ensures listItems.Some? ==>
      forall i | 0 <= i < |r| :: r[i] == FromItemFields(NewSlide(), listItems.value[i], carouselID)
  {
    match listItems
    case None => []
    case Some(items) =>
      seq(|items|, i requires 0 <= i < |items| => FromItemFields(NewSlide(), items[i], carouselID))
  }

  /** Every slide made from a list item is enabled: a new slide is never disabled. */
  lemma {:induction false} ListedNeverDisabled(listItems: Option<seq<Page>>, carouselID: int)
    ensures forall f | f in ListedFields(listItems, carouselID) :: !f.Disabled
  {
    var r := ListedFields(listItems, carouselID);
    forall f | f in r ensures !f.Disabled {
      var i :| 0 <= i < |r| && r[i] == f;
    }
  }

  /** Slides whose fields are those made from list items are all enabled. */
  lemma ListedSlidesEnabled(slides: seq<CarouselSlide>, listItems: Option<seq<Page>>, carouselID: int)
    requires FieldsOf(slides) == ListedFields(listItems, carouselID)
    ensures forall s | s in slides :: !s.Disabled
  {
    forall s | s in slides ensures !s.Disabled {
      var i :| 0 <= i < |slides| && slides[i] == s;
      assert s.Fields() == ListedFields(listItems, carouselID)[i];
    }
  }

  /**
   * A new slide for every list item, each defined from its item by `fromItem`, in item
   * order. An item without an image still gets a slide.
   */
  method ListSourceSlides(c: Carousel, listItems: Option<seq<Page>>) returns (slides: seq<CarouselSlide>)
    ensures FieldsOf(slides) == ListedFields(listItems, c.ID)
  {
    slides := [];
    if listItems.Some? {
      var items := listItems.value;
      for i := 0 to |items|
        invariant |slides| == i
        invariant forall j | 0 <= j < i :: slides[j].Fields() == FromItemFields(NewSlide(), items[j], c.ID)
      {
        var slide := new CarouselSlide();
        slide := slide.FromItem(items[i], c.ID);
        slides := slides + [slide];
      }
    }
  }

  /**
   * The slides the carousel shows. With `ShowItems` "before", the slides made from the list
   * items and then the enabled stored slides; with "after", the other way round; with any
   * other value, the enabled stored slides alone. No disabled slide is ever shown.
   */
  method EnabledSlides(c: Carousel, stored: seq<CarouselSlide>, listItems: Option<seq<Page>>)
    returns (slides: seq<CarouselSlide>)
    ensures c.ShowItems == "before" ==>
      var n := |ListedFields(listItems, c.ID)|;
      n <= |slides| && FieldsOf(slides[..n]) == ListedFields(listItems, c.ID)
      && slides[n..] == EnabledOf(stored)
    ensures c.ShowItems == "after" ==>
      var m := |EnabledOf(stored)|;
      m <= |slides| && slides[..m] == EnabledOf(stored)
      && FieldsOf(slides[m..]) == ListedFields(listItems, c.ID)
    ensures c.ShowItems != "before" && c.ShowItems != "after" ==> slides == EnabledOf(stored)
    ensures forall s | s in slides :: !s.Disabled
  {
    slides := [];
    ghost var first: seq<CarouselSlide> := [];
    if c.ShowItems == "before" {
      var listed := ListSourceSlides(c, listItems);
      ListedSlidesEnabled(listed, listItems, c.ID);
      slides := slides + listed;
      first := listed;
    }
    var manual := EnabledOf(stored);
    slides := slides + manual;
    assert slides[..|first|] == first && slides[|first|..] == manual;
    if c.ShowItems == "after" {
      var listed := ListSourceSlides(c, listItems);
      ListedSlidesEnabled(listed, listItems, c.ID);
      assert EnabledOf(stored) == manual;
      slides := slides + listed;
      assert slides[..|manual|] == manual && slides[|manual|..] == listed;
    }
  }
}

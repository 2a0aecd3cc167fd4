/**
 * The list source (src/Model/CarouselListSource.php): a child of the carousel that turns
 * the items of a list into slides, skipping every item without a meta image.
 */
module ListSources {
  import opened Common
  import opened Slides

  /**
   * The metadata of a list item that `createSlide` reads. `MetaImageID` is present exactly
   * when the item answers `hasMetaImage()`.
   */
  datatype ListItem = ListItem(
    MetaTitle: string,
    MetaImageID: Option<int>,
    MetaImageCaption: string,
    MetaAbsoluteLink: string)

  /**
   * The stored fields of a list source that its slides copy, and the items its list
   * extension answers for `getListItems()`.
   */
  datatype ListSource = ListSource(
    ParentID: int,
    HideTitle: bool,
    HideCaption: bool,
    LinkDisabled: bool,
    OpenLinkInNewTab: bool,
    ListItems: seq<ListItem>)

  /** `hasListItems()`: the list has at least one item. */
  predicate HasListItems(src: ListSource)
  {
    |src.ListItems| > 0
  }

  /** A list source is disabled exactly when it has no list items. */
  function IsDisabled(src: ListSource): (disabled: bool)
    ensures disabled <==> src.ListItems == []
  {
    !HasListItems(src)
  }

  /** The slide made for an item that has a meta image. */
  function CreatedView(src: ListSource, item: ListItem): SlideView
    requires item.MetaImageID.Some?
  {
    SlideView(item.MetaTitle, item.MetaImageID.value, item.MetaImageCaption, src.ParentID,
              src.HideTitle, src.HideCaption, URLMode, item.MetaAbsoluteLink,
              src.LinkDisabled, src.OpenLinkInNewTab)
  }

  /**
   * A new slide for `item` when it has a meta image, and null when it has none. The slide
   * takes its title, image, caption and link from the item, and its parent, the title
   * and caption visibility and the link flags from the list source.
   */
  method CreateSlide(src: ListSource, item: ListItem) returns (slide: CarouselSlide?)
    ensures slide == null <==> item.MetaImageID.None?
    ensures slide != null ==> fresh(slide)
    ensures slide != null ==>
      slide.Title == item.MetaTitle && slide.ImageID == item.MetaImageID.value
      && slide.Caption == item.MetaImageCaption && slide.ParentID == src.ParentID
      && slide.HideTitle == src.HideTitle && slide.HideCaption == src.HideCaption
    ensures slide != null ==>
      slide.LinkTo == URLMode && slide.LinkURL == item.MetaAbsoluteLink
      && slide.LinkDisabled == src.LinkDisabled && slide.OpenLinkInNewTab == src.OpenLinkInNewTab
  {
    slide := null;
    if item.MetaImageID.Some? {
      slide := new CarouselSlide(item.MetaTitle, item.MetaImageID.value, item.MetaImageCaption,
                                 src.ParentID, src.HideTitle, src.HideCaption);
      slide.LinkTo := URLMode;
      slide.LinkURL := item.MetaAbsoluteLink;
      slide.LinkDisabled := src.LinkDisabled;
      slide.OpenLinkInNewTab := src.OpenLinkInNewTab;
    }
  }

  /** The items that have a meta image, in list order. */
  function WithImage(items: seq<ListItem>): (r: seq<ListItem>)
    ensures |r| <= |items|
    ensures forall it | it in r :: it in items && it.MetaImageID.Some?
    ensures forall it | it in items && it.MetaImageID.Some? :: it in r
  {
    if items == [] then []
    else (if items[0].MetaImageID.Some? then [items[0]] else []) + WithImage(items[1..])
  }

  /** The filter keeps list order: filtering two runs of items is filtering each run. */
  lemma {:induction false} WithImageAppend(a: seq<ListItem>, b: seq<ListItem>)
    ensures WithImage(a + b) == WithImage(a) + WithImage(b)
  {
    if a == [] {
      assert a + b == b;
    } else {
      assert (a + b)[0] == a[0];
      assert (a + b)[1..] == a[1..] + b;
      WithImageAppend(a[1..], b);
    }
  }

  /** The slides made from the items, one for each item with a meta image, in list order. */
  function CreatedViews(src: ListSource, items: seq<ListItem>): (r: seq<SlideView>)
    ensures |r| <= |items|
  {
    if items == [] then []
    else (if items[0].MetaImageID.Some? then [CreatedView(src, items[0])] else [])
         + CreatedViews(src, items[1..])
  }

  /**
   * The skip rule stated against a reference definition: the slides are exactly the
   * slides of the items that have a meta image, one each, in list order. So no item
   * without a meta image yields a slide and every item with one yields exactly one.
   */
  lemma {:induction false} CreatedViewsAreImagedItems(src: ListSource, items: seq<ListItem>)
    ensures var w := WithImage(items);
      |CreatedViews(src, items)| == |w|
      && forall i | 0 <= i < |w| :: CreatedViews(src, items)[i] == CreatedView(src, w[i])
  {
    if items != [] {
      var rest := items[1..];
      CreatedViewsAreImagedItems(src, rest);
      var w, w' := WithImage(items), WithImage(rest);
      var r, r' := CreatedViews(src, items), CreatedViews(src, rest);
      if items[0].MetaImageID.Some? {
        assert w == [items[0]] + w' && r == [CreatedView(src, items[0])] + r';
        forall i | 0 <= i < |w| ensures r[i] == CreatedView(src, w[i]) {
          if i > 0 {
            assert r[i] == r'[i - 1] && w[i] == w'[i - 1];
          }
        }
      } else {
        assert w == w' && r == r';
      }
    }
  }

  /** Creating slides from two runs of items is creating slides from each run, in order. */
  lemma {:induction false} CreatedViewsAppend(src: ListSource, a: seq<ListItem>, b: seq<ListItem>)
    ensures CreatedViews(src, a + b) == CreatedViews(src, a) + CreatedViews(src, b)
  {
    if a == [] {
      assert a + b == b;
    } else {
      assert (a + b)[0] == a[0];
      assert (a + b)[1..] == a[1..] + b;
      CreatedViewsAppend(src, a[1..], b);
    }
  }

  /** An item without a meta image changes nothing, wherever it stands in the list. */
  lemma ImagelessItemSkipped(src: ListSource, a: seq<ListItem>, item: ListItem, b: seq<ListItem>)
    requires item.MetaImageID.None?
    ensures CreatedViews(src, a + [item] + b) == CreatedViews(src, a + b)
  {
    CreatedViewsAppend(src, a + [item], b);
    CreatedViewsAppend(src, a, [item]);
    CreatedViewsAppend(src, a, b);
    assert CreatedViews(src, [item]) == [];
  }

  /** A disabled list source yields no slides. */
  lemma DisabledYieldsNothing(src: ListSource)
    requires IsDisabled(src)
    ensures CreatedViews(src, src.ListItems) == []
  {
  }

  /**
   * The converse does not hold: a list source whose only item has no meta image is not
   * disabled, yet yields no slides.
   */
  lemma EnabledSourceMayYieldNothing(src: ListSource, item: ListItem)
    requires src.ListItems == [item] && item.MetaImageID.None?
    ensures !IsDisabled(src) && CreatedViews(src, src.ListItems) == []
  {
    assert src.ListItems[1..] == [];
  }

  /** One more item: its slide, if it has a meta image, comes after those of the items before it. */
  lemma CreatedViewsStep(src: ListSource, items: seq<ListItem>, i: nat)
    requires i < |items|
    ensures CreatedViews(src, items[..i + 1]) == CreatedViews(src, items[..i])
      + (if items[i].MetaImageID.Some? then [CreatedView(src, items[i])] else [])
  {
    CreatedViewsAppend(src, items[..i], [items[i]]);
    assert items[..i + 1] == items[..i] + [items[i]];
  }

  /** The slides of the list source: a slide for every list item that has a meta image. */
  method EnabledSlides(src: ListSource) returns (slides: seq<CarouselSlide>)
    ensures Views(slides) == CreatedViews(src, src.ListItems)
    ensures |slides| <= |src.ListItems|
  {
    slides := [];
    var items := src.ListItems;
    for i := 0 to |items|
      invariant |slides| == |CreatedViews(src, items[..i])|
      invariant forall j | 0 <= j < |slides| :: slides[j].View() == CreatedViews(src, items[..i])[j]
    {
      var slide := CreateSlide(src, items[i]);
      CreatedViewsStep(src, items, i);
      if slide != null {
        slides := slides + [slide];
      }
    }
    assert items[..|items|] == items;
  }
}

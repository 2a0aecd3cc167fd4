# silverware-carousel, modelled in Dafny

silverware-carousel is a SilverStripe plugin that shows a carousel of slides on a page.
The repository holds two generations of the component, and they follow different rules.
This project models each one separately.

- **Legacy generation** (`code/`). A `CarouselComponent` holds stored `CarouselSlide`
  records. A list source can add pages as slides: `fromItem` overwrites a slide's fields
  from a page. `EnabledSlides` puts the slides made from the list items before or after
  the stored slides that are not disabled, as the `ShowItems` setting says. The component
  also builds the strings its template and its initialisation script use: the nav
  container class, the button margin CSS, the carousel element id and the script variables.
- **Current generation** (`src/`). The carousel's children are plain slides and list
  sources. The carousel's enabled slides are each child's enabled slides, in child order.
  A plain slide contributes itself when it is enabled. A list source makes one new slide
  for every list item that has a meta image, and skips the items that have none. The
  carousel is disabled when it ends up with no slides. The model also covers the class
  names a slide gives its template, the indicator class, the heading tag, and the wrapper
  element's attributes.

Modules, one per source file, plus a shared one:

| module | file | source |
|---|---|---|
| `Common` | common.dfy | `Option`, PHP `implode`, and PHP string truthiness |
| `LegacySlide` | legacy_slide.dfy | code/model/CarouselSlide.php |
| `LegacyComponent` | legacy_component.dfy | code/components/CarouselComponent.php |
| `Slides` | slide.dfy | src/Model/CarouselSlide.php |
| `ListSources` | list_source.dfy | src/Model/CarouselListSource.php |
| `Components` | component.dfy | src/Components/CarouselComponent.php |

Slides are classes because the source changes their fields in place. `fromItem` rewrites
its receiver, and `createSlide` assigns the link fields of a new slide one by one. A
method's result is tied to a specification function of the fields: `Fields()`, `View()`,
`FieldsOf`, `Views`. The properties are then proved about those functions.

Calls into the host framework become parameters of the model:

- the style lookups `style()` and `styles()`;
- the `extend(...)` hooks, as functions from attribute map to attribute map;
- `JS()` escaping;
- what the inherited `getHTMLID()`, `getJSVars()`, `isDisabled()` and class-name methods answer;
- the wrapper class.

A slide's `isEnabled()` answer is its `Enabled` field. A list is a Dafny sequence.

Where the code and the documented intent differ, the model follows the code:

- In the legacy generation, an item without an image still yields a slide; there is no image check.
- A `ShowItems` value other than "before" or "after" shows only the stored slides.
- `getHeadingTag` answers nothing for the level "0" as well as for the empty level, because PHP treats "0" as false.

## Model

| member | source | states |
|---|---|---|
| LegacySlide.FromItemFields | code/model/CarouselSlide.php:31-62 | After `fromItem`, the title is the page's meta title. The caption is the image caption when the page has one, and the summary otherwise. The image is the meta image when the page has one, and is kept otherwise. The link page is the page, the carousel is the given carousel, and `Disabled` is kept. |
| LegacySlide.FromItemIdempotent | code/model/CarouselSlide.php:31-62 | Applying `fromItem` twice with the same page and carousel gives the same fields as applying it once. |
| LegacySlide.CarouselSlide.constructor | code/components/CarouselComponent.php:390 | `CarouselSlide::create()` makes a slide whose fields are all at their defaults. |
| LegacySlide.CarouselSlide.FromItem | code/model/CarouselSlide.php:31-62 | Answers the receiver itself. Its new fields are `FromItemFields` of its old fields, so no other field changes. |
| LegacyComponent.Defaults | code/components/CarouselComponent.php:44-61 | A new carousel shows list items after the stored slides and has its flags set. It has one slide per view, no rounded buttons, chevron icons, and a button margin CSS of "1rem". |
| LegacyComponent.ButtonMarginCSS | code/components/CarouselComponent.php:275-282 | The CSS is absent exactly when the margin is empty. Otherwise it is the margin followed by the unit. |
| LegacyComponent.CarouselID | code/components/CarouselComponent.php:289-292 | The HTML id with "_Carousel" after it. |
| LegacyComponent.CarouselIDInjective | code/components/CarouselComponent.php:289-292 | Two HTML ids with the same carousel id are equal. |
| LegacyComponent.NavClass | code/components/CarouselComponent.php:299-308 | "owl-nav", with " rounded" after it exactly when the buttons are rounded. |
| LegacyComponent.NavContainerClass | code/components/CarouselComponent.php:299-308 | Imploding the class list gives exactly `NavClass`: "owl-nav rounded" when the buttons are rounded, and "owl-nav" otherwise. |
| LegacyComponent.ScriptVarsKeys | code/components/CarouselComponent.php:319-336 | The carousel writes exactly its thirteen script variables. |
| LegacyComponent.ScriptVarsFlags | code/components/CarouselComponent.php:323-328 | Nav, Dots, Loop, Center, AutoPlay and AutoHeight are the literals "true" or "false" of their flags. |
| LegacyComponent.ScriptVarsQuoted | code/components/CarouselComponent.php:330-333 | AnimateIn and AnimateOut are the escaped animations in single quotes. ContainerClass is the nav container class in single quotes. |
| LegacyComponent.ScriptVarsCopied | code/components/CarouselComponent.php:319-321 | CarouselID is the HTML id with "_Carousel" after it. NumberOfSlides, IconPrev and IconNext are copied unchanged. |
| LegacyComponent.JSVars | code/components/CarouselComponent.php:315-339 | The result holds the inherited variables with the carousel's own written over them: each own key has its `ScriptVars` value. Its keys are the inherited keys plus the thirteen own keys. Every inherited variable of another name keeps its value. |
| LegacyComponent.FieldsOf | code/components/CarouselComponent.php:378-399 | The fields of each slide, in order, one entry per slide. |
| LegacyComponent.EnabledOf | code/components/CarouselComponent.php:360 | The filter on `Disabled == 0` keeps no disabled slide and drops no enabled one. It is never longer than its input. |
| LegacyComponent.EnabledOfAppend | code/components/CarouselComponent.php:360 | The filter keeps stored order: filtering two runs one after the other is filtering each run. |
| LegacyComponent.ListedFields | code/components/CarouselComponent.php:386-398 | There is no slide when `getListItems()` answers nothing. Otherwise there is one slide per item, in item order, each made by `fromItem` from a new slide. |
| LegacyComponent.ListedNeverDisabled | code/components/CarouselComponent.php:390 | No slide made from a list item is disabled. |
| LegacyComponent.ListedSlidesEnabled | code/components/CarouselComponent.php:390 | Slide objects with those fields are all enabled. |
| LegacyComponent.ListSourceSlides | code/components/CarouselComponent.php:378-399 | The new slides' fields are exactly `ListedFields`: one slide per item, in item order, including items without an image. |
| LegacyComponent.EnabledSlides | code/components/CarouselComponent.php:346-370 | With "before": the list-item slides, then the enabled stored slides. With "after": the enabled stored slides, then the list-item slides. With any other value: the enabled stored slides alone. No disabled slide is ever shown. |
| Slides.CarouselSlide.constructor | src/Model/CarouselListSource.php:151-158 | `CarouselSlide::create([...])` sets the six given fields and leaves the link fields at their defaults. |
| Slides.CarouselSlide.SlideClassNames | src/Model/CarouselSlide.php:51-70 | The inherited names are kept as a prefix, then the item style is added, then the active style only for the first slide. The length grows by 2 for the first slide and by 1 otherwise. |
| Slides.CarouselSlide.ImageClassNames | src/Model/CarouselSlide.php:77-85 | The inherited names, then the `image.fluid` and `carousel.image` styles. |
| Slides.CarouselSlide.CaptionClassNames | src/Model/CarouselSlide.php:92-100 | The inherited names, then the `carousel.caption` styles. |
| Slides.CarouselSlide.EnabledSlides | src/Model/CarouselSlide.php:107-116 | The slide itself when it is enabled, and nothing otherwise. |
| Slides.Views | src/Components/CarouselComponent.php:264-273 | The fields of each slide, in order, one entry per slide. |
| Slides.ViewsConcat | src/Components/CarouselComponent.php:269 | The views of two runs of slides put together are the views of each run, in order. |
| ListSources.IsDisabled | src/Model/CarouselListSource.php:133-136 | A list source is disabled exactly when it has no list items. |
| ListSources.CreateSlide | src/Model/CarouselListSource.php:145-172 | Null exactly when the item has no meta image. Otherwise it is a new slide with the item's title, image, caption and URL. It takes the parent, the visibility flags and the link flags from the source, and links in URL mode. |
| ListSources.WithImage | src/Model/CarouselListSource.php:117-123 | The items with a meta image, in order: none without one, and every one with one. |
| ListSources.WithImageAppend | src/Model/CarouselListSource.php:117-123 | The filter keeps list order: filtering two runs of items one after the other is filtering each run. |
| ListSources.CreatedViews | src/Model/CarouselListSource.php:113-126 | No more slides than list items. |
| ListSources.CreatedViewsAreImagedItems | src/Model/CarouselListSource.php:113-126 | The slides are exactly one per item with a meta image, in list order, each made from its item. |
| ListSources.CreatedViewsAppend | src/Model/CarouselListSource.php:117-123 | Making slides from two runs of items is making slides from each run, in order. |
| ListSources.ImagelessItemSkipped | src/Model/CarouselListSource.php:145-172 | An item without a meta image changes nothing, wherever it stands. |
| ListSources.DisabledYieldsNothing | src/Model/CarouselListSource.php:113-136 | A disabled list source yields no slides. |
| ListSources.EnabledSourceMayYieldNothing | src/Model/CarouselListSource.php:113-136 | A list source that is not disabled can still yield no slides, when no item has a meta image. |
| ListSources.CreatedViewsStep | src/Model/CarouselListSource.php:117-123 | One more item adds its slide, if it has a meta image, after the slides of the items before it. |
| ListSources.EnabledSlides | src/Model/CarouselListSource.php:113-126 | The new slides are exactly `CreatedViews` of the list items, and no more than the list items. |
| Components.Defaults | src/Components/CarouselComponent.php:110-116 | The slide interval is 5000, the controls, indicators and icons are shown, and the title is hidden by default. There is no heading tag. |
| Components.HeadingTag | src/Components/CarouselComponent.php:242-247 | The heading level when PHP reads it as true, and nothing otherwise. |
| Components.ControlsShown | src/Components/CarouselComponent.php:502-505 | True exactly when `ShowControls` is non-zero. |
| Components.IndicatorsShown | src/Components/CarouselComponent.php:512-515 | True exactly when `ShowIndicators` is non-zero. |
| Components.IndicatorClass | src/Components/CarouselComponent.php:472-475 | The active-indicator style for the first indicator, and "" for every other. |
| Components.WrapperID | src/Components/CarouselComponent.php:340-343 | The HTML id with "_Wrapper" after it. |
| Components.ExpectedSlidesAppend | src/Components/CarouselComponent.php:264-273 | The slides of two runs of children are the slides of each run, in order. |
| Components.NoSlidesIffNoChildContributes | src/Components/CarouselComponent.php:264-273 | The carousel has no slides exactly when no child contributes any. |
| Components.EnabledSlides | src/Components/CarouselComponent.php:264-273 | The slides are each child's enabled slides, in child order. |
| Components.ChildEnabledSlides | src/Components/CarouselComponent.php:269 | A child's enabled slides: a plain slide's, or a list source's. |
| Components.ExpectedSlidesStep | src/Components/CarouselComponent.php:268-270 | One more child adds its slides after those of the children before it. |
| Components.IsDisabled | src/Components/CarouselComponent.php:534-541 | Disabled exactly when there are no enabled slides or the inherited answer is disabled. |
| Components.BaseDataAttributes | src/Components/CarouselComponent.php:301-304 | Before the hooks run, exactly `data-ride` "carousel" and `data-interval` with the slide interval. |
| Components.BaseWrapperAttributes | src/Components/CarouselComponent.php:282-285 | Before the hooks run, exactly `id` with the wrapper id and `class` with the wrapper class. |
| Components.ArrayMerge | src/Components/CarouselComponent.php:289 | The keys of both maps. The second map's value wins on a shared key, and the first's is kept elsewhere. |
| Components.WrapperDataAttributes | src/Components/CarouselComponent.php:299-309 | The base data attributes as the hooks leave them. |
| Components.WrapperAttributes | src/Components/CarouselComponent.php:280-292 | The keys are those of the updated id/class map plus those of the data attributes. Every data attribute is present with its value, which wins on a clash. Every other key keeps the updated id/class value. |

## Left out

- `getCMSFields`, `fieldLabels`, `CarouselComponent_Controller` and its `init`: these build CMS forms and load scripts.
- `onBeforeWrite` (code/components/CarouselComponent.php:258-268): it only calls the framework's `integer_or_null` on the image dimensions.
- `getTemplate`, `getAttributesHTML`, `getWrapperAttributesHTML`, `getWrapperCSSID`, `getControlPreviousText` and `getControlNextText`: these are template rendering and translated strings from the framework.
- `getWrapperClassNames`, `getInnerClassNames`, the `getControl*ClassNames` methods and `getIndicatorsClassNames`: each is a style lookup handed to an extension hook, both foreign.
- `getParent` (code/model/CarouselSlide.php:19-22) and `getSlides`: these are ORM relations. The stored slides and the children are given as sequences.
- The bodies of `style()`, `styles()`, `extend()`, `JS()`, `getHTMLID()`, `isEnabled()`, `getListItems()` and the parent classes' methods: these are foreign calls. They are parameters or given fields here. `NiceAsBoolean()` is modelled as "true"/"false".
- `hasListItems()` is taken to mean that the list has at least one item.
- javascript/owl-carousel/owl.carousel.init.js and _config.php: a browser script template and path constants.
- Key order of PHP arrays: attribute and script-variable maps are Dafny maps, so the order in which keys are written is not modelled. `array_merge` renumbers integer keys, but every key here is a string, so only string-key merging is modelled.
- `ArrayList` holds object references. The model keeps them in sequences of objects. It states the slides' fields through `Fields()` and `View()`, and it states no object identity beyond what each method ensures.
- Slides.CarouselSlide.constructor: the link fields of a new slide are assumed to start at their defaults (no mode, no URL, enabled, same tab). The link extension that defines them is not part of this model.
- Database storage: `write()` and persistence of the created slides are not modelled. The legacy slides made from list items are never written.

# Material Components catalog: demo ordering, theme previewer, catalog grid

A Dafny model of the logic inside the catalog app's view controllers. The UIKit
rendering is stripped away. Three parts are modelled:

- **Demo ordering** (`NodeList`, pure). Creating a node-list screen for a catalog
  node keeps the node's example children. It puts the primary demos first and
  keeps the original order inside each group. It stores the description of the
  first demo of that order, or `""`. The ordered list is a local value in the
  initialiser; only the description is stored on the screen.
- **Theme previewer** (`ThemePreviewer`, imperative). There is one shared
  semantic colour scheme; the previewer edits nine of its colour slots, and the
  model's scheme holds only those nine. The screen keeps an
  append-only registry of applicators, one per sample component. It runs all of
  them, in order, on every "DidChangeColor" notification and once at the end of
  loading. Each slot's editor is a colour picker with four sliders. A slider
  event replaces one channel of the colour, writes the slot and posts the
  notification. Nothing is deduplicated. The symbol table has two sections: the
  first entry of a section is its header, and row r shows entry r + 1. Laying
  out the sample components grows the scroll view's content size as a running,
  component-wise maximum.
- **Catalog grid** (`CatalogComponents`, mixed). The layout pass gives every
  cell the same square size. Phones have 2 columns in portrait and 3 in
  landscape; other devices have 4. There is one more divider than columns, plus
  the iOS 11 safe-area insets. Tapping a child opens its example, or a nested
  node list if it is not an example.

Support modules: `Options` (nil-able values), `CatalogNodes` (the catalog tree as
a datatype), `Sequences` (Swift's `filter` and the facts about it), `Geometry`
(sizes and rectangles over the reals).

Where the source leaves something to the outside world, the model takes it as a
parameter:
- the sizes the components report from `sizeToFit`/`sizeThatFits`;
- the view size, safe-area insets, idiom and system version of the layout pass;
- the library's default scheme colours.

In the model the notification centre delivers synchronously to the one previewer
screen. Applicators are names, and painting a component is recorded as the
palette it was last painted with. Sizes and colour channels are `real`.

Notes on the code:
- The previewer edits nine of the scheme's colour slots, including "Primary variant"; the model's scheme holds only those nine.
- Slots are a closed enumeration, so there is no "unknown property" error path.
- A slider event takes only the moved slider's value. The other three channels
  come from the picker's current colour, not from the other sliders.
- The column count depends on the phone idiom and on width > height. It does
  not depend on the size class.
- The description is `""` when there is no example. It is also `""` when the
  first demo has no description: `exampleDescription` is modelled as a nil-able
  string. CBCNode's header is not part of this model, and a non-nil-able string
  is the special case where it is always present.

## Model

| member | source | states |
|---|---|---|
| `Sequences.Filter` | catalog/MDCCatalog/MDCNodeListViewController.swift:42-46 | Swift's `filter`: the result is no longer than the input |
| `Sequences.FilterMembers` | catalog/MDCCatalog/MDCNodeListViewController.swift:42-46 | the result of `filter` holds exactly the elements of the input that satisfy the predicate |
| `NodeList.Examples` | catalog/MDCCatalog/MDCNodeListViewController.swift:42 | the example children of the node, in order; the contract bounds their number by the children's; membership is `FilterMembers` |
| `NodeList.OrderedDemos` | catalog/MDCCatalog/MDCNodeListViewController.swift:44-48 | the definition of the ordered demo list (primary demos, then the others); its properties are the `OrderedDemos…` lemmas below |
| `NodeList.ComponentDescription` | catalog/MDCCatalog/MDCNodeListViewController.swift:49-50 | the definition of the stored description; its cases are `DescriptionOfFirstPrimaryExample`, `DescriptionOfFirstExample` and `DescriptionWithoutExamples` |
| `NodeList.OrderedDemosAreTheExamples` | catalog/MDCCatalog/MDCNodeListViewController.swift:42-48 | a node is in the ordered list iff it is a child of the node and an example |
| `NodeList.OrderedDemosPrimaryFirst` | catalog/MDCCatalog/MDCNodeListViewController.swift:44-48 | every primary demo comes before every non-primary demo |
| `NodeList.OrderedDemosStable` | catalog/MDCCatalog/MDCNodeListViewController.swift:45-48 | the primary demos, and likewise the non-primary demos, appear in the same order as among the examples |
| `NodeList.OrderedPrimaryDemosFollowChildren` | catalog/MDCCatalog/MDCNodeListViewController.swift:42-48 | the primary demos of the ordered list are the primary example children in their order in `node.children` |
| `NodeList.OrderedDemosPermutation` | catalog/MDCCatalog/MDCNodeListViewController.swift:42-48 | the ordered list has the same multiset, and so the same length, as the examples |
| `NodeList.OrderedDemosUnique` | catalog/MDCCatalog/MDCNodeListViewController.swift:42-48 | any list that is partitioned with primary demos first and keeps each group's order equals the ordered list: it is the stable partition |
| `NodeList.OrderedDemosWithoutPrimary` | catalog/MDCCatalog/MDCNodeListViewController.swift:45-48 | without a primary example, the ordered list is the examples in their original order |
| `NodeList.DescriptionOfFirstPrimaryExample` | catalog/MDCCatalog/MDCNodeListViewController.swift:42-50 | the description is that of the first child that is a primary example (or `""` if it has none) |
| `NodeList.DescriptionOfFirstExample` | catalog/MDCCatalog/MDCNodeListViewController.swift:42-50 | without a primary example, the description is that of the first example child |
| `NodeList.DescriptionWithoutExamples` | catalog/MDCCatalog/MDCNodeListViewController.swift:50 | a node without example children gets the empty description |
| `NodeList.StablePartitionExample` | catalog/MDCCatalog/MDCNodeListViewController.swift:42-50 | children A, B, C, D with B and D primary are ordered B, D, A, C, and the description is B's |
| `CatalogComponents.ColumnCount` | catalog/MDCCatalog/MDCCatalogComponentsController.swift:100-108 | the number of columns of the branch taken: 3 on a phone in landscape, 2 on a phone otherwise, 4 elsewhere; always between 2 and 4 |
| `CatalogComponents.SafeInsets` | catalog/MDCCatalog/MDCCatalogComponentsController.swift:93-96 | the definition of the horizontal insets: left plus right from iOS 11 on, 0 before; used by `ViewDidLayoutSubviews` |
| `CatalogComponents.ViewDidLayoutSubviews` | catalog/MDCCatalog/MDCCatalogComponentsController.swift:88-110 | the item is square; its columns (2 on phones in portrait, 3 on phones in landscape, 4 otherwise) plus columns + 1 dividers of width 1 plus the safe-area insets (left + right on iOS 11 and later, 0 before) fill the view's width exactly |
| `CatalogComponents.DidSelectItem` | catalog/MDCCatalog/MDCCatalogComponentsController.swift:117-125 | the definition of the pushed screen; its properties are `DidSelectItemOpensChild` and `CategoryShowsPrimaryDescription` |
| `CatalogComponents.DidSelectItemOpensChild` | catalog/MDCCatalog/MDCCatalogComponentsController.swift:117-125 | tapping row i opens `children[i]`: its example screen iff it is an example, a node list for it otherwise |
| `CatalogComponents.CategoryShowsPrimaryDescription` | catalog/MDCCatalog/MDCCatalogComponentsController.swift:119-125 | a nested list opened for a category shows the description of the category's first primary example |
| `ThemePreviewer.Palette.With` | catalog/MDCCatalog/MDCThemePreviewerViewController.swift:238-273 | writing a slot sets that slot and keeps the other eight |
| `ThemePreviewer.WriteIsIdempotent` | catalog/MDCCatalog/MDCThemePreviewerViewController.swift:238-241 | writing the same colour twice leaves the scheme as one write does |
| `ThemePreviewer.SemanticColorScheme.constructor` | catalog/MDCCatalog/MDCThemePreviewerViewController.swift:21 | the shared scheme starts with the given nine colours |
| `ThemePreviewer.Channels.With` | catalog/MDCCatalog/MDCThemePreviewerViewController.swift:211-224 | replacing a channel sets it and keeps the other three |
| `ThemePreviewer.SliderUpdate` | catalog/MDCCatalog/MDCThemePreviewerViewController.swift:211-222 | the sender slider's channel takes that slider's value; the other channels, and all four for an unknown sender, stay |
| `ThemePreviewer.Clamp` | catalog/MDCCatalog/MDCThemePreviewerViewController.swift:186-189 | a slider's value is kept in its default range 0 to 1, and values already in range are kept |
| `ThemePreviewer.Components` | catalog/MDCCatalog/MDCThemePreviewerViewController.swift:185 | `getRed(_:green:blue:alpha:)` succeeds exactly for a colour with RGBA components, and then reports those components |
| `ThemePreviewer.InitialSliders` | catalog/MDCCatalog/MDCThemePreviewerViewController.swift:181-190 | when the colour has components, each slider starts at its component clamped to 0 to 1, as the slider's value setter does; otherwise all four start at 0 |
| `ThemePreviewer.NumberOfSections` | catalog/MDCCatalog/MDCThemePreviewerViewController.swift:280-282 | the definition of the section count (one per group of the symbol table); `TableShape` gives its value 2 |
| `ThemePreviewer.NumberOfRowsInSection` | catalog/MDCCatalog/MDCThemePreviewerViewController.swift:284-286 | the definition of a section's row count (its entries after the title); `TableShape` gives 9 and 0 |
| `ThemePreviewer.TitleForHeader` | catalog/MDCCatalog/MDCThemePreviewerViewController.swift:288-290 | the definition of a section's header (its first entry's title); `TableShape` gives the two strings |
| `ThemePreviewer.EditorAt` | catalog/MDCCatalog/MDCThemePreviewerViewController.swift:292-302 | row r of a section shows entry r + 1, which is always an editor, so the force cast succeeds |
| `ThemePreviewer.TableShape` | catalog/MDCCatalog/MDCThemePreviewerViewController.swift:235-290 | two sections; rows = entries − 1, so 9 colour rows and 0 typography rows; headers "Color Scheme" and "Typography Scheme" |
| `ThemePreviewer.ColorRowsCoverEverySlot` | catalog/MDCCatalog/MDCThemePreviewerViewController.swift:235-274 | the colour section's nine rows edit each of the nine slots exactly once |
| `ThemePreviewer.BoundingSize` | catalog/MDCCatalog/MDCThemePreviewerViewController.swift:54-58 | the content size after `expandContentSize` has run on each frame in turn, from zero; never negative; `BoundingSizeIsLeast` shows it is the least size covering every frame |
| `ThemePreviewer.ExpandContentSize` | catalog/MDCCatalog/MDCThemePreviewerViewController.swift:55-58 | the content size never shrinks, covers the view's maxX and maxY, and each dimension is either the old one or the view's |
| `ThemePreviewer.BoundingSizeIsLeast` | catalog/MDCCatalog/MDCThemePreviewerViewController.swift:54-58 | the content size after a series of expansions covers every frame and is the smallest non-negative size that does |
| `ThemePreviewer.ThemePreviewerViewController.constructor` | catalog/MDCCatalog/MDCThemePreviewerViewController.swift:25-38 | a new screen has an empty registry, no components, no mounted editor and no observer |
| `ThemePreviewer.ThemePreviewerViewController.RunApplicators` | catalog/MDCCatalog/MDCThemePreviewerViewController.swift:43 | every registered applicator runs exactly once, in registration order, and afterwards every registered component shows the current scheme |
| `ThemePreviewer.ThemePreviewerViewController.PostDidChangeColor` | catalog/MDCCatalog/MDCThemePreviewerViewController.swift:42-44 | each notification is counted and, once the observer is registered, runs the whole registry; before loading nothing runs |
| `ThemePreviewer.ThemePreviewerViewController.Register` | catalog/MDCCatalog/MDCThemePreviewerViewController.swift:60-62 | an applicator is appended at the end of the registry |
| `ThemePreviewer.ThemePreviewerViewController.AddComponent` | catalog/MDCCatalog/MDCThemePreviewerViewController.swift:68-69 | a component is added to the scroll view and the content size grows to the bounding size of all added frames |
| `ThemePreviewer.ThemePreviewerViewController.AddToRow` | catalog/MDCCatalog/MDCThemePreviewerViewController.swift:74-79 | a first-row component is placed 16 points right of the content width at y = 16, so it starts 16 points after every earlier component ends |
| `ThemePreviewer.ThemePreviewerViewController.LayOutRow` | catalog/MDCCatalog/MDCThemePreviewerViewController.swift:64-111 | the activity indicator is at (16, 16) at its own size; the flat, floating and raised buttons and the 200 by 200 card each sit at x = content width so far + 16, y = 16, at their sizes; their applicators are appended in that order and the content size is the frames' bounding size |
| `ThemePreviewer.RowFramesKept` | catalog/MDCCatalog/MDCThemePreviewerViewController.swift:113-128 | adding the navigation bar after the first row leaves the five row frames as placed |
| `ThemePreviewer.ThemePreviewerViewController.LayOutComponents` | catalog/MDCCatalog/MDCThemePreviewerViewController.swift:54-128 | seven applicators (background, activity indicator, flat, floating, raised, card, navigation bar) are appended in that order; the five row frames are exact, and the navigation bar is at (16, row height + 16), 320 wide at its own height; the content size is the bounding size of the six frames |
| `ThemePreviewer.ThemePreviewerViewController.ViewDidLoad` | catalog/MDCCatalog/MDCThemePreviewerViewController.swift:39-146 | after loading, the registry is the seven applicators, all seven have run once in order, every component shows the current scheme, and the six frames are those of `LayOutComponents`, with the content size their bounding size |
| `ThemePreviewer.ThemePreviewerViewController.EditorDidChange` | catalog/MDCCatalog/MDCThemePreviewerViewController.swift:238-273 | an editor writes only its own slot and posts exactly one notification, even for an unchanged value; the registry runs and the components show the new scheme |
| `ThemePreviewer.ThemePreviewerViewController.RemoveEditorSubviews` | catalog/MDCCatalog/MDCThemePreviewerViewController.swift:300 | every view of the editor area is removed |
| `ThemePreviewer.ThemePreviewerViewController.DidSelectRow` | catalog/MDCCatalog/MDCThemePreviewerViewController.swift:299-307 | afterwards exactly one editor view is mounted: a new picker for the row's slot, showing that slot's current colour |
| `ThemePreviewer.ColorPickerView.constructor` | catalog/MDCCatalog/MDCThemePreviewerViewController.swift:166-196 | a picker holds the given colour and editor slot, and its sliders show the colour's components |
| `ThemePreviewer.ColorPickerView.SliderDidChange` | catalog/MDCCatalog/MDCThemePreviewerViewController.swift:202-226 | a colour without RGBA components changes nothing and posts nothing; otherwise only the sender's channel changes, the slot is written and one notification is posted |
| `ThemePreviewer.ColorPickerView.UserMovesSlider` | catalog/MDCCatalog/MDCThemePreviewerViewController.swift:192-193 | moving a slider sets its (clamped) value and sends the value-changed event: an RGBA colour takes the new channel, the slot is written, one notification is posted and the registry runs when loaded; otherwise nothing else changes |
| `ThemePreviewer.RepeatedEditPostsTwice` | catalog/MDCCatalog/MDCThemePreviewerViewController.swift:238-241 | two edits with the same colour post two notifications and run the registry twice; the scheme is as after one edit |

## Left out

- `themeExample` (MDCNodeListViewController.swift:68-81): it probes the example controller's selectors at run time. That is dynamic dispatch into code that is not part of this model.
- The example screen itself: `createExampleViewController` builds a controller this model cannot see, so an example screen carries only its node.
- The action menu button that both screen kinds get (MDCCatalogComponentsController.swift:127-130), navigation-bar title settings, background colours set in `viewDidLoad`, and the initial `.white` background that the background applicator overwrites. These are appearance settings with no logic.
- The node list's display of its rows: the superclass of the node-list screen does it, and that class is not part of this model. So are the node list's other initialisers, which leave the description `""`.
- Any colour slot of the library's scheme other than the nine the previewer edits (the scheme's class is declared outside the catalog): no code of this screen reads or writes one, so the model's scheme has only the nine.
- The applicators' painting (`*ColorThemer.applySemanticColorScheme`). These are foreign library calls; painting is recorded as which palette a component last received.
- NotificationCenter itself. Delivery is synchronous to the one previewer screen. Several previewer screens sharing the global scheme, and any other observers, are not modelled.
- Observer lifetime, `deinit` removal and retain cycles of the closures. This is memory management. A removed picker is simply no longer mounted.
- Frame splitting, slider frames, autoresizing and scroll-view setup. This is rendering geometry.
- Floating-point rounding, including the `Float`/`CGFloat` conversions. Sizes and channels are `real`.
- How `UIColor(red:green:blue:alpha:)` treats components outside 0 to 1. The model keeps them as given.
- The catalog-by-convention class methods (breadcrumbs, debug and primary-demo flags) of the previewer. These are constants with no behaviour.
- `CatalogComponents.DidSelectItem` requires the row to be a valid index into the children. Swift's array subscript traps otherwise.
- `ThemePreviewer.ThemePreviewerViewController.ViewDidLoad` requires the view not to have loaded yet. The toolkit calls it once per screen.
- `ThemePreviewer.ThemePreviewerViewController.DidSelectRow` requires a loaded view and a valid index path. The table only reports rows it shows.

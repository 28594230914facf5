/**
 * The theme previewer: a shared semantic colour scheme, of which the previewer
 * edits nine colour slots; a screen that paints sample components from it; and
 * per-slot editors whose sliders write the scheme and post a "DidChangeColor"
 * notification, on which the screen runs every registered applicator again.
 *
 * Applicators and the components they paint are identified by name; painting
 * is recorded as the palette each component was last painted with. The
 * notification centre is modelled as synchronous delivery to the one screen.
 */
module ThemePreviewer {
  import opened Options
  import opened Geometry

  // ---------------------------------------------------------------- colours

  /** The colour slots of the semantic colour scheme. */
  datatype Slot =
    | Primary | PrimaryVariant | Secondary | Surface | Background
    | OnPrimary | OnSecondary | OnSurface | OnBackground

  /** The four sliders of a colour picker, one per channel. */
  datatype Channel = Red | Green | Blue | Alpha

  datatype Channels = Channels(red: real, green: real, blue: real, alpha: real) {

    function Get(c: Channel): (r: real) {
      match c
      case Red => red
      case Green => green
      case Blue => blue
      case Alpha => alpha
    }

    /** These channels with `c` replaced by `v`. */
    function With(c: Channel, v: real): (r: Channels)
      ensures r.Get(c) == v
      ensures forall k :: k != c ==> r.Get(k) == Get(k)
    {
      match c
      case Red => this.(red := v)
      case Green => this.(green := v)
      case Blue => this.(blue := v)
      case Alpha => this.(alpha := v)
    }
  }

  /**
   * A colour: either one with red, green, blue and alpha components, or one
   * (a pattern colour, say) that cannot be converted to them.
   */
  datatype Color = Rgba(channels: Channels) | NonRgb(id: nat)

  /** The components reported by `getRed(_:green:blue:alpha:)`, when it succeeds. */
  function Components(c: Color): (r: Option<Channels>)
    ensures r.Some? <==> c.Rgba?
    ensures r.Some? ==> r.value == c.channels
  {
    match c
    case Rgba(ch) => Some(ch)
    case NonRgb(_) => None
  }

  /** A slider's value setter keeps the value inside the slider's range, 0 to 1. */
  function Clamp(v: real): (r: real)
    ensures 0.0 <= r <= 1.0
    ensures 0.0 <= v <= 1.0 ==> r == v
    ensures v < 0.0 ==> r == 0.0
    ensures v > 1.0 ==> r == 1.0
  {
    if v < 0.0 then 0.0 else if v > 1.0 then 1.0 else v
  }

  ghost predicate InSliderRange(s: Channels) {
    forall k: Channel :: 0.0 <= s.Get(k) <= 1.0
  }

  /** The slider positions shown for a colour when a picker is created. */
  function InitialSliders(c: Color): (s: Channels)
    ensures InSliderRange(s)
    ensures c.Rgba? ==> forall k: Channel :: s.Get(k) == Clamp(c.channels.Get(k))
    ensures c.NonRgb? ==> s == Channels(0.0, 0.0, 0.0, 0.0)
  {
    match Components(c)
    case Some(ch) => Channels(Clamp(ch.red), Clamp(ch.green), Clamp(ch.blue), Clamp(ch.alpha))
    case None => Channels(0.0, 0.0, 0.0, 0.0)
  }

  /** The control that sent a value-changed event to a picker. */
  datatype Sender = Slider(channel: Channel) | OtherControl

  /**
   * The channels of the colour after a slider event: the sender's channel takes
   * the sender's value; a sender that is none of the four sliders changes nothing.
   */
  function SliderUpdate(current: Channels, sender: Sender, sliders: Channels): (r: Channels)
    ensures sender.Slider? ==> r.Get(sender.channel) == sliders.Get(sender.channel)
    ensures forall k :: (sender.Slider? ==> k != sender.channel) ==> r.Get(k) == current.Get(k)
  {
    match sender
    case Slider(k) => current.With(k, sliders.Get(k))
    case OtherControl => current
  }

  /** The nine colours of a scheme, as a value. */
  datatype Palette = Palette(
    primary: Color, primaryVariant: Color, secondary: Color, surface: Color, background: Color,
    onPrimary: Color, onSecondary: Color, onSurface: Color, onBackground: Color)
  {
    function Get(s: Slot): (r: Color) {
      match s
      case Primary => primary
      case PrimaryVariant => primaryVariant
      case Secondary => secondary
      case Surface => surface
      case Background => background
      case OnPrimary => onPrimary
      case OnSecondary => onSecondary
      case OnSurface => onSurface
      case OnBackground => onBackground
    }

    /** This palette with slot `s` set to `c`. */
    function With(s: Slot, c: Color): (r: Palette)
      ensures r.Get(s) == c
      ensures forall t :: t != s ==> r.Get(t) == Get(t)
    {
      match s
      case Primary => this.(primary := c)
      case PrimaryVariant => this.(primaryVariant := c)
      case Secondary => this.(secondary := c)
      case Surface => this.(surface := c)
      case Background => this.(background := c)
      case OnPrimary => this.(onPrimary := c)
      case OnSecondary => this.(onSecondary := c)
      case OnSurface => this.(onSurface := c)
      case OnBackground => this.(onBackground := c)
    }
  }

  /** Writing the same value twice leaves the palette as one write does. */
  lemma WriteIsIdempotent(p: Palette, s: Slot, c: Color)
    ensures p.With(s, c).With(s, c) == p.With(s, c)
  {
  }

  /** The process-wide colour scheme, mutated in place by the editors; only the nine slots the previewer edits. */
  class SemanticColorScheme {
    var primaryColor: Color
    var primaryColorVariant: Color
    var secondaryColor: Color
    var surfaceColor: Color
    var backgroundColor: Color
    var onPrimaryColor: Color
    var onSecondaryColor: Color
    var onSurfaceColor: Color
    var onBackgroundColor: Color

    /** The scheme's current colours. */
    function Snapshot(): (p: Palette)
      reads this
    {
      Palette(primaryColor, primaryColorVariant, secondaryColor, surfaceColor, backgroundColor,
              onPrimaryColor, onSecondaryColor, onSurfaceColor, onBackgroundColor)
    }

    /** The library's default colours are not part of this model: the initial palette is a parameter. */
    constructor (initial: Palette)
      ensures Snapshot() == initial
    {
      primaryColor, primaryColorVariant, secondaryColor := initial.primary, initial.primaryVariant, initial.secondary;
      surfaceColor, backgroundColor := initial.surface, initial.background;
      onPrimaryColor, onSecondaryColor := initial.onPrimary, initial.onSecondary;
      onSurfaceColor, onBackgroundColor := initial.onSurface, initial.onBackground;
    }
  }

  // ---------------------------------------------------------- the symbol table

  /** An entry of the symbol table: a section's title, or the editor of one slot. */
  datatype SymbolEntry = SectionTitle(title: string) | ColorSchemeEditor(title: string, slot: Slot)

  /** Each section lists its title first and its editors after it. */
  const SymbolsModel: seq<seq<SymbolEntry>> := [
    [
      SectionTitle("Color Scheme"),
      ColorSchemeEditor("Primary", Primary),
      ColorSchemeEditor("Primary variant", PrimaryVariant),
      ColorSchemeEditor("Secondary", Secondary),
      ColorSchemeEditor("Surface", Surface),
      ColorSchemeEditor("Background", Background),
      ColorSchemeEditor("On primary", OnPrimary),
      ColorSchemeEditor("On secondary", OnSecondary),
      ColorSchemeEditor("On surface", OnSurface),
      ColorSchemeEditor("On background", OnBackground)
    ],
    [
      SectionTitle("Typography Scheme")
    ]
  ]

  function NumberOfSections(): (n: nat) {
    |SymbolsModel|
  }

  /** Every entry after the title is a row. */
  function NumberOfRowsInSection(section: nat): (n: int)
    requires section < NumberOfSections()
  {
    |SymbolsModel[section]| - 1
  }

  predicate IsIndexPath(section: nat, row: nat) {
    section < NumberOfSections() && row < NumberOfRowsInSection(section)
  }

  /** The header is the section's first entry, which must be a title. */
  function TitleForHeader(section: nat): (t: string)
    requires section < NumberOfSections()
  {
    match SymbolsModel[section][0]
    case SectionTitle(t) => t
    case ColorSchemeEditor(_, _) => assert false; ""
  }

  /** Row `row` shows the entry after it, which must be an editor. */
  function EditorAt(section: nat, row: nat): (e: SymbolEntry)
    requires IsIndexPath(section, row)
    ensures e.ColorSchemeEditor? && e == SymbolsModel[section][row + 1]
  {
    match SymbolsModel[section][row + 1]
    case ColorSchemeEditor(t, s) => ColorSchemeEditor(t, s)
    case SectionTitle(_) => assert false; ColorSchemeEditor("", Primary)
  }

  /** The table has a colour section of nine rows and a typography section without rows. */
  lemma TableShape()
    ensures NumberOfSections() == 2
    ensures NumberOfRowsInSection(0) == 9 && NumberOfRowsInSection(1) == 0
    ensures TitleForHeader(0) == "Color Scheme" && TitleForHeader(1) == "Typography Scheme"
    ensures forall section, row :: IsIndexPath(section, row) ==> section == 0 && row < 9
  {
  }

  /** The row of the colour section that edits `s`. */
  function RowOf(s: Slot): (row: nat) {
    match s
    case Primary => 0 case PrimaryVariant => 1 case Secondary => 2
    case Surface => 3 case Background => 4 case OnPrimary => 5
    case OnSecondary => 6 case OnSurface => 7 case OnBackground => 8
  }

  /** The colour section's rows edit every slot, each exactly once. */
  lemma ColorRowsCoverEverySlot()
    ensures forall s: Slot :: IsIndexPath(0, RowOf(s)) && EditorAt(0, RowOf(s)).slot == s
    ensures forall row :: IsIndexPath(0, row) ==> RowOf(EditorAt(0, row).slot) == row
  {
  }

  // ------------------------------------------------------------- the screen

  /** The sample components, each painted by one applicator. */
  datatype Applicator =
    | ViewBackground | ActivityIndicator | FlatButton | FloatingButton
    | RaisedButton | Card | NavigationBar

  /** The applicators the screen registers as it loads, in order. */
  const LoadedApplicators: seq<Applicator> :=
    [ViewBackground, ActivityIndicator, FlatButton, FloatingButton, RaisedButton, Card, NavigationBar]

  /** The sizes the components report for themselves; the toolkit computes them. */
  datatype ComponentSizes = ComponentSizes(
    activityIndicator: Size, flatButton: Size, floatingButton: Size, raisedButton: Size,
    navigationBarHeight: real)

  /** The content size grown to cover the frame of one more view. */
  function ExpandContentSize(size: Size, frame: Rect): (r: Size)
    ensures r.width >= size.width && r.width >= frame.MaxX()
    ensures r.height >= size.height && r.height >= frame.MaxY()
    ensures r.width == size.width || r.width == frame.MaxX()
    ensures r.height == size.height || r.height == frame.MaxY()
  {
    Size(Max(size.width, frame.MaxX()), Max(size.height, frame.MaxY()))
  }

  /** The content size after expanding the zero size by each frame in turn. */
  function BoundingSize(frames: seq<Rect>): (r: Size)
    ensures r.width >= 0.0 && r.height >= 0.0
  {
    if frames == [] then Size(0.0, 0.0)
    else ExpandContentSize(BoundingSize(frames[..|frames| - 1]), frames[|frames| - 1])
  }

  /** The content size covers every frame and is the smallest non-negative size that does. */
  lemma {:induction false} BoundingSizeIsLeast(frames: seq<Rect>, bound: Size)
    ensures BoundingSize(frames).width >= 0.0 && BoundingSize(frames).height >= 0.0
    ensures forall i :: 0 <= i < |frames| ==>
      frames[i].MaxX() <= BoundingSize(frames).width && frames[i].MaxY() <= BoundingSize(frames).height
    ensures bound.width >= 0.0 && bound.height >= 0.0
         && (forall i :: 0 <= i < |frames| ==> frames[i].MaxX() <= bound.width && frames[i].MaxY() <= bound.height)
         ==> BoundingSize(frames).width <= bound.width && BoundingSize(frames).height <= bound.height
  {
    if frames != [] {
      var init := frames[..|frames| - 1];
      BoundingSizeIsLeast(init, bound);
      forall i | 0 <= i < |init| ensures init[i] == frames[i] { }
    }
  }

  /** Each of the first `n` frames starts at least 16 points right of every earlier one's end. */
  ghost predicate LeftToRight(frames: seq<Rect>, n: nat)
    requires n <= |frames|
  {
    forall i, j :: 0 <= i < j < n ==> frames[i].MaxX() + 16.0 <= frames[j].x
  }

  lemma LeftToRightExtends(frames: seq<Rect>, f: Rect)
    requires LeftToRight(frames, |frames|)
    requires forall i :: 0 <= i < |frames| ==> frames[i].MaxX() + 16.0 <= f.x
    ensures LeftToRight(frames + [f], |frames| + 1)
  {
  }

  /**
   * The first five frames are those of the first row: the activity indicator at
   * (16, 16), then the flat, floating and raised buttons and the 200 by 200 card,
   * each at 16 points right of the content size so far, at their own sizes.
   */
  ghost predicate RowFrames(frames: seq<Rect>, sizes: ComponentSizes)
    requires |frames| >= 5
  {
    && frames[0] == Rect(16.0, 16.0, sizes.activityIndicator.width, sizes.activityIndicator.height)
    && frames[1] == Rect(BoundingSize(frames[..1]).width + 16.0, 16.0, sizes.flatButton.width, sizes.flatButton.height)
    && frames[2] == Rect(BoundingSize(frames[..2]).width + 16.0, 16.0,
                         sizes.floatingButton.width, sizes.floatingButton.height)
    && frames[3] == Rect(BoundingSize(frames[..3]).width + 16.0, 16.0,
                         sizes.raisedButton.width, sizes.raisedButton.height)
    && frames[4] == Rect(BoundingSize(frames[..4]).width + 16.0, 16.0, 200.0, 200.0)
  }

  /** Adding a frame after the first row keeps the row's frames. */
  lemma RowFramesKept(frames: seq<Rect>, f: Rect, sizes: ComponentSizes)
    requires |frames| >= 5 && RowFrames(frames, sizes)
    ensures RowFrames(frames + [f], sizes)
  {
    var grown := frames + [f];
    assert grown[..1] == frames[..1] && grown[..2] == frames[..2];
    assert grown[..3] == frames[..3] && grown[..4] == frames[..4];
  }

  class ThemePreviewerViewController {
    /** The shared scheme the applicators paint from. */
    const scheme: SemanticColorScheme
    /** The view has loaded, and with it the "DidChangeColor" observer is registered. */
    var loaded: bool
    /** The registry of applicators, only ever appended to. */
    var applicators: seq<Applicator>
    /** Every applicator run, in the order of the runs. */
    var runs: seq<Applicator>
    /** The palette each component was last painted with. */
    var painted: map<Applicator, Palette>
    /** The number of "DidChangeColor" notifications posted. */
    var colorChangesPosted: nat
    /** The frames of the components in the scroll view, in the order they were added. */
    var componentFrames: seq<Rect>
    /** The scroll view's content size. */
    var componentsContentSize: Size
    /** The views mounted in the editor area. */
    var editorSubviews: seq<ColorPickerView>

    /**
     * Before loading nothing is registered or shown; at most one editor is
     * mounted; and every registered component shows the current scheme.
     */
    ghost predicate Valid()
      reads this, scheme
    {
      && (!loaded ==> applicators == [] && componentFrames == [] && editorSubviews == [])
      && |editorSubviews| <= 1
      && (forall p :: p in editorSubviews ==> p.host == this)
      && (forall a :: a in applicators ==> a in painted && painted[a] == scheme.Snapshot())
    }

    constructor (scheme: SemanticColorScheme)
      ensures Valid() && this.scheme == scheme && !loaded
      ensures applicators == [] && runs == [] && painted == map[] && colorChangesPosted == 0
      ensures componentFrames == [] && componentsContentSize == Size(0.0, 0.0) && editorSubviews == []
    {
      this.scheme := scheme;
      loaded := false;
      applicators, runs, painted := [], [], map[];
      colorChangesPosted := 0;
      componentFrames, componentsContentSize := [], Size(0.0, 0.0);
      editorSubviews := [];
    }

    /** Runs every registered applicator once, in registration order. */
    method RunApplicators()
      modifies this`runs, this`painted
      ensures runs == old(runs) + applicators
      ensures forall a :: a in applicators ==> a in painted && painted[a] == scheme.Snapshot()
      ensures forall a :: a !in applicators ==>
        (a in painted <==> a in old(painted)) && (a in painted ==> painted[a] == old(painted)[a])
    {
      for i := 0 to |applicators|
        invariant runs == old(runs) + applicators[..i]
        invariant forall a :: a in applicators[..i] ==> a in painted && painted[a] == scheme.Snapshot()
        invariant forall a :: a !in applicators[..i] ==>
          (a in painted <==> a in old(painted)) && (a in painted ==> painted[a] == old(painted)[a])
      {
        assert applicators[..i + 1] == applicators[..i] + [applicators[i]];
        runs := runs + [applicators[i]];
        painted := painted[applicators[i] := scheme.Snapshot()];
      }
      assert applicators[..|applicators|] == applicators;
    }

    /** Delivery of a "DidChangeColor" notification; before loading nobody observes it. */
    method PostDidChangeColor()
      modifies this`runs, this`painted, this`colorChangesPosted
      ensures colorChangesPosted == old(colorChangesPosted) + 1
      ensures runs == old(runs) + (if loaded then applicators else [])
      ensures loaded ==> forall a :: a in applicators ==> a in painted && painted[a] == scheme.Snapshot()
      ensures !loaded ==> painted == old(painted)
      ensures forall a :: a !in applicators ==>
        (a in painted <==> a in old(painted)) && (a in painted ==> painted[a] == old(painted)[a])
    {
      colorChangesPosted := colorChangesPosted + 1;
      if loaded {
        RunApplicators();
      }
    }

    /** Registers an applicator at the end of the registry. */
    method Register(a: Applicator)
      modifies this`applicators
      ensures applicators == old(applicators) + [a]
    {
      applicators := applicators + [a];
    }

    /** Adds a component to the scroll view and grows the content size to cover it. */
    method AddComponent(frame: Rect, contentSize: Size) returns (grown: Size)
      requires contentSize == BoundingSize(componentFrames)
      modifies this`componentFrames
      ensures componentFrames == old(componentFrames) + [frame]
      ensures grown == ExpandContentSize(contentSize, frame) == BoundingSize(componentFrames)
      ensures forall i :: 0 <= i < |componentFrames| ==>
        componentFrames[i].MaxX() <= grown.width && componentFrames[i].MaxY() <= grown.height
    {
      componentFrames := componentFrames + [frame];
      grown := ExpandContentSize(contentSize, frame);
      assert componentFrames[..|componentFrames| - 1] == old(componentFrames);
      BoundingSizeIsLeast(componentFrames, grown);
    }

    /** Places a component 16 points right of everything placed so far, on the first row. */
    method AddToRow(size: Size, contentSize: Size) returns (grown: Size)
      requires contentSize == BoundingSize(componentFrames)
      requires LeftToRight(componentFrames, |componentFrames|)
      requires forall i :: 0 <= i < |componentFrames| ==> componentFrames[i].y == 16.0
      modifies this`componentFrames
      ensures componentFrames == old(componentFrames) + [Rect(contentSize.width + 16.0, 16.0, size.width, size.height)]
      ensures grown == BoundingSize(componentFrames)
      ensures LeftToRight(componentFrames, |componentFrames|)
      ensures forall i :: 0 <= i < |componentFrames| ==> componentFrames[i].y == 16.0
    {
      var frame := Rect(contentSize.width + 16.0, 16.0, size.width, size.height);
      BoundingSizeIsLeast(componentFrames, contentSize);
      LeftToRightExtends(componentFrames, frame);
      grown := AddComponent(frame, contentSize);
    }

    /**
     * Lays out the five components of the first row, left to right, each 16
     * points right of the content so far, registering the applicator of each.
     */
    method LayOutRow(sizes: ComponentSizes) returns (contentSize: Size)
      requires componentFrames == []
      modifies this`applicators, this`componentFrames
      ensures applicators == old(applicators) + [ActivityIndicator, FlatButton, FloatingButton, RaisedButton, Card]
      ensures |componentFrames| == 5 && contentSize == BoundingSize(componentFrames)
      ensures RowFrames(componentFrames, sizes)
      ensures LeftToRight(componentFrames, 5)
      ensures forall i :: 0 <= i < 5 ==> componentFrames[i].y == 16.0
    {
      var frame := Rect(16.0, 16.0, sizes.activityIndicator.width, sizes.activityIndicator.height);
      contentSize := AddComponent(frame, Size(0.0, 0.0));
      Register(ActivityIndicator);
      ghost var placed1 := componentFrames;
      contentSize := AddToRow(sizes.flatButton, contentSize);
      Register(FlatButton);
      ghost var placed2 := componentFrames;
      contentSize := AddToRow(sizes.floatingButton, contentSize);
      Register(FloatingButton);
      ghost var placed3 := componentFrames;
      contentSize := AddToRow(sizes.raisedButton, contentSize);
      Register(RaisedButton);
      ghost var placed4 := componentFrames;
      contentSize := AddToRow(Size(200.0, 200.0), contentSize);
      Register(Card);
      assert componentFrames[..4] == placed4;
      assert componentFrames[..3] == placed3;
      assert componentFrames[..2] == placed2;
      assert componentFrames[..1] == placed1;
    }

    /**
     * Lays out the six sample components, registering the applicator of each
     * (and first of the view's background): five left to right on the first
     * row, the navigation bar, 320 points wide, below them.
     */
    method LayOutComponents(sizes: ComponentSizes) returns (contentSize: Size)
      requires applicators == [] && componentFrames == []
      modifies this`applicators, this`componentFrames
      ensures applicators == LoadedApplicators
      ensures |componentFrames| == 6 && contentSize == BoundingSize(componentFrames)
      ensures RowFrames(componentFrames, sizes)
      ensures componentFrames[5] == Rect(16.0, BoundingSize(componentFrames[..5]).height + 16.0,
                                         320.0, sizes.navigationBarHeight)
      ensures LeftToRight(componentFrames, 5)
      ensures forall i :: 0 <= i < 5 ==> componentFrames[i].y == 16.0
      ensures forall i :: 0 <= i < 5 ==> componentFrames[i].MaxY() + 16.0 <= componentFrames[5].y
    {
      Register(ViewBackground);
      contentSize := LayOutRow(sizes);
      ghost var row := componentFrames;
      var frame := Rect(16.0, contentSize.height + 16.0, 320.0, sizes.navigationBarHeight);
      BoundingSizeIsLeast(row, contentSize);
      contentSize := AddComponent(frame, contentSize);
      Register(NavigationBar);
      assert componentFrames[..5] == row;
      RowFramesKept(row, frame, sizes);
    }

    /**
     * Loading the view: registers the observer, lays out the sample components
     * with their seven applicators, and runs all of them once.
     */
    method ViewDidLoad(sizes: ComponentSizes)
      requires Valid() && !loaded
      modifies this
      ensures Valid() && loaded
      ensures applicators == LoadedApplicators
      ensures runs == old(runs) + LoadedApplicators
      ensures |componentFrames| == 6
      ensures componentsContentSize == BoundingSize(componentFrames)
      ensures forall i, j :: 0 <= i < j < 5 ==> componentFrames[i].MaxX() + 16.0 <= componentFrames[j].x
      ensures forall i :: 0 <= i < 5 ==> componentFrames[i].MaxY() + 16.0 <= componentFrames[5].y
      ensures componentFrames[5].x == 16.0
      ensures forall i :: 0 <= i < 5 ==> componentFrames[i].y == 16.0
      ensures RowFrames(componentFrames, sizes)
      ensures componentFrames[5] == Rect(16.0, BoundingSize(componentFrames[..5]).height + 16.0,
                                         320.0, sizes.navigationBarHeight)
      ensures colorChangesPosted == old(colorChangesPosted) && editorSubviews == old(editorSubviews)
    {
      loaded := true;
      var contentSize := LayOutComponents(sizes);
      componentsContentSize := contentSize;
      RunApplicators();
    }

    /**
     * An editor's `didChange`: writes the editor's slot of the shared scheme and
     * posts "DidChangeColor", whether or not the colour changed.
     */
    method EditorDidChange(slot: Slot, color: Color)
      requires Valid()
      modifies this`runs, this`painted, this`colorChangesPosted, scheme
      ensures Valid()
      ensures scheme.Snapshot() == old(scheme.Snapshot()).With(slot, color)
      ensures colorChangesPosted == old(colorChangesPosted) + 1
      ensures runs == old(runs) + (if loaded then applicators else [])
    {
      match slot {
        case Primary => scheme.primaryColor := color;
        case PrimaryVariant => scheme.primaryColorVariant := color;
        case Secondary => scheme.secondaryColor := color;
        case Surface => scheme.surfaceColor := color;
        case Background => scheme.backgroundColor := color;
        case OnPrimary => scheme.onPrimaryColor := color;
        case OnSecondary => scheme.onSecondaryColor := color;
        case OnSurface => scheme.onSurfaceColor := color;
        case OnBackground => scheme.onBackgroundColor := color;
      }
      PostDidChangeColor();
    }

    /** Unmounts every view of the editor area, one at a time. */
    method RemoveEditorSubviews()
      modifies this`editorSubviews
      ensures editorSubviews == []
    {
      var subviews := editorSubviews;
      for i := 0 to |subviews|
        invariant editorSubviews == subviews[i..]
      {
        editorSubviews := editorSubviews[1..];
      }
    }

    /** Selecting a row replaces whatever editor is mounted by a new picker for that row's slot. */
    method DidSelectRow(section: nat, row: nat) returns (picker: ColorPickerView)
      requires Valid() && loaded && IsIndexPath(section, row)
      modifies this`editorSubviews
      ensures Valid() && picker.Valid()
      ensures fresh(picker) && editorSubviews == [picker]
      ensures picker.host == this && picker.slot == EditorAt(section, row).slot
      ensures picker.color == scheme.Snapshot().Get(picker.slot)
      ensures picker.sliders == InitialSliders(picker.color)
    {
      RemoveEditorSubviews();
      var editor := EditorAt(section, row);
      picker := new ColorPickerView(this, editor.slot, scheme.Snapshot().Get(editor.slot));
      editorSubviews := editorSubviews + [picker];
    }
  }

  /** The editor view of one slot: four sliders over the colour being edited. */
  class ColorPickerView {
    /** The screen whose editor area shows this picker, reached by the notification. */
    const host: ThemePreviewerViewController
    /** The slot whose editor created this picker; its `didChange` writes that slot. */
    const slot: Slot
    var color: Color
    /** The red, green, blue and alpha slider values. */
    var sliders: Channels

    ghost predicate Valid()
      reads this, host, host.scheme
    {
      host.Valid() && InSliderRange(sliders)
    }

    /** The sliders start at the colour's components when it has them, and at zero otherwise. */
    constructor (host: ThemePreviewerViewController, slot: Slot, color: Color)
      requires host.Valid()
      ensures Valid()
      ensures this.host == host && this.slot == slot && this.color == color
      ensures sliders == InitialSliders(color)
    {
      this.host := host;
      this.slot := slot;
      this.color := color;
      sliders := InitialSliders(color);
    }

    /**
     * A value-changed event: when the colour has components, the sender's
     * channel takes the sender's value, and the new colour is passed to the
     * slot's `didChange`; otherwise nothing happens.
     */
    method SliderDidChange(sender: Sender)
      requires Valid()
      modifies this`color, host`runs, host`painted, host`colorChangesPosted, host.scheme
      ensures Valid() && sliders == old(sliders)
      ensures old(color).NonRgb? ==> unchanged(this, host, host.scheme)
      ensures old(color).Rgba? ==>
        color == Rgba(SliderUpdate(old(color).channels, sender, sliders))
        && host.scheme.Snapshot() == old(host.scheme.Snapshot()).With(slot, color)
        && host.colorChangesPosted == old(host.colorChangesPosted) + 1
        && host.runs == old(host.runs) + (if host.loaded then host.applicators else [])
    {
      var components := Components(color);
      if components.None? {
        return;
      }
      color := Rgba(SliderUpdate(components.value, sender, sliders));
      host.EditorDidChange(slot, color);
    }

    /** The user drags the slider of `channel` to `value`; the toolkit then sends the event. */
    method UserMovesSlider(channel: Channel, value: real)
      requires Valid()
      modifies this`color, this`sliders, host`runs, host`painted, host`colorChangesPosted, host.scheme
      ensures Valid()
      ensures sliders == old(sliders).With(channel, Clamp(value))
      ensures old(color).NonRgb? ==> color == old(color) && unchanged(host, host.scheme)
      ensures old(color).Rgba? ==>
        color == Rgba(old(color).channels.With(channel, Clamp(value)))
        && host.scheme.Snapshot() == old(host.scheme.Snapshot()).With(slot, color)
        && host.colorChangesPosted == old(host.colorChangesPosted) + 1
        && host.runs == old(host.runs) + (if host.loaded then host.applicators else [])
    {
      sliders := sliders.With(channel, Clamp(value));
      SliderDidChange(Slider(channel));
    }
  }

  /** Two edits with the same colour post two notifications and write the slot once. */
  method RepeatedEditPostsTwice(previewer: ThemePreviewerViewController, slot: Slot, color: Color)
    requires previewer.Valid() && previewer.loaded
    modifies previewer`runs, previewer`painted, previewer`colorChangesPosted, previewer.scheme
    ensures previewer.Valid()
    ensures previewer.colorChangesPosted == old(previewer.colorChangesPosted) + 2
    ensures previewer.scheme.Snapshot() == old(previewer.scheme.Snapshot()).With(slot, color)
    ensures previewer.runs == old(previewer.runs) + previewer.applicators + previewer.applicators
  {
    previewer.EditorDidChange(slot, color);
    var afterFirst := previewer.scheme.Snapshot();
    previewer.EditorDidChange(slot, color);
    assert previewer.scheme.Snapshot() == afterFirst;
  }
}

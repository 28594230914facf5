/**
 * The catalog's home grid: the size of its square cells, laid out again on
 * every layout pass, and the screen pushed when a cell is tapped.
 * Sizes are real numbers; the floating-point type of the toolkit is not modelled.
 */
module CatalogComponents {
  import opened CatalogNodes
  import NodeList
  import opened Geometry

  /** The device family the toolkit reports. */
  datatype Idiom = Phone | Pad | TV | CarPlay | Unspecified

  /** What the layout pass reads from the view and the system. */
  datatype LayoutEnvironment = LayoutEnvironment(
    idiom: Idiom,
    width: real,
    height: real,
    safeAreaLeft: real,
    safeAreaRight: real,
    systemAtLeastIOS11: bool)

  /** Width of the divider drawn between cells and at both edges. */
  const DividerWidth: real := 1.0

  /** Phones show two columns in portrait and three in landscape; other devices four. */
  function ColumnCount(env: LayoutEnvironment): (n: nat)
    ensures 2 <= n <= 4
  {
    if env.idiom == Phone then (if env.width > env.height then 3 else 2) else 4
  }

  /** The horizontal safe-area insets, which exist from iOS 11 on. */
  function SafeInsets(env: LayoutEnvironment): (r: real) {
    if env.systemAtLeastIOS11 then env.safeAreaLeft + env.safeAreaRight else 0.0
  }

  /**
   * The item size set on the flow layout. The cells are square, and the
   * columns, one more divider than there are columns, and the safe-area insets
   * together take up exactly the width of the view.
   */
  method ViewDidLayoutSubviews(env: LayoutEnvironment) returns (itemSize: Size)
    ensures itemSize.width == itemSize.height
    ensures ColumnCount(env) as real * itemSize.width
            + (ColumnCount(env) + 1) as real * DividerWidth
            + SafeInsets(env) == env.width
  {
    var safeInsets: real := 0.0;
    if env.systemAtLeastIOS11 {
      safeInsets := env.safeAreaLeft + env.safeAreaRight;
    }
    var cellWidthHeight: real;
    if env.idiom == Phone {
      cellWidthHeight := (env.width - 3.0 * DividerWidth - safeInsets) / 2.0;
      if env.width > env.height {
        cellWidthHeight := (env.width - 4.0 * DividerWidth - safeInsets) / 3.0;
      }
    } else {
      cellWidthHeight := (env.width - 5.0 * DividerWidth - safeInsets) / 4.0;
    }
    itemSize := Size(cellWidthHeight, cellWidthHeight);
  }

  /** The screen pushed onto the navigation stack; a node list keeps only its description. */
  datatype Screen =
    | ExampleScreen(example: CatalogNode)
    | NodeListScreen(node: CatalogNode, componentDescription: string)

  /** Tapping the cell at `row` opens that child: its example if it is one, a nested list otherwise. */
  function DidSelectItem(node: CatalogNode, row: nat): (s: Screen)
    requires row < |node.children|
  {
    var child := node.children[row];
    if child.isExample then ExampleScreen(child) else NodeListScreen(child, NodeList.ComponentDescription(child))
  }

  /** The tapped child's kind decides the kind of screen, and the screen is about that child. */
  lemma DidSelectItemOpensChild(node: CatalogNode, row: nat)
    requires row < |node.children|
    ensures DidSelectItem(node, row).ExampleScreen? <==> node.children[row].isExample
    ensures DidSelectItem(node, row).ExampleScreen? ==> DidSelectItem(node, row).example == node.children[row]
    ensures DidSelectItem(node, row).NodeListScreen? ==> DidSelectItem(node, row).node == node.children[row]
  {
  }

  /**
   * Opening a category whose children include a primary example shows the
   * description of the first such child.
   */
  lemma CategoryShowsPrimaryDescription(node: CatalogNode, row: nat, i: nat)
    requires row < |node.children| && !node.children[row].isExample
    requires i < |node.children[row].children| && IsPrimaryExample(node.children[row].children[i])
    requires forall j :: 0 <= j < i ==> !IsPrimaryExample(node.children[row].children[j])
    ensures DidSelectItem(node, row).NodeListScreen?
    ensures DidSelectItem(node, row).componentDescription
         == node.children[row].children[i].exampleDescription.GetOr("")
  {
    NodeList.DescriptionOfFirstPrimaryExample(node.children[row], i);
  }
}

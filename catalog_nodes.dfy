/**
 * The catalog tree that the catalog-by-convention library builds at start-up.
 * The catalog only asks a node for its title, whether it is an example, whether
 * it is its parent's primary demo, its description and its children.
 */
module CatalogNodes {
  import opened Options

  datatype CatalogNode = CatalogNode(
    title: string,
    isExample: bool,
    isPrimaryDemo: bool,
    exampleDescription: Option<string>,
    children: seq<CatalogNode>)

  predicate IsExample(n: CatalogNode) { n.isExample }

  predicate IsPrimaryDemo(n: CatalogNode) { n.isPrimaryDemo }

  predicate IsNonPrimaryDemo(n: CatalogNode) { !n.isPrimaryDemo }

  predicate IsPrimaryExample(n: CatalogNode) { n.isExample && n.isPrimaryDemo }
}

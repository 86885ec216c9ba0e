/**
 * The glossary taxonomy registrar: `glossary` is registered for the
 * `touring_arts` post type, with its admin UI hidden, only when no taxonomy
 * of that name exists yet.
 */
module Taxonomy {

  /** The arguments a taxonomy is registered with: its object types and `show_ui`. */
  datatype TaxonomyArgs = TaxonomyArgs(objectTypes: seq<string>, showUi: bool)

  const GlossaryName: string := "glossary"
  const GlossaryArgs: TaxonomyArgs := TaxonomyArgs(["touring_arts"], false)

  /**
   * The registry after one run of the registrar: `glossary` is present
   * afterwards, an existing registration of it is kept as it is, and no
   * other taxonomy is added, removed or changed.
   */
  function WithGlossary(registry: map<string, TaxonomyArgs>): (r: map<string, TaxonomyArgs>)
    ensures GlossaryName in r
    ensures GlossaryName in registry ==> r[GlossaryName] == registry[GlossaryName]
    ensures GlossaryName !in registry ==> r[GlossaryName] == GlossaryArgs
    ensures forall name :: name != GlossaryName ==> (name in r <==> name in registry)
    ensures forall name :: name in r && name != GlossaryName ==> r[name] == registry[name]
  {
    if GlossaryName in registry then registry else registry[GlossaryName := GlossaryArgs]
  }

  /** Running the registrar a second time changes nothing. */
  lemma WithGlossaryIdempotent(registry: map<string, TaxonomyArgs>)
    ensures WithGlossary(WithGlossary(registry)) == WithGlossary(registry)
  {
  }

  /** The host's taxonomy registry, keyed by taxonomy name. */
  class Registry {
    var taxonomies: map<string, TaxonomyArgs>

    constructor (initial: map<string, TaxonomyArgs>)
      ensures taxonomies == initial
    {
      taxonomies := initial;
    }

    /** `taxonomy_exists($name)` */
    predicate TaxonomyExists(name: string)
      reads this
    {
      name in taxonomies
    }

    /** `register_taxonomy($name, $types, $args)` as an entry in the registry. */
    method RegisterTaxonomy(name: string, args: TaxonomyArgs)
      modifies this
      ensures taxonomies == old(taxonomies)[name := args]
    {
      taxonomies := taxonomies[name := args];
    }

    /** `stf_create_glossary_taxonomy()` */
    method CreateGlossaryTaxonomy()
      modifies this
      ensures taxonomies == WithGlossary(old(taxonomies))
    {
      if !TaxonomyExists(GlossaryName) {
        RegisterTaxonomy(GlossaryName, TaxonomyArgs(["touring_arts"], false));
      }
    }
  }

  /** Two runs of the registrar leave the registry as one run does. */
  method CreateGlossaryTaxonomyTwice(registry: Registry)
    modifies registry
    ensures registry.taxonomies == WithGlossary(old(registry.taxonomies))
  {
    registry.CreateGlossaryTaxonomy();
    registry.CreateGlossaryTaxonomy();
    WithGlossaryIdempotent(old(registry.taxonomies));
  }
}

# Glossary pagination for Touring Arts posts — a verified model

The WordPress plugin fragment `stf_glossary_pagination.php` does three things:

- **Registrar** (`stf_create_glossary_taxonomy`): registers a flat `glossary`
  taxonomy on the `touring_arts` post type, with its admin UI hidden. It does
  this only when no taxonomy of that name exists yet.
- **Indexer** (`stf_save_first_letter`): on every `init`, it walks all
  `touring_arts` posts and sets each post's glossary term to
  `strtolower(substr($sort_by, 0, 1))`. The sort key `$sort_by` is the
  `sort_by_keyword` meta value unless PHP's `empty()` holds for it, and the
  post title otherwise.
- **Pagination renderer** (`glossary($post_type)`): builds the A–Z menu. It
  emits one `<li class="az-char …">` per letter a..z, each linking to
  `home_url('/')`, then the concentration part, the tag part and
  `?s=<search>&search-type=<post type>&glossary=<letter>&sentence=1`. The
  items sit inside a fixed header and a fixed block of two paddle buttons.

The model has four modules:

- `Php` (`php.dfy`): the PHP built-ins the code uses, on ASCII strings.
  - `empty()` and string truthiness (`""` and `"0"`).
  - `strtolower` and `strtoupper`.
  - `substr` with non-negative offsets.
  - `sprintf` with a single `%s`.
- `Taxonomy` (`taxonomy.dfy`): the registrar.
  - The host's taxonomy registry is a class holding a map.
  - `CreateGlossaryTaxonomy` is proved to equal the pure function
    `WithGlossary` of the old registry.
  - `WithGlossary` is proved idempotent.
- `FirstLetter` (`first_letter.dfy`): the indexer.
  - The sort key and the term are pure functions of one post.
  - The loop over the fetched posts is a method on a class. The class holds
    the terms this code has set (a map from post id to term) and the log of
    `wp_set_post_terms` calls.
- `Pagination` (`pagination.dfy`): the renderer.
  - `Glossary` is a pure specification of the whole HTML string.
  - `RenderGlossary` appends to `html` step by step over the 26 letters, as
    the source does, and is proved equal to `Glossary`.
  - Lemmas then state the layout of that string.

Host lookups become parameters:

- `get_posts` is the `posts` sequence.
- `get_post_meta` is the post's `sortByKeyword` field, which is "" when the
  meta value is absent.
- The request state is a `Request` value holding `get_search_query`, `is_tag`,
  `single_tag_title`, `is_tax('concentration')` and the queried slug,
  `get_query_var('glossary')` and `home_url('/')`.

Two points where the code does not do what its own comments say:

- **The selected letter is still a link.** The comment at lines 79-81 says
  the selected item loses its hyperlink and is styled differently (the
  `<strong>` branch). The test on line 82 compares `'current-menu-item'`
  with `$current`. But `$current` is only ever
  `"current-menu-item menu-item"` or `"menu-item"`, so that branch never runs.
  Every letter, the selected one included, is an anchor; the selected one
  differs only in its class. The model keeps the dead branch as written, and
  `ItemIsAnchor` proves it unreachable.
- **Terms are not always a letter.** The comments at lines 3-4 and 32 speak
  of the "first letter" of the title as the term. The code lowercases
  whatever the first byte of the sort key is, so a digit or punctuation mark
  stays as it is. An empty sort key gives the empty term, and the post is not
  skipped. The model follows the code.

## Model

| member | source | states |
|---|---|---|
| `Php.StrToLower` | stf_glossary_pagination.php:47 | same length; each byte lowered; no A–Z byte remains |
| `Php.Substr` | stf_glossary_pagination.php:47 | `substr` keeps `min(length, what remains after start)` bytes, each the byte at `start + i` of the input; "" past the end |
| `Php.ToUpperChar` | stf_glossary_pagination.php:83-85 | a lowercase letter becomes its capital, 32 below it; other bytes are unchanged |
| `Php.SprintfSubstitutes` | stf_glossary_pagination.php:83-85 | a format `prefix + "%s" + suffix` whose prefix has no `%` yields `prefix + class + suffix` |
| `Taxonomy.WithGlossary` | stf_glossary_pagination.php:22-26 | afterwards `glossary` exists; an existing registration is kept as it was; a new one is for `touring_arts` with `show_ui` false; no other taxonomy changes |
| `Taxonomy.WithGlossaryIdempotent` | stf_glossary_pagination.php:22-26 | running the registrar twice equals running it once |
| `Taxonomy.Registry.RegisterTaxonomy` | stf_glossary_pagination.php:23-25 | the registry afterwards has the name bound to the given arguments, all else unchanged |
| `Taxonomy.Registry.CreateGlossaryTaxonomy` | stf_glossary_pagination.php:20-27 | the new registry is `WithGlossary` of the old one |
| `Taxonomy.CreateGlossaryTaxonomyTwice` | stf_glossary_pagination.php:20-28 | two `init` runs of the registrar leave the registry as one run does |
| `FirstLetter.SortKey` | stf_glossary_pagination.php:45 | the key is the meta value or the title; the meta value whenever `empty()` is false for it; `"0"` falls back to the title; the key is "" exactly when the meta value is empty and the title is "" |
| `FirstLetter.GlossaryTerm` | stf_glossary_pagination.php:47 | at most one byte; "" exactly when the sort key is ""; otherwise the lowered first byte of the key, which is a lowercase letter when that byte is an ASCII letter |
| `FirstLetter.CallsForEachPost` | stf_glossary_pagination.php:42-49 | one `wp_set_post_terms` call per fetched post, in fetch order, each with that post's id and its own term |
| `FirstLetter.TermsOfEachPost` | stf_glossary_pagination.php:40-49 | for posts with distinct ids: exactly the fetched ids get a term, and each gets the term of its own sort key |
| `FirstLetter.SaveFirstLetterTwice` | stf_glossary_pagination.php:38-51 | two `init` runs of the indexer over the same posts: the call log holds both passes, and the term map is as one pass leaves it |
| `FirstLetter.GlossaryIndex.SetPostTerm` | stf_glossary_pagination.php:47 | logs the call and binds the post id to the term |
| `FirstLetter.GlossaryIndex.SaveFirstLetter` | stf_glossary_pagination.php:38-50 | the call log grows by `CallsFor(posts)`; the term map becomes the old map overridden by `TermsOf(posts)` |
| `Pagination.Alphabet` | stf_glossary_pagination.php:74 | `range('a', 'z')`: 26 lowercase letters from `a` to `z`, strictly ascending |
| `Pagination.Glossary` | stf_glossary_pagination.php:61-103 | for any inputs, the widget starts with the menu-bar header and ends with the `</ul>` plus paddles footer |
| `Pagination.RenderItem` | stf_glossary_pagination.php:77-86 | one pass of the a..z loop yields the item the specification `Item` gives for that letter |
| `Pagination.RenderGlossary` | stf_glossary_pagination.php:61-103 | the string built append by append equals `Glossary(postType, req)` |
| `Pagination.ItemIsAnchor` | stf_glossary_pagination.php:78-86 | the class is never `"current-menu-item"`, so the `<strong>` branch is dead and every item is `<li class="az-char CLASS"><a href="LINK">UPPER</a></li>` |
| `Pagination.ItemsAreAnchors` | stf_glossary_pagination.php:74-88 | the items for any letter sequence are the expected anchors, one per letter, in order |
| `Pagination.GlossaryLayout` | stf_glossary_pagination.php:69-100 | the widget is exactly the header, then 26 anchors for a..z in ascending order, then the footer |
| `Pagination.CurrentItem` | stf_glossary_pagination.php:78 | an item's class is `current-menu-item menu-item` exactly when the query var equals its letter, and `menu-item` otherwise; at most one of the 26 is current |
| `Pagination.ItemLabel` | stf_glossary_pagination.php:83-85 | the visible text of the k-th item is the k-th capital letter |
| `Pagination.LinkLayout` | stf_glossary_pagination.php:64-77 | the href is the home URL, then `touring-arts/<slug>/` only on a concentration archive, then `tag/<lowercased tag title>` only on a tag archive, then the `?s=…&sentence=1` query string; a search query `"0"` gives an empty search term |
| `Pagination.GlassExampleOther` | stf_glossary_pagination.php:77-85 | a search for "glass" with "g" selected: the "a" item is a `menu-item` anchor to `<home>?s=glass&search-type=touring_arts&glossary=a&sentence=1` |
| `Pagination.GlassExampleSelected` | stf_glossary_pagination.php:78-85 | in the same request the "g" item is an anchor as well, with class `current-menu-item menu-item` |

## Left out

- Hook wiring: the two `add_action('init', …)` calls (lines 28, 51) only
  attach the functions to the host's lifecycle and have no logic of their own.
- The `get_terms('glossary')` call (line 63) has no effect on the output.
- Host behaviour behind the calls:
  - `wp_set_post_terms` is modelled only as a logged call plus "the last term
    this code set for the post". Whether the host replaces or appends terms is
    not visible in the code and is not claimed.
  - `register_taxonomy` is an entry in the registry map. The host's defaults
    for other arguments, such as `hierarchical`, are not modelled.
  - Failures of host calls are not modelled; the code does not handle them.
- `FirstLetter.TermsOfEachPost` assumes the fetched posts have distinct ids, as
  `get_posts` returns them. For repeated ids, `TermsOf` keeps the last one
  visited.
- `get_post_meta` is modelled as returning a string. A stored array or other
  non-string value, whose `empty()` behaviour differs, is out of scope.
- `__()` is treated as the identity; translation is not modelled.
- `Php.Sprintf` replaces only the first `%s` and copies every other `%`
  literally. PHP would read such a `%` as a directive. So for a search term,
  tag title, slug, home URL or post type containing `%`, the model's output is
  not PHP's.
- No URL or HTML escaping is applied, matching the source.
- Strings are sequences of ASCII characters. `substr`, `strtolower` and
  `strtoupper` are byte-wise in PHP, and multibyte titles are not modelled.
- The loose `==` at line 78 is modelled as string equality. Its operands are
  never both numeric strings, because the letter side is always a..z.

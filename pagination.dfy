/**
 * The A-Z glossary pagination widget `glossary($post_type)`: 26 list items,
 * one per letter a..z, each linking to the search page narrowed to that
 * letter, inside a fixed header and a fixed block of two paddle buttons.
 */
module Pagination {
  import opened Php

  /**
   * What the function reads from the current request:
   * `get_search_query()`, `is_tag()` with `single_tag_title('', false)`,
   * `is_tax('concentration')` with the queried term's slug,
   * `get_query_var('glossary')` and `home_url('/')`.
   */
  datatype Request = Request(
    searchQuery: string,
    isTag: bool,
    tagTitle: string,
    isConcentration: bool,
    concentrationSlug: string,
    glossaryVar: string,
    homeUrl: string)

  const Header: string := "<div class=\"alphabetical-menu-bar\">" + "<ul class=\"glossary-menu\">"
  const Footer: string :=
    "</ul>" + "<div class=\"paddles\">" + "<button class=\"left-paddle paddle hidden\">" + "<" + "</button>"
    + "<button class=\"right-paddle paddle\">" + ">" + "</button>" + "</div>" + "</div>"
  const CurrentClass: string := "current-menu-item menu-item"
  const PlainClass: string := "menu-item"

  /** `range('a', 'z')` */
  function Alphabet(): (r: seq<char>)
    ensures |r| == 26 && r[0] == 'a' && r[25] == 'z'
    ensures forall i :: 0 <= i < 26 ==> IsLower(r[i])
    ensures forall i, j :: 0 <= i < j < 26 ==> r[i] < r[j]
  {
    seq(26, i requires 0 <= i < 26 => ('a' as int + i) as char)
  }

  /** `get_search_query() ? get_search_query() : ''` */
  function SearchTerm(req: Request): string
  {
    if IsEmpty(req.searchQuery) then "" else req.searchQuery
  }

  /** `is_tag() ? 'tag/' . strtolower(single_tag_title('', false)) : ''` */
  function TagPart(req: Request): string
  {
    if req.isTag then "tag/" + StrToLower(req.tagTitle) else ""
  }

  /** `is_tax('concentration') ? 'touring-arts/' . $slug . '/' : ''` */
  function ConcentrationPart(req: Request): string
  {
    if req.isConcentration then "touring-arts/" + req.concentrationSlug + "/" else ""
  }

  /** The query string of the link for `letter`. */
  function Query(postType: string, req: Request, letter: char): string
  {
    "?s=" + SearchTerm(req) + "&search-type=" + postType + "&glossary=" + [letter] + "&sentence=1"
  }

  /** The href of the item for `letter`, concatenated without any escaping. */
  function Link(postType: string, req: Request, letter: char): string
  {
    req.homeUrl + ConcentrationPart(req) + TagPart(req) + Query(postType, req, letter)
  }

  /** The class of the item for `letter`: current when it is the selected letter. */
  function ItemClass(req: Request, letter: char): string
  {
    if [letter] == req.glossaryVar then CurrentClass else PlainClass
  }

  /** Every item starts with this, up to the `%s` that `sprintf` fills with the class. */
  const ItemOpen: string := "<li class=\"az-char "

  /** The rest of an anchor item after its class. */
  function AnchorTail(href: string, text: char): string
  {
    "\"><a href=\"" + href + "\">" + [text] + "</a></li>"
  }

  /** The rest of an un-linked `<strong>` item after its class. */
  function StrongTail(text: char): string
  {
    "\"><strong>" + [text] + "</strong></li>"
  }

  /**
   * The item for `letter` as the source builds it: the `<strong>` form when
   * the class equals "current-menu-item", the anchor form otherwise.
   */
  function Item(postType: string, req: Request, letter: char): string
  {
    var current := ItemClass(req, letter);
    if "current-menu-item" == current then
      Sprintf(ItemOpen + "%s" + StrongTail(ToUpperChar(letter)), current)
    else
      Sprintf(ItemOpen + "%s" + AnchorTail(Link(postType, req, letter), ToUpperChar(letter)), current)
  }

  /** The items for `letters`, in order. */
  function Items(postType: string, req: Request, letters: seq<char>): string
  {
    if letters == [] then ""
    else Items(postType, req, letters[..|letters| - 1]) + Item(postType, req, letters[|letters| - 1])
  }

  lemma ItemsSnoc(postType: string, req: Request, letters: seq<char>, k: nat)
    requires k < |letters|
    ensures Items(postType, req, letters[..k + 1]) == Items(postType, req, letters[..k]) + Item(postType, req, letters[k])
  {
    assert letters[..k + 1][..k] == letters[..k];
  }

  lemma AppendAssoc(a: string, b: string, c: string)
    ensures (a + b) + c == a + (b + c)
  {
  }

  /** Appending the pieces of a query string appends the query string. */
  lemma QueryAppended(base: string, searchTerm: string, postType: string, letter: char)
    ensures base + "?s=" + searchTerm + "&search-type=" + postType + "&glossary=" + [letter] + "&sentence=1"
            == base + ("?s=" + searchTerm + "&search-type=" + postType + "&glossary=" + [letter] + "&sentence=1")
  {
  }

  /** Ten appends to `m` append their concatenation. */
  lemma Regroup(m: string, a: string, b: string, c: string, d: string, e: string,
                f: string, g: string, h: string, i: string, j: string)
    ensures m + a + b + c + d + e + f + g + h + i + j == m + (a + b + c + d + e + f + g + h + i + j)
  {
  }

  /** The whole widget; it always opens with `Header` and closes with `Footer`. */
  function Glossary(postType: string, req: Request): (html: string)
    ensures Header <= html
    ensures |Footer| <= |html| && html[|html| - |Footer|..] == Footer
  {
    var html := Header + Items(postType, req, Alphabet()) + Footer;
    assert html[..|Header|] == Header;
    assert html[|html| - |Footer|..] == Footer;
    html
  }

  /**
   * One pass of the loop over a..z: the link, the class, and the item,
   * with the `<strong>` branch kept as the source has it.
   */
  method RenderItem(postType: string, req: Request, searchTerm: string, tag: string, concentration: string, i: char)
    returns (item: string)
    requires searchTerm == SearchTerm(req) && tag == TagPart(req) && concentration == ConcentrationPart(req)
    ensures item == Item(postType, req, i)
  {
    var link := req.homeUrl + concentration + tag + "?s=" + searchTerm
                + "&search-type=" + postType + "&glossary=" + [i] + "&sentence=1";
    QueryAppended(req.homeUrl + concentration + tag, searchTerm, postType, i);
    var current := if [i] == req.glossaryVar then "current-menu-item menu-item" else "menu-item";
    if "current-menu-item" == current {
      item := Sprintf(ItemOpen + "%s" + StrongTail(ToUpperChar(i)), current);
    } else {
      item := Sprintf(ItemOpen + "%s" + AnchorTail(link, ToUpperChar(i)), current);
    }
  }

  /** `glossary($post_type)`, with the request's values as `req`. */
  method RenderGlossary(postType: string, req: Request) returns (html: string)
    ensures html == Glossary(postType, req)
  {
    var searchTerm := SearchTerm(req);
    var tag := TagPart(req);
    var concentration := ConcentrationPart(req);

    html := "";
    html := html + "<div class=\"alphabetical-menu-bar\">";
    html := html + "<ul class=\"glossary-menu\">";

    assert html == Header;
    var letters := Alphabet();
    var k := 0;
    assert letters[..k] == [];
    while k < |letters|
      invariant 0 <= k <= |letters|
      invariant html == Header + Items(postType, req, letters[..k])
    {
      var item := RenderItem(postType, req, searchTerm, tag, concentration, letters[k]);
      ItemsSnoc(postType, req, letters, k);
      AppendAssoc(Header, Items(postType, req, letters[..k]), item);
      html := html + item;
      k := k + 1;
    }
    assert letters[..k] == letters;
    ghost var menu := html;

    html := html + "</ul>";
    html := html + "<div class=\"paddles\">";
    html := html + "<button class=\"left-paddle paddle hidden\">";
    html := html + "<";
    html := html + "</button>";
    html := html + "<button class=\"right-paddle paddle\">";
    html := html + ">";
    html := html + "</button>";
    html := html + "</div>";
    html := html + "</div>";
    Regroup(menu, "</ul>", "<div class=\"paddles\">", "<button class=\"left-paddle paddle hidden\">", "<", "</button>",
            "<button class=\"right-paddle paddle\">", ">", "</button>", "</div>", "</div>");
  }

  /** A list item linking `text` to `href`, with class "az-char " followed by `cls`. */
  function AnchorItem(cls: string, href: string, text: char): string
  {
    ItemOpen + cls + AnchorTail(href, text)
  }

  /** The anchor the item for `letter` should be: its class, its link, its uppercase letter. */
  function ExpectedItem(postType: string, req: Request, letter: char): string
  {
    AnchorItem(ItemClass(req, letter), Link(postType, req, letter), ToUpperChar(letter))
  }

  /** The strings of `items`, concatenated in order. */
  function Concat(items: seq<string>): string
  {
    if items == [] then "" else Concat(items[..|items| - 1]) + items[|items| - 1]
  }

  /**
   * The test against "current-menu-item" never holds, so the `<strong>`
   * branch is dead: every item, the selected one included, is an anchor.
   */
  lemma ItemIsAnchor(postType: string, req: Request, letter: char)
    ensures ItemClass(req, letter) != "current-menu-item"
    ensures Item(postType, req, letter) == ExpectedItem(postType, req, letter)
  {
    assert '%' !in ItemOpen by {
      forall i | 0 <= i < |ItemOpen| ensures ItemOpen[i] != '%' { }
    }
    SprintfSubstitutes(ItemOpen, AnchorTail(Link(postType, req, letter), ToUpperChar(letter)), ItemClass(req, letter));
  }

  /** The items for `letters` are their expected anchors, one per letter, in order. */
  lemma {:induction false} ItemsAreAnchors(postType: string, req: Request, letters: seq<char>)
    ensures Items(postType, req, letters)
            == Concat(seq(|letters|, k requires 0 <= k < |letters| => ExpectedItem(postType, req, letters[k])))
  {
    var anchors := seq(|letters|, k requires 0 <= k < |letters| => ExpectedItem(postType, req, letters[k]));
    if letters != [] {
      var n := |letters| - 1;
      ItemsAreAnchors(postType, req, letters[..n]);
      assert anchors[..n] == seq(n, k requires 0 <= k < n => ExpectedItem(postType, req, letters[..n][k]));
      ItemIsAnchor(postType, req, letters[n]);
    }
  }

  /**
   * The widget is the header, then 26 anchors for a..z in ascending order,
   * each with the uppercase letter as its text, then the paddles footer.
   */
  lemma GlossaryLayout(postType: string, req: Request)
    ensures Glossary(postType, req)
            == Header + Concat(seq(26, k requires 0 <= k < 26 => ExpectedItem(postType, req, Alphabet()[k]))) + Footer
  {
    ItemsAreAnchors(postType, req, Alphabet());
  }

  /**
   * The selected letter, and only it, gets the current class: at most one
   * of the 26 items is current, none when the query var is not one of a..z.
   */
  lemma CurrentItem(req: Request, j: nat, k: nat)
    requires j < 26 && k < 26
    ensures ItemClass(req, Alphabet()[k]) == CurrentClass <==> req.glossaryVar == [Alphabet()[k]]
    ensures ItemClass(req, Alphabet()[k]) != CurrentClass ==> ItemClass(req, Alphabet()[k]) == PlainClass
    ensures j != k && ItemClass(req, Alphabet()[j]) == CurrentClass ==> ItemClass(req, Alphabet()[k]) == PlainClass
  {
    if j < k {
      assert Alphabet()[j] < Alphabet()[k];
    } else if k < j {
      assert Alphabet()[k] < Alphabet()[j];
    }
  }

  /** The visible text of the k-th item is the k-th capital letter. */
  lemma ItemLabel(k: nat)
    requires k < 26
    ensures ToUpperChar(Alphabet()[k]) == ('A' as int + k) as char
  {
  }

  /**
   * A link's layout: the home URL, then the concentration part only on a
   * concentration archive, the tag part only on a tag archive, then the
   * query string with the search term ("" for a falsy query), the post
   * type and the letter.
   */
  lemma LinkLayout(postType: string, req: Request, letter: char)
    ensures !req.isConcentration && !req.isTag ==> Link(postType, req, letter) == req.homeUrl + Query(postType, req, letter)
    ensures req.isConcentration && !req.isTag ==>
      Link(postType, req, letter) == req.homeUrl + "touring-arts/" + req.concentrationSlug + "/" + Query(postType, req, letter)
    ensures !req.isConcentration && req.isTag ==>
      Link(postType, req, letter) == req.homeUrl + "tag/" + StrToLower(req.tagTitle) + Query(postType, req, letter)
    ensures req.isConcentration && req.isTag ==>
      Link(postType, req, letter)
      == req.homeUrl + "touring-arts/" + req.concentrationSlug + "/" + "tag/" + StrToLower(req.tagTitle)
         + Query(postType, req, letter)
    ensures req.searchQuery == "0" ==> SearchTerm(req) == ""
  {
    var home, q := req.homeUrl, Query(postType, req, letter);
    var conc := "touring-arts/" + req.concentrationSlug + "/";
    var tag := "tag/" + StrToLower(req.tagTitle);
    if req.isConcentration && req.isTag {
      assert home + conc + tag == home + "touring-arts/" + req.concentrationSlug + "/" + "tag/" + StrToLower(req.tagTitle);
    } else if req.isConcentration {
      assert home + conc + "" == home + "touring-arts/" + req.concentrationSlug + "/";
    } else if req.isTag {
      assert home + "" + tag == home + "tag/" + StrToLower(req.tagTitle);
    } else {
      assert home + "" + "" == home;
    }
  }

  /**
   * A search for "glass" with "g" selected, outside tag and concentration
   * archives: the "a" item is a plain anchor to
   * `<home>?s=glass&search-type=touring_arts&glossary=a&sentence=1`.
   */
  lemma GlassExampleOther(home: string)
    ensures Item("touring_arts", Request("glass", false, "", false, "", "g", home), 'a')
            == AnchorItem("menu-item",
                          home + "?s=" + "glass" + "&search-type=" + "touring_arts" + "&glossary=" + "a" + "&sentence=1",
                          'A')
  {
    var req := Request("glass", false, "", false, "", "g", home);
    assert SearchTerm(req) == "glass";
    ItemIsAnchor("touring_arts", req, 'a');
  }

  /** In the same request the selected "g" item is an anchor too, differing only in its class. */
  lemma GlassExampleSelected(home: string)
    ensures Item("touring_arts", Request("glass", false, "", false, "", "g", home), 'g')
            == AnchorItem("current-menu-item menu-item",
                          home + "?s=" + "glass" + "&search-type=" + "touring_arts" + "&glossary=" + "g" + "&sentence=1",
                          'G')
  {
    var req := Request("glass", false, "", false, "", "g", home);
    assert SearchTerm(req) == "glass";
    ItemIsAnchor("touring_arts", req, 'g');
  }
}

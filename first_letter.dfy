/**
 * The glossary indexer: every `touring_arts` post gets as its glossary term
 * the lowercased first character of its sort key, which is the
 * `sort_by_keyword` meta value unless that is empty, and the title otherwise.
 */
module FirstLetter {
  import opened Php

  type PostId = int

  /**
   * A fetched post. `sortByKeyword` is what `get_post_meta($id,
   * 'sort_by_keyword', true)` returns: "" when the field is absent.
   */
  datatype Post = Post(id: PostId, title: string, sortByKeyword: string)

  /** One call `wp_set_post_terms($id, $term, 'glossary')`. */
  datatype TermCall = TermCall(postId: PostId, term: string)

  /**
   * The sort key: the meta value or the title, the meta value whenever PHP
   * does not call it empty (so "0" falls back to the title).
   */
  function SortKey(p: Post): (k: string)
    ensures k == p.sortByKeyword || k == p.title
    ensures !IsEmpty(p.sortByKeyword) ==> k == p.sortByKeyword
    ensures p.sortByKeyword == "0" ==> k == p.title
    ensures k == "" <==> IsEmpty(p.sortByKeyword) && p.title == ""
  {
    if !IsEmpty(p.sortByKeyword) then p.sortByKeyword else p.title
  }

  /**
   * `strtolower(substr($sort_by, 0, 1))`: at most one character, empty
   * exactly when the sort key is, otherwise the first character lowered.
   */
  function GlossaryTerm(p: Post): (t: string)
    ensures |t| <= 1
    ensures t == "" <==> SortKey(p) == ""
    ensures t != "" ==> t[0] == ToLowerChar(SortKey(p)[0])
    ensures t != "" && (IsUpper(SortKey(p)[0]) || IsLower(SortKey(p)[0])) ==> IsLower(t[0])
  {
    StrToLower(Substr(SortKey(p), 0, 1))
  }

  /** The calls made for `posts`, in order: one per post. */
  function CallsFor(posts: seq<Post>): seq<TermCall>
  {
    if posts == [] then []
    else CallsFor(posts[..|posts| - 1]) + [TermCall(posts[|posts| - 1].id, GlossaryTerm(posts[|posts| - 1]))]
  }

  /** The term most recently set for each post id when `posts` are visited in order. */
  function TermsOf(posts: seq<Post>): map<PostId, string>
  {
    if posts == [] then map[]
    else TermsOf(posts[..|posts| - 1])[posts[|posts| - 1].id := GlossaryTerm(posts[|posts| - 1])]
  }

  /** Every post is visited exactly once, in the order fetched, with its own term. */
  lemma {:induction false} CallsForEachPost(posts: seq<Post>)
    ensures |CallsFor(posts)| == |posts|
    ensures forall i :: 0 <= i < |posts| ==> CallsFor(posts)[i] == TermCall(posts[i].id, GlossaryTerm(posts[i]))
  {
    if posts != [] {
      var n := |posts| - 1;
      var front := CallsFor(posts[..n]);
      CallsForEachPost(posts[..n]);
      assert CallsFor(posts) == front + [TermCall(posts[n].id, GlossaryTerm(posts[n]))];
      forall i | 0 <= i < |posts|
        ensures CallsFor(posts)[i] == TermCall(posts[i].id, GlossaryTerm(posts[i]))
      {
        if i < n {
          assert CallsFor(posts)[i] == front[i];
          assert posts[..n][i] == posts[i];
        }
      }
    }
  }

  predicate DistinctIds(posts: seq<Post>)
  {
    forall i, j :: 0 <= i < j < |posts| ==> posts[i].id != posts[j].id
  }

  /**
   * With distinct ids (as `get_posts` returns them), each fetched post ends
   * up with the term of its own sort key, and no other id gets a term.
   */
  lemma {:induction false} TermsOfEachPost(posts: seq<Post>)
    requires DistinctIds(posts)
    ensures forall id :: id in TermsOf(posts) <==> exists i :: 0 <= i < |posts| && posts[i].id == id
    ensures forall i :: 0 <= i < |posts| ==> TermsOf(posts)[posts[i].id] == GlossaryTerm(posts[i])
  {
    if posts != [] {
      var n := |posts| - 1;
      var front := posts[..n];
      assert DistinctIds(front);
      TermsOfEachPost(front);
      forall id
        ensures id in TermsOf(posts) <==> exists i :: 0 <= i < |posts| && posts[i].id == id
      {
        if id in TermsOf(front) {
          var i :| 0 <= i < |front| && front[i].id == id;
          assert posts[i].id == id;
        }
        if exists i :: 0 <= i < |posts| && posts[i].id == id {
          var i :| 0 <= i < |posts| && posts[i].id == id;
          if i < n {
            assert front[i].id == id;
          }
        }
      }
      forall i | 0 <= i < |posts|
        ensures TermsOf(posts)[posts[i].id] == GlossaryTerm(posts[i])
      {
        if i < n {
          assert front[i] == posts[i];
        }
      }
    }
  }

  /** What visiting `posts[k]` adds to the calls and to the terms. */
  lemma VisitNext(terms: map<PostId, string>, calls: seq<TermCall>, posts: seq<Post>, k: nat)
    requires k < |posts|
    ensures calls + CallsFor(posts[..k + 1])
            == (calls + CallsFor(posts[..k])) + [TermCall(posts[k].id, GlossaryTerm(posts[k]))]
    ensures terms + TermsOf(posts[..k + 1]) == (terms + TermsOf(posts[..k]))[posts[k].id := GlossaryTerm(posts[k])]
  {
    assert posts[..k + 1][..k] == posts[..k];
  }

  /** The glossary terms set so far by this code, and the log of the calls that set them. */
  class GlossaryIndex {
    var terms: map<PostId, string>
    var calls: seq<TermCall>

    constructor ()
      ensures terms == map[] && calls == []
    {
      terms := map[];
      calls := [];
    }

    /** `wp_set_post_terms($id, $term, 'glossary')` */
    method SetPostTerm(id: PostId, term: string)
      modifies this
      ensures terms == old(terms)[id := term]
      ensures calls == old(calls) + [TermCall(id, term)]
    {
      terms := terms[id := term];
      calls := calls + [TermCall(id, term)];
    }

    /** `stf_save_first_letter()`, with the result of `get_posts` as `posts`. */
    method SaveFirstLetter(posts: seq<Post>)
      modifies this
      ensures calls == old(calls) + CallsFor(posts)
      ensures terms == old(terms) + TermsOf(posts)
    {
      var k := 0;
      while k < |posts|
        invariant 0 <= k <= |posts|
        invariant calls == old(calls) + CallsFor(posts[..k])
        invariant terms == old(terms) + TermsOf(posts[..k])
      {
        var myPost := posts[k];
        var sortBy := if !IsEmpty(myPost.sortByKeyword) then myPost.sortByKeyword else myPost.title;
        var term := StrToLower(Substr(sortBy, 0, 1));
        assert term == GlossaryTerm(myPost);
        VisitNext(old(terms), old(calls), posts, k);
        SetPostTerm(myPost.id, term);
        k := k + 1;
      }
      assert posts[..k] == posts;
    }
  }

  /**
   * Two `init` runs of the indexer over the same posts: the log holds both
   * passes, and the term map is as the first pass left it.
   */
  method SaveFirstLetterTwice(index: GlossaryIndex, posts: seq<Post>)
    modifies index
    ensures index.calls == old(index.calls) + CallsFor(posts) + CallsFor(posts)
    ensures index.terms == old(index.terms) + TermsOf(posts)
  {
    index.SaveFirstLetter(posts);
    index.SaveFirstLetter(posts);
  }
}

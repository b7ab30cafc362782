/**
 * The blog page: posts filtered through a map from filter ids to post
 * categories, a featured card and a grid, and the paragraph markup of the
 * single-post view.
 */
module Blog {
  import opened Common
  import opened Text

  /** A post, by id and category; the other fields are not modelled. */
  datatype BlogPost = BlogPost(id: nat, category: string)

  /** The three posts of the shared table followed by the six added on this page. */
  const ExtendedBlogPosts: seq<BlogPost> := [
    BlogPost(1, "Architecture"),
    BlogPost(2, "Interior Design"),
    BlogPost(3, "Project Planning"),
    BlogPost(4, "Innovation"),
    BlogPost(5, "Renovation"),
    BlogPost(6, "Commercial Architecture"),
    BlogPost(7, "Sustainable Design"),
    BlogPost(8, "Urban Planning"),
    BlogPost(9, "Materials")
  ]

  /** `getCategoryForFilter`: the post categories a filter id stands for, and none for an unknown id. */
  function CategoryForFilter(filter: string): (r: seq<string>)
    ensures filter !in {"architecture", "interior-design", "sustainable", "urban-planning", "innovation"} ==> r == []
    ensures filter == "architecture" ==> r == ["Architecture", "Project Planning"]
    ensures filter == "interior-design" ==> r == ["Interior Design"]
    ensures filter == "sustainable" ==> r == ["Sustainable Design"]
    ensures filter == "urban-planning" ==> r == ["Urban Planning"]
    ensures filter == "innovation" ==> r == ["Innovation", "Materials"]
  {
    if filter == "architecture" then ["Architecture", "Project Planning"]
    else if filter == "interior-design" then ["Interior Design"]
    else if filter == "sustainable" then ["Sustainable Design"]
    else if filter == "urban-planning" then ["Urban Planning"]
    else if filter == "innovation" then ["Innovation", "Materials"]
    else []
  }

  /** `filteredPosts`. */
  function FilterPosts(posts: seq<BlogPost>, filter: string): seq<BlogPost>
  {
    if filter == "all" then posts
    else Filter(posts, (p: BlogPost) => p.category in CategoryForFilter(filter))
  }

  /** "all" keeps every post; any other filter keeps exactly the posts whose category the filter id maps to, and an unknown id keeps none. */
  lemma FilterPostsSpec(posts: seq<BlogPost>, filter: string, p: BlogPost)
    ensures filter == "all" ==> FilterPosts(posts, filter) == posts
    ensures filter != "all" ==> (p in FilterPosts(posts, filter) <==> p in posts && p.category in CategoryForFilter(filter))
    ensures filter != "all" && CategoryForFilter(filter) == [] ==> FilterPosts(posts, filter) == []
  {
    if filter != "all" {
      var keep := (q: BlogPost) => q.category in CategoryForFilter(filter);
      FilterMembership(posts, keep, p);
      if CategoryForFilter(filter) == [] {
        FilterNone(posts, keep);
      }
    }
  }

  // ---------------------------------------------------------------------------
  // The featured card and the grid

  /** The featured card always shows the first post of the whole list, whatever the filter. */
  const Featured: BlogPost := ExtendedBlogPosts[0]

  /** The grid as written: `filteredPosts.slice(1)`. */
  function GridAsWritten(filtered: seq<BlogPost>): seq<BlogPost>
  {
    if |filtered| == 0 then [] else filtered[1..]
  }

  /**
   * The grid as written drops the first filtered post, which is the featured
   * post only when the filter keeps post 1: under "interior-design" the only
   * matching post, post 2, is shown neither in the featured card nor in the
   * grid.
   */
  lemma GridHidesFilteredPost()
    ensures FilterPosts(ExtendedBlogPosts, "interior-design") == [BlogPost(2, "Interior Design")]
    ensures GridAsWritten(FilterPosts(ExtendedBlogPosts, "interior-design")) == []
    ensures Featured != BlogPost(2, "Interior Design")
  {
    var s := ExtendedBlogPosts;
    var keep := (q: BlogPost) => q.category in CategoryForFilter("interior-design");
    assert CategoryForFilter("interior-design") == ["Interior Design"];
    forall i | 0 <= i < |s| && i != 1 ensures !keep(s[i]) {
      assert |s[i].category| != |"Interior Design"|;
    }
    FilterOnly(s, keep, 1);
  }

  /** The grid as intended: every filtered post except the one the featured card already shows. */
  function Grid(filtered: seq<BlogPost>): (r: seq<BlogPost>)
    ensures Featured !in r
  {
    var notFeatured := (p: BlogPost) => p.id != Featured.id;
    FilterMembership(filtered, notFeatured, Featured);
    Filter(filtered, notFeatured)
  }

  /** No two posts of the page share an id. */
  lemma PostIdsDistinct()
    ensures forall i, j :: 0 <= i < j < |ExtendedBlogPosts| ==> ExtendedBlogPosts[i].id != ExtendedBlogPosts[j].id
  {
  }

  /**
   * With the intended grid, every post the filter keeps is on the page exactly
   * once: the featured post in its card and not in the grid, any other one
   * once in the grid.
   */
  lemma EveryFilteredPostShown(filter: string, i: nat)
    requires i < |ExtendedBlogPosts|
    requires filter == "all" || ExtendedBlogPosts[i].category in CategoryForFilter(filter)
    ensures ExtendedBlogPosts[i] in FilterPosts(ExtendedBlogPosts, filter)
    ensures var p := ExtendedBlogPosts[i];
      p == Featured ==> multiset(Grid(FilterPosts(ExtendedBlogPosts, filter)))[p] == 0
    ensures var p := ExtendedBlogPosts[i];
      p != Featured ==> multiset(Grid(FilterPosts(ExtendedBlogPosts, filter)))[p] == 1
  {
    var p, filtered := ExtendedBlogPosts[i], FilterPosts(ExtendedBlogPosts, filter);
    FilteredPostOnce(filter, i);
    GridCount(filtered, p);
    if p != Featured {
      OnlyFeaturedHasItsId(i);
    }
  }

  /** The intended grid holds every copy of a post other than the featured id, and none of the featured id. */
  lemma GridCount(filtered: seq<BlogPost>, p: BlogPost)
    ensures multiset(Grid(filtered))[p] == if p.id != Featured.id then multiset(filtered)[p] else 0
  {
    FilterCount(filtered, (q: BlogPost) => q.id != Featured.id, p);
  }

  /** A post of the page that the filter keeps occurs in the filtered list exactly once. */
  lemma FilteredPostOnce(filter: string, i: nat)
    requires i < |ExtendedBlogPosts|
    requires filter == "all" || ExtendedBlogPosts[i].category in CategoryForFilter(filter)
    ensures ExtendedBlogPosts[i] in FilterPosts(ExtendedBlogPosts, filter)
    ensures multiset(FilterPosts(ExtendedBlogPosts, filter))[ExtendedBlogPosts[i]] == 1
  {
    var posts, p := ExtendedBlogPosts, ExtendedBlogPosts[i];
    PostIdsDistinct();
    DistinctCount(posts, p);
    if filter != "all" {
      var keep := (q: BlogPost) => q.category in CategoryForFilter(filter);
      FilterCount(posts, keep, p);
      FilterMembership(posts, keep, p);
    }
  }

  /** The featured post is the only post of the page with its id. */
  lemma OnlyFeaturedHasItsId(i: nat)
    requires i < |ExtendedBlogPosts|
    ensures ExtendedBlogPosts[i].id == Featured.id ==> i == 0
  {
    PostIdsDistinct();
  }

  /** Where the filtered list starts with the featured post and holds it only there, the intended grid is the written one. */
  lemma GridAgreesWhenFeaturedFirst(filtered: seq<BlogPost>)
    requires |filtered| > 0 && filtered[0] == Featured
    requires forall i :: 0 < i < |filtered| ==> filtered[i].id != Featured.id
    ensures Grid(filtered) == GridAsWritten(filtered)
  {
    var notFeatured := (p: BlogPost) => p.id != Featured.id;
    FilterSplit(filtered, notFeatured, 1);
    FilterAll(filtered[1..], notFeatured);
  }

  // ---------------------------------------------------------------------------
  // Paragraph markup of the single-post view

  /** How a paragraph of the post is drawn. */
  datatype Block = Heading(text: string) | Bullets(items: seq<string>) | Paragraph(text: string)

  /** One bullet line with its marker removed: `item.replace("- ", "")`. */
  function BulletItem(line: string): string {
    ReplaceFirst(line, "- ", "")
  }

  /**
   * A paragraph starting with "###" is a heading without its first "### ";
   * otherwise one starting with "-" is a list of its lines, each without its
   * first "- "; anything else is drawn as it is.
   */
  function ClassifyParagraph(p: string): (b: Block)
    ensures StartsWith(p, "###") <==> b.Heading?
    ensures b.Bullets? <==> !StartsWith(p, "###") && StartsWith(p, "-")
    ensures b.Paragraph? ==> b.text == p
  {
    if StartsWith(p, "###") then Heading(ReplaceFirst(p, "### ", ""))
    else if StartsWith(p, "-") then Bullets(Map(Split(p, '\n'), BulletItem))
    else Paragraph(p)
  }

  /** A heading paragraph "### t" is drawn as the heading t. */
  lemma HeadingText(t: string)
    ensures ClassifyParagraph("### " + t) == Heading(t)
  {
    assert StartsWith("### " + t, "###");
    ReplaceLeadingPrefix("### " + t, "### ");
    assert ("### " + t)[4..] == t;
  }

  /** A paragraph of "- "-prefixed lines is drawn as the list of those lines without their markers, in order. */
  lemma BulletLines(items: seq<string>)
    requires |items| >= 1
    requires forall i :: 0 <= i < |items| ==> '\n' !in items[i]
    ensures var lines := Map(items, (t: string) => "- " + t);
      ClassifyParagraph(Join(lines, '\n')) == Bullets(items)
  {
    var lines := Map(items, (t: string) => "- " + t);
    forall i | 0 <= i < |lines| ensures '\n' !in lines[i] {
      assert lines[i] == "- " + items[i];
    }
    SplitJoin(lines, '\n');
    var p := Join(lines, '\n');
    assert StartsWith(p, "-") && !StartsWith(p, "###") by {
      JoinStartsWithFirst(lines, '\n');
      assert p[0] == lines[0][0] == '-';
      assert p[..1] == "-";
    }
    forall i | 0 <= i < |lines| ensures BulletItem(lines[i]) == items[i] {
      ReplaceLeadingPrefix(lines[i], "- ");
      assert lines[i][2..] == items[i];
    }
  }

  // ---------------------------------------------------------------------------
  // Page state

  /** The page's state: the active filter and the post opened, if any. */
  class BlogPage {
    var activeFilter: string
    var selectedPost: Option<int>

    constructor ()
      ensures activeFilter == "all" && selectedPost == None
    {
      activeFilter := "all";
      selectedPost := None;
    }

    /** A filter button. */
    method SetActiveFilter(filter: string)
      modifies this
      ensures activeFilter == filter && selectedPost == old(selectedPost)
    {
      activeFilter := filter;
    }

    /** The posts of the grid, as the page draws them: `filteredPosts.slice(1)`. */
    function GridShown(): seq<BlogPost>
      reads this
    {
      GridAsWritten(FilterPosts(ExtendedBlogPosts, activeFilter))
    }

    /** `viewPost`: the single-post view replaces the list. */
    method ViewPost(id: int)
      modifies this
      ensures selectedPost == Some(id) && activeFilter == old(activeFilter)
    {
      selectedPost := Some(id);
    }

    /** `backToList`: back to the list, with the filter kept. */
    method BackToList()
      modifies this
      ensures selectedPost == None && activeFilter == old(activeFilter)
    {
      selectedPost := None;
    }
  }
}

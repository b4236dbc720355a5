/**
 * The blog index: the post list split into featured and regular posts by two
 * complementary filters, and the category bar in which only the first entry
 * is highlighted.
 */
module Blog {
  import opened Seqs

  datatype BlogEntry = BlogEntry(id: string, category: string, author: string, featured: bool)

  const BlogPosts: seq<BlogEntry> := [
    BlogEntry("what-is-pre-leased-property", "Investment Basics", "Rajiv Mehta", true),
    BlogEntry("roi-calculation-guide", "Financial Planning", "Priya Sharma", false),
    BlogEntry("best-cities-commercial-investment", "Market Analysis", "Amit Verma", true),
    BlogEntry("bank-leased-vs-retail-properties", "Investment Comparison", "Sunita Reddy", false),
    BlogEntry("tax-benefits-commercial-property", "Tax Planning", "Rajiv Mehta", false),
    BlogEntry("due-diligence-checklist", "Legal & Compliance", "Priya Sharma", true)
  ]

  const Categories: seq<string> := [
    "All Posts", "Investment Basics", "Financial Planning", "Market Analysis", "Tax Planning", "Legal & Compliance"
  ]

  function IsFeatured(): BlogEntry -> bool {
    (p: BlogEntry) => p.featured
  }

  function IsRegular(): BlogEntry -> bool {
    (p: BlogEntry) => !p.featured
  }

  /** The posts in the "Featured Articles" grid. */
  function FeaturedPosts(posts: seq<BlogEntry>): (r: seq<BlogEntry>)
    ensures |r| <= |posts|
    ensures forall p :: p in r ==> p in posts && p.featured
  {
    Filter(posts, IsFeatured())
  }

  /** The posts in the "All Articles" list below it. */
  function RegularPosts(posts: seq<BlogEntry>): (r: seq<BlogEntry>)
    ensures |r| <= |posts|
    ensures forall p :: p in r ==> p in posts && !p.featured
  {
    Filter(posts, IsRegular())
  }

  /**
   * The two lists split the posts: every post is in exactly one of them, and
   * their lengths add up to the number of posts.
   */
  lemma FeaturedRegularPartition(posts: seq<BlogEntry>, p: BlogEntry)
    ensures |FeaturedPosts(posts)| + |RegularPosts(posts)| == |posts|
    ensures p in posts ==> (p in FeaturedPosts(posts) <==> p !in RegularPosts(posts))
  {
    FilterComplementLength(posts, IsFeatured(), IsRegular());
    FilterMembership(posts, IsFeatured(), p);
    FilterMembership(posts, IsRegular(), p);
  }

  /** Both lists keep the order of the post list: each distributes over any split of it. */
  lemma PartitionKeepsOrder(front: seq<BlogEntry>, back: seq<BlogEntry>)
    ensures FeaturedPosts(front + back) == FeaturedPosts(front) + FeaturedPosts(back)
    ensures RegularPosts(front + back) == RegularPosts(front) + RegularPosts(back)
  {
    FilterConcat(front, back, IsFeatured());
    FilterConcat(front, back, IsRegular());
  }

  /** On the shown data posts 1, 3 and 6 are featured and posts 2, 4 and 5 are regular. */
  lemma ShownPartition()
    ensures FeaturedPosts(BlogPosts) == [BlogPosts[0], BlogPosts[2], BlogPosts[5]]
    ensures RegularPosts(BlogPosts) == [BlogPosts[1], BlogPosts[3], BlogPosts[4]]
  {
    FeaturedOfSix(BlogPosts);
    RegularOfSix(BlogPosts);
  }

  /** The featured posts of any six-post list flagged featured, regular, featured, regular, regular, featured. */
  lemma FeaturedOfSix(ps: seq<BlogEntry>)
    requires |ps| == 6
    requires ps[0].featured && !ps[1].featured && ps[2].featured
    requires !ps[3].featured && !ps[4].featured && ps[5].featured
    ensures FeaturedPosts(ps) == [ps[0], ps[2], ps[5]]
  {
    var f := IsFeatured();
    assert f(ps[0]) && !f(ps[1]) && f(ps[2]) && !f(ps[3]) && !f(ps[4]) && f(ps[5]);
    assert ps[5..][1..] == [] && ps[4..][1..] == ps[5..] && ps[3..][1..] == ps[4..];
    assert ps[2..][1..] == ps[3..] && ps[1..][1..] == ps[2..];
    assert Filter(ps[5..], f) == [ps[5]];
    assert Filter(ps[4..], f) == [ps[5]];
    assert Filter(ps[3..], f) == [ps[5]];
    assert Filter(ps[2..], f) == [ps[2], ps[5]];
    assert Filter(ps[1..], f) == [ps[2], ps[5]];
  }

  /** The regular posts of a six-post list flagged the same way. */
  lemma RegularOfSix(ps: seq<BlogEntry>)
    requires |ps| == 6
    requires ps[0].featured && !ps[1].featured && ps[2].featured
    requires !ps[3].featured && !ps[4].featured && ps[5].featured
    ensures RegularPosts(ps) == [ps[1], ps[3], ps[4]]
  {
    var g := IsRegular();
    assert !g(ps[0]) && g(ps[1]) && !g(ps[2]) && g(ps[3]) && g(ps[4]) && !g(ps[5]);
    assert ps[5..][1..] == [] && ps[4..][1..] == ps[5..] && ps[3..][1..] == ps[4..];
    assert ps[2..][1..] == ps[3..] && ps[1..][1..] == ps[2..];
    assert Filter(ps[5..], g) == [];
    assert Filter(ps[4..], g) == [ps[4]];
    assert Filter(ps[3..], g) == [ps[3], ps[4]];
    assert Filter(ps[2..], g) == [ps[3], ps[4]];
    assert Filter(ps[1..], g) == [ps[1], ps[3], ps[4]];
  }

  /** Post ids are distinct, as their use as list keys requires. */
  lemma PostIdsDistinct()
    ensures forall i, j :: 0 <= i < j < |BlogPosts| ==> BlogPosts[i].id != BlogPosts[j].id
  {
  }

  /** Whether the category button at `index` is drawn highlighted: only the "All Posts" one is. */
  function Highlighted(index: nat): (r: bool)
    ensures r <==> index < |Categories| && Categories[index] == "All Posts"
  {
    index == 0
  }
}

/**
 * The blog article page: the lookup of a post by route id with a default post,
 * and the classifier that turns each content string into a second- or
 * third-level heading, a list item, a paragraph with a bold label, or a plain
 * paragraph, stripping the marker prefixes on the way.
 */
module BlogPost {
  import opened Wrappers

  // ---------------------------------------------------------------------------
  // String operations the page uses
  // ---------------------------------------------------------------------------

  /**
   * `s` with the first occurrence of `pat` replaced by `rep`, as
   * String.prototype.replace does with a string pattern.
   */
  function ReplaceFirst(s: string, pat: string, rep: string): (r: string)
    ensures pat <= s ==> r == rep + s[|pat|..]
    decreases |s|
  {
    if pat <= s then rep + s[|pat|..]
    else if s == [] then s
    else [s[0]] + ReplaceFirst(s[1..], pat, rep)
  }

  /** Whether `s` holds two consecutive asterisks anywhere. */
  predicate HasDoubleStar(s: string) {
    exists i :: 0 <= i < |s| - 1 && s[i] == '*' && s[i + 1] == '*'
  }

  /** `s` with every `**` removed, scanning left to right as a global regular-expression replace does. */
  function StripBold(s: string): (r: string)
    ensures |r| <= |s|
    ensures s != [] && s[0] != '*' ==> r != [] && r[0] == s[0]
  {
    if |s| >= 2 && s[0] == '*' && s[1] == '*' then StripBold(s[2..])
    else if s == [] then []
    else [s[0]] + StripBold(s[1..])
  }

  /** The label shown never contains `**`. */
  lemma {:induction false} StripBoldLeavesNoDoubleStar(s: string)
    ensures !HasDoubleStar(StripBold(s))
  {
    if |s| >= 2 && s[0] == '*' && s[1] == '*' {
      StripBoldLeavesNoDoubleStar(s[2..]);
    } else if s != [] {
      var t := StripBold(s[1..]);
      StripBoldLeavesNoDoubleStar(s[1..]);
      var r := [s[0]] + t;
      forall i | 0 <= i < |r| - 1 ensures !(r[i] == '*' && r[i + 1] == '*') {
        if i == 0 {
          if s[0] == '*' {
            // a lone '*' at the front: s[1] is not '*', and the rest begins with it
            assert |s| >= 2 && s[1] != '*' && t[0] == s[1];
          }
        } else {
          assert r[i] == t[i - 1] && r[i + 1] == t[i];
        }
      }
    }
  }

  /** The characters of `s` other than asterisks, in order. */
  function NonStars(s: string): (r: string)
    ensures '*' !in r && |r| <= |s|
  {
    if s == [] then [] else (if s[0] == '*' then [] else [s[0]]) + NonStars(s[1..])
  }

  /** Only asterisks are removed: every other character of the label survives, in order. */
  lemma {:induction false} StripBoldKeepsText(s: string)
    ensures NonStars(StripBold(s)) == NonStars(s)
  {
    if |s| >= 2 && s[0] == '*' && s[1] == '*' {
      StripBoldKeepsText(s[2..]);
      assert s[1..][1..] == s[2..];
      assert NonStars(s) == NonStars(s[1..]) == NonStars(s[2..]);
    } else if s != [] {
      StripBoldKeepsText(s[1..]);
      var r := [s[0]] + StripBold(s[1..]);
      assert r[1..] == StripBold(s[1..]);
    }
  }

  /** A string without `**` passes through unchanged, so stripping twice is stripping once. */
  lemma {:induction false} StripBoldKeepsClean(s: string)
    requires !HasDoubleStar(s)
    ensures StripBold(s) == s
  {
    if s != [] {
      if |s| >= 2 {
        assert !(s[0] == '*' && s[1] == '*');
      }
      assert !HasDoubleStar(s[1..]) by {
        forall i | 0 <= i < |s[1..]| - 1 ensures !(s[1..][i] == '*' && s[1..][i + 1] == '*') {
          assert s[1..][i] == s[i + 1] && s[1..][i + 1] == s[i + 2];
        }
      }
      StripBoldKeepsClean(s[1..]);
    }
  }

  /** The pieces of `s` between occurrences of `sep`, as String.prototype.split does with a one-character separator. */
  function Split(s: string, sep: char): (r: seq<string>)
    ensures |r| >= 1
    ensures forall k :: 0 <= k < |r| ==> sep !in r[k]
    ensures |r| == 1 <==> sep !in s
  {
    if s == [] then [[]]
    else if s[0] == sep then [[]] + Split(s[1..], sep)
    else
      var t := Split(s[1..], sep);
      [[s[0]] + t[0]] + t[1..]
  }

  /** The pieces joined with `sep` between each two, as Array.prototype.join does. */
  function Join(parts: seq<string>, sep: char): (r: string)
    ensures parts != [] ==> parts[0] <= r
    ensures (forall k :: 0 <= k < |parts| ==> sep !in parts[k]) ==> (sep in r <==> |parts| >= 2)
  {
    if parts == [] then []
    else if |parts| == 1 then parts[0]
    else parts[0] + [sep] + Join(parts[1..], sep)
  }

  /** Joining the pieces of a split with the same separator gives back the original string. */
  lemma {:induction false} JoinSplit(s: string, sep: char)
    ensures Join(Split(s, sep), sep) == s
  {
    if s != [] {
      JoinSplit(s[1..], sep);
      var t := Split(s[1..], sep);
      if s[0] == sep {
        assert Split(s, sep) == [[]] + t;
        assert s == [sep] + s[1..];
      } else {
        JoinGrowFirst(s[0], t, sep);
        assert s == [s[0]] + s[1..];
      }
    }
  }

  /** Putting a character in front of the first piece puts it in front of the joined string. */
  lemma JoinGrowFirst(c: char, t: seq<string>, sep: char)
    requires t != []
    ensures Join([[c] + t[0]] + t[1..], sep) == [c] + Join(t, sep)
  {
    var r := [[c] + t[0]] + t[1..];
    if |t| > 1 {
      assert r[1..] == t[1..];
    }
  }

  /** A string without the separator splits into itself alone. */
  lemma {:induction false} SplitWithoutSeparator(s: string, sep: char)
    requires sep !in s
    ensures Split(s, sep) == [s]
  {
    if s != [] {
      SplitWithoutSeparator(s[1..], sep);
      assert [s[0]] + s[1..] == s;
    }
  }

  /** Splitting at the first separator peels off the text before it. */
  lemma {:induction false} SplitAtFirst(a: string, b: string, sep: char)
    requires sep !in a
    ensures Split(a + [sep] + b, sep) == [a] + Split(b, sep)
  {
    var s := a + [sep] + b;
    if a == [] {
      assert s[1..] == b;
    } else {
      assert s[1..] == a[1..] + [sep] + b;
      SplitAtFirst(a[1..], b, sep);
      assert [a[0]] + a[1..] == a;
    }
  }

  /**
   * Splitting pieces that were joined gives the pieces back, provided there is
   * at least one and none of them contains the separator.
   */
  lemma {:induction false} SplitJoin(parts: seq<string>, sep: char)
    requires parts != []
    requires forall k :: 0 <= k < |parts| ==> sep !in parts[k]
    ensures Split(Join(parts, sep), sep) == parts
  {
    if |parts| == 1 {
      SplitWithoutSeparator(parts[0], sep);
    } else {
      SplitJoin(parts[1..], sep);
      SplitAtFirst(parts[0], Join(parts[1..], sep), sep);
      assert [parts[0]] + parts[1..] == parts;
    }
  }

  // ---------------------------------------------------------------------------
  // Content classification
  // ---------------------------------------------------------------------------

  /** What one content string renders as. */
  datatype Block =
    | Heading2(text: string)
    | Heading3(text: string)
    | ListItem(text: string)
    | Labelled(heading: string, body: string)   // shown as the bold heading, a colon, then the body
    | Paragraph(text: string)

  /**
   * The rendering of one content string. The prefix tests are made in the
   * order "## ", "### ", "- ", then a bold label ("**" at the front and a colon
   * somewhere), and whatever is left is a plain paragraph.
   */
  function Classify(p: string): (b: Block)
    ensures "## " <= p ==> b == Heading2(p[3..])
    ensures !("## " <= p) && "### " <= p ==> b == Heading3(p[4..])
    ensures !("## " <= p) && !("### " <= p) && "- " <= p ==> b == ListItem(p[2..])
    ensures b.Labelled? <==> !("## " <= p) && !("### " <= p) && !("- " <= p) && "**" <= p && ':' in p
    ensures b.Labelled? ==> b == Labelled(StripBold(Split(p, ':')[0]), Join(Split(p, ':')[1..], ':'))
    ensures !("## " <= p) && !("### " <= p) && !("- " <= p) && !("**" <= p && ':' in p) ==> b == Paragraph(p)
  {
    if "## " <= p then
      assert ReplaceFirst(p, "## ", "") == [] + p[3..] == p[3..];
      Heading2(ReplaceFirst(p, "## ", ""))
    else if "### " <= p then
      assert ReplaceFirst(p, "### ", "") == [] + p[4..] == p[4..];
      Heading3(ReplaceFirst(p, "### ", ""))
    else if "- " <= p then
      assert ReplaceFirst(p, "- ", "") == [] + p[2..] == p[2..];
      ListItem(ReplaceFirst(p, "- ", ""))
    else if "**" <= p && ':' in p then
      var parts := Split(p, ':');
      Labelled(StripBold(parts[0]), Join(parts[1..], ':'))
    else Paragraph(p)
  }

  /** A "### " line is never taken for a second-level heading: its third character is '#'. */
  lemma ThirdLevelIsNotSecondLevel(p: string)
    requires "### " <= p
    ensures Classify(p) == Heading3(p[4..])
  {
    assert p[2] == '#';
  }

  /**
   * A bold-label paragraph splits at its first colon: the text before it, the
   * colon and the body put back together give the original string, and the
   * label shown is that text without any `**`.
   */
  lemma LabelledReconstructs(p: string)
    requires Classify(p).Labelled?
    ensures Split(p, ':')[0] + ":" + Classify(p).body == p
    ensures Classify(p).heading == StripBold(Split(p, ':')[0])
    ensures !HasDoubleStar(Classify(p).heading)
  {
    var parts := Split(p, ':');
    JoinSplit(p, ':');
    assert |parts| >= 2;
    StripBoldLeavesNoDoubleStar(parts[0]);
  }

  /**
   * A line that opens with `**` but has no colon, such as the bold formula line
   * of the ROI guide, is a plain paragraph shown as it is.
   */
  lemma BoldWithoutColonIsPlain(p: string)
    requires "**" <= p && ':' !in p
    ensures Classify(p) == Paragraph(p)
  {
    assert p[0] == '*';
  }

  /** The rendered article: one block per content string, in the same order. */
  function RenderContent(content: seq<string>): (r: seq<Block>)
    ensures |r| == |content|
    ensures forall i :: 0 <= i < |content| ==> r[i] == Classify(content[i])
  {
    if content == [] then [] else [Classify(content[0])] + RenderContent(content[1..])
  }

  // ---------------------------------------------------------------------------
  // Post lookup
  // ---------------------------------------------------------------------------

  datatype Post = Post(title: string, category: string, author: string, content: seq<string>)

  const DefaultPostKey := "what-is-pre-leased-property"

  const BlogPosts: map<string, Post> := map[
    "what-is-pre-leased-property" := Post(
      "What is Pre-Leased Property? Complete Guide for Investors", "Investment Basics", "Rajiv Mehta",
      [
        "Pre-leased property, also known as pre-rented property, is a commercial real estate asset that comes with an existing tenant and an active lease agreement. This means that from the day of purchase, you start earning rental income without the hassle of finding tenants.",
        "## Why Invest in Pre-Leased Properties?",
        "The primary advantage of pre-leased properties is the elimination of vacancy risk. Traditional commercial properties may sit empty for months while you search for suitable tenants. With pre-leased properties, rental income begins immediately upon purchase.",
        "### Key Benefits:",
        "**1. Assured Rental Income**: The property comes with a signed lease agreement, typically ranging from 5 to 15 years, guaranteeing steady monthly income.",
        "**2. Lower Risk**: Having a reputed tenant like a bank or IT company significantly reduces investment risk. These tenants have strong credit ratings and rarely default on payments.",
        "**3. Annual Escalation**: Most lease agreements include an annual rental escalation clause (typically 5%), ensuring your income grows over time.",
        "**4. Tax Benefits**: Commercial property investors can claim depreciation benefits and deduct expenses like property tax, maintenance, and loan interest.",
        "## Types of Pre-Leased Properties",
        "**Bank-Leased Properties**: These are considered the safest as banks are highly reliable tenants with excellent credit ratings. HDFC, ICICI, and Axis Bank are common tenants.",
        "**IT/Corporate Office Spaces**: Properties leased to IT giants like Infosys, TCS, or Wipro offer good returns and long-term stability.",
        "**Retail Spaces**: Shopping centers and standalone retail properties leased to brands like Reliance Retail, Big Bazaar, or D-Mart.",
        "## How to Evaluate a Pre-Leased Property",
        "Before investing, consider these crucial factors:",
        "- **Tenant Quality**: Research the tenant's financial health and track record.",
        "- **Lease Terms**: Check the remaining lease period, lock-in clause, and escalation terms.",
        "- **Location**: Properties in prime commercial areas command better rentals and appreciation.",
        "- **ROI Analysis**: Calculate the gross and net yield to ensure attractive returns.",
        "## Conclusion",
        "Pre-leased commercial properties offer a compelling investment opportunity for those seeking stable, passive income. With the right due diligence and property selection, investors can achieve returns of 7-9% annually, significantly outperforming traditional investment options like fixed deposits."
      ]),
    "roi-calculation-guide" := Post(
      "How to Calculate ROI on Commercial Property Investment", "Financial Planning", "Priya Sharma",
      [
        "Understanding how to calculate Return on Investment (ROI) is crucial for any commercial property investor. This guide will walk you through the key metrics and formulas used to evaluate investment performance.",
        "## Basic ROI Formula",
        "The simplest ROI calculation is: **ROI = (Annual Rental Income / Property Cost) × 100**",
        "For example, if a property costs ₹4 Crore and generates annual rent of ₹32 Lakhs: ROI = (32,00,000 / 4,00,00,000) × 100 = **8%**",
        "## Gross Rental Yield vs Net Rental Yield",
        "**Gross Rental Yield** doesn't account for expenses: Annual Rent ÷ Property Price × 100",
        "**Net Rental Yield** is more accurate as it deducts expenses: (Annual Rent - Annual Expenses) ÷ Property Price × 100",
        "### Common Expenses to Consider:",
        "- Property Tax",
        "- Maintenance and repairs",
        "- Insurance",
        "- Property management fees",
        "- Vacancy allowance",
        "## Total Return Calculation",
        "For a complete picture, consider both rental income and capital appreciation:",
        "**Total Return = Rental Yield + Capital Appreciation**",
        "If your property appreciates 5% annually and yields 8% rent, total return = 13%",
        "## Pro Tips for Better ROI",
        "1. Negotiate lower purchase prices for better yields",
        "2. Choose properties with escalation clauses",
        "3. Consider locations with high appreciation potential",
        "4. Factor in all costs including registration and brokerage"
      ])
  ]

  /** Ids of the "related articles" links at the foot of a post. */
  const RelatedPostIds: seq<string> := ["roi-calculation-guide", "best-cities-commercial-investment"]

  /**
   * The names every plain JavaScript object inherits from Object.prototype. The
   * post table is such an object, so indexing it with one of these names yields
   * a truthy inherited value (a function, or the prototype itself) instead of
   * undefined.
   */
  const InheritedKeys: set<string> := {
    "constructor", "hasOwnProperty", "isPrototypeOf", "propertyIsEnumerable",
    "toLocaleString", "toString", "valueOf", "__proto__",
    "__defineGetter__", "__defineSetter__", "__lookupGetter__", "__lookupSetter__"
  }

  /**
   * The post shown for a route id: the post stored under a non-empty known id,
   * and the default post for a missing, empty or unknown one. `None` stands for
   * an inherited name: the fallback does not fire, the page reads `content`
   * from a value that has none, and rendering fails.
   */
  function LookupPost(id: Option<string>): (r: Option<Post>)
    ensures r.None? <==> id.Some? && id.value in InheritedKeys
    ensures r.Some? ==> r.value in BlogPosts.Values
    ensures id.Some? && id.value != "" && id.value in BlogPosts ==> r == Some(BlogPosts[id.value])
    ensures !(id.Some? && (id.value in BlogPosts || id.value in InheritedKeys)) ==> r == Some(BlogPosts[DefaultPostKey])
  {
    var key := if id.Some? && id.value != "" then id.value else DefaultPostKey;
    if key in BlogPosts then Some(BlogPosts[key])
    else if key in InheritedKeys then None
    else Some(BlogPosts[DefaultPostKey])
  }

  /** The second related link, like the third card of the blog index, has no post and shows the default one. */
  lemma BestCitiesFallsBack()
    ensures LookupPost(Some(RelatedPostIds[1])) == Some(BlogPosts[DefaultPostKey])
    ensures LookupPost(Some(RelatedPostIds[0])) == Some(BlogPosts["roi-calculation-guide"])
  {
    assert RelatedPostIds[1] !in BlogPosts;
  }
}

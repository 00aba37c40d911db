/** The HTML slide deck of `show_html_slides`: the markup built for each
    slide record, and the page's navigation script, which keeps a 1-based
    current-slide counter that wraps around and toggles the `active` class. */
module Slide {
  import opened Wrappers
  import opened Text

  /** One entry of `slides_data`: a dict whose 'title' and 'items' keys may
      each be absent. */
  datatype SlideData = SlideData(title: Option<string>, items: Option<seq<string>>)

  const TitleOpen := "<h1 class=\"slide-header-title\">"
  const TitleClose := "</h1>"
  const ListOpen := "<ul class=\"slide-list-content\">"
  const ListClose := "</ul>"

  const DivStart := "\n        <div class=\""
  const IdStart := "\" id=\""
  const BodyStart := "\">\n            "
  const DivEnd := "\n        </div>\n        "
  const SlideContent := "slide-content"

  /** `slide_data.get('title', '')` */
  function TitleOf(s: SlideData): string {
    s.title.GetOr("")
  }

  /** `slide_data.get('items', [])` */
  function ItemsOf(s: SlideData): seq<string> {
    s.items.GetOr([])
  }

  function ItemHtml(item: string): string {
    "<li>" + item + "</li>"
  }

  /** The `<li>` elements of a list, one per item. */
  function ItemsHtml(items: seq<string>): string
    decreases |items|
  {
    if items == [] then "" else ItemsHtml(items[..|items| - 1]) + ItemHtml(items[|items| - 1])
  }

  /** The `<ul>` block, emitted only for a non-empty item list. */
  function ListHtml(items: seq<string>): string {
    if items == [] then "" else ListOpen + ItemsHtml(items) + ListClose
  }

  /** `content_html` of one slide: its heading, then its list. */
  function ContentHtml(s: SlideData): string {
    TitleOpen + TitleOf(s) + TitleClose + ListHtml(ItemsOf(s))
  }

  /** `"active" if idx == 0 else ""` */
  function ActiveClass(idx: nat): string {
    if idx == 0 then "active" else ""
  }

  /** The value of the `class` attribute of slide idx's `<div>`. */
  function ClassAttr(idx: nat): string {
    SlideContent + " " + ActiveClass(idx)
  }

  /** The `id` attribute of slide idx's `<div>`. */
  function SlideId(idx: nat): string {
    "slide-" + NatToString(idx + 1)
  }

  /** The markup appended to `slides_html_content` for record idx. */
  function Fragment(idx: nat, s: SlideData): string {
    DivStart + ClassAttr(idx) + IdStart + SlideId(idx) + BodyStart + ContentHtml(s) + DivEnd
  }

  function Fragments(slides: seq<SlideData>): seq<string> {
    seq(|slides|, k requires 0 <= k < |slides| => Fragment(k, slides[k]))
  }

  /** `slides_html_content` for the whole deck. */
  function SlidesHtml(slides: seq<SlideData>): string {
    Concat(Fragments(slides))
  }

  /** The set of classes a browser reads from a `class` attribute. */
  function ClassSet(attr: string): set<string> {
    set w | w in Words(attr)
  }

  // ---------------------------------------------------------------------------
  // Rendering (lib/slide.py, lines 8-26)
  // ---------------------------------------------------------------------------

  /** The inner loop: the content of one slide, grown by `+=`. */
  method RenderContent(s: SlideData) returns (contentHtml: string)
    ensures contentHtml == ContentHtml(s)
  {
    var title := TitleOf(s);
    var items := ItemsOf(s);
    contentHtml := TitleOpen + title + TitleClose;
    if items != [] {
      contentHtml := contentHtml + ListOpen;
      ghost var listStart := contentHtml;
      for j := 0 to |items|
        invariant contentHtml == listStart + ItemsHtml(items[..j])
      {
        assert items[..j + 1] == items[..j] + [items[j]];
        ItemsHtmlSnoc(items[..j], items[j]);
        contentHtml := contentHtml + ("<li>" + items[j] + "</li>");
      }
      assert items[..|items|] == items;
      contentHtml := contentHtml + ListClose;
    }
  }


  /** The outer loop of `show_html_slides`: the markup of every slide, and
      the `totalSlides` value written into the navigation script. */
  method ShowHtmlSlides(slides: seq<SlideData>) returns (slidesHtml: string, totalSlides: nat)
    ensures totalSlides == |slides|
    ensures slidesHtml == SlidesHtml(slides)
  {
    totalSlides := |slides|;
    slidesHtml := "";
    for idx := 0 to |slides|
      invariant slidesHtml == SlidesHtml(slides[..idx])
    {
      var active := if idx == 0 then "active" else "";
      var contentHtml := RenderContent(slides[idx]);
      // the f-string: `class="slide-content {active}" id="slide-{idx+1}"`
      var classAttr := SlideContent + " " + active;
      var slideId := "slide-" + NatToString(idx + 1);
      var fragment := DivStart + classAttr + IdStart + slideId + BodyStart + contentHtml + DivEnd;
      SlidesHtmlStep(slides, idx);
      slidesHtml := slidesHtml + fragment;
    }
    assert slides[..|slides|] == slides;
  }

  // ---------------------------------------------------------------------------
  // Properties of the markup
  // ---------------------------------------------------------------------------

  /** Appending a record appends exactly one fragment, numbered after the others. */
  lemma SlidesHtmlSnoc(slides: seq<SlideData>, s: SlideData)
    ensures SlidesHtml(slides + [s]) == SlidesHtml(slides) + Fragment(|slides|, s)
  {
    var fs := Fragments(slides + [s]);
    assert fs[..|slides|] == Fragments(slides);
  }

  lemma SlidesHtmlStep(slides: seq<SlideData>, idx: nat)
    requires idx < |slides|
    ensures SlidesHtml(slides[..idx + 1]) == SlidesHtml(slides[..idx]) + Fragment(idx, slides[idx])
  {
    var fs := Fragments(slides[..idx + 1]);
    assert fs[..idx] == Fragments(slides[..idx]);
  }

  /** The markup of a deck begins with the markup of each of its prefixes:
      fragments come in input order and a later record never alters an
      earlier fragment. */
  lemma SlidesHtmlPrefix(slides: seq<SlideData>, n: nat)
    requires n <= |slides|
    ensures |SlidesHtml(slides[..n])| <= |SlidesHtml(slides)|
    ensures SlidesHtml(slides)[..|SlidesHtml(slides[..n])|] == SlidesHtml(slides[..n])
  {
    assert Fragments(slides[..n]) == Fragments(slides)[..n];
    ConcatPrefix(Fragments(slides), n);
  }

  /** The class list of slide idx is `slide-content active` for idx 0 and `slide-content` for
      every other slide (whose attribute text ends in a space). */
  lemma ClassListOfSlide(idx: nat)
    ensures Words(ClassAttr(idx)) == if idx == 0 then [SlideContent, "active"] else [SlideContent]
  {
    if idx == 0 {
      ClassListOfFirst();
    } else {
      ClassListOfOther(idx);
    }
  }

  lemma ClassListOfFirst()
    ensures Words(ClassAttr(0)) == [SlideContent, "active"]
  {
    ClassNamesAreWords();
    WordsCons(SlideContent, "active");
    WordsSingle("active");
  }

  /** Neither class name holds whitespace. */
  lemma ClassNamesAreWords()
    ensures |SlideContent| > 0 && NoSpace(SlideContent)
    ensures NoSpace("active")
  {
  }

  lemma ClassListOfOther(idx: nat)
    requires idx > 0
    ensures Words(ClassAttr(idx)) == [SlideContent]
  {
    ClassNamesAreWords();
    assert ClassAttr(idx) == SlideContent + " " + "";
    WordsCons(SlideContent, "");
  }

  /** So in the loaded page the `active` class is on the first slide only. */
  lemma ActiveOnlyOnFirst(idx: nat)
    ensures "active" in ClassSet(ClassAttr(idx)) <==> idx == 0
  {
    ClassListOfSlide(idx);
    if idx != 0 {
      assert Words(ClassAttr(idx)) == [SlideContent];
      assert "active" != SlideContent;
    }
  }

  /** Slide ids are 1-based: the number after `slide-` in slide idx's id is idx + 1. */
  lemma SlideIdNumber(idx: nat)
    ensures SlideId(idx)[..6] == "slide-"
    ensures AllDigits(SlideId(idx)[6..]) && ParseDigits(SlideId(idx)[6..]) == idx + 1
  {
    assert SlideId(idx)[6..] == NatToString(idx + 1);
    ParseNatToString(idx + 1);
  }

  /** Distinct slides have distinct ids, so `getElementById('slide-' + i)`
      finds slide i - 1 and no other. */
  lemma SlideIdsDistinct(j: nat, k: nat)
    ensures SlideId(j) == SlideId(k) <==> j == k
  {
    if SlideId(j) == SlideId(k) {
      SlideIdNumber(j);
      SlideIdNumber(k);
    }
  }

  /** A `<ul>` is emitted iff the record has items; a missing `items` key
      behaves as the empty list, and a missing `title` as the empty string. */
  lemma ListOnlyForItems(s: SlideData)
    ensures ListHtml(ItemsOf(s)) != "" <==> s.items.Some? && s.items.value != []
    ensures s.title.None? ==> ContentHtml(s)[..|TitleOpen + TitleClose|] == TitleOpen + TitleClose
  {
    if s.title.None? {
      assert ContentHtml(s) == TitleOpen + TitleClose + ListHtml(ItemsOf(s));
    }
  }

  /** Items are rendered one `<li>` each, in order, text verbatim: the
      markup of a concatenation is the concatenation of the markups. */
  lemma {:induction false} ItemsHtmlAppend(a: seq<string>, b: seq<string>)
    ensures ItemsHtml(a + b) == ItemsHtml(a) + ItemsHtml(b)
    decreases |b|
  {
    if b == [] {
      assert a + b == a;
    } else {
      var init, last := b[..|b| - 1], b[|b| - 1];
      assert b == init + [last];
      assert a + b == (a + init) + [last];
      ItemsHtmlAppend(a, init);
      ItemsHtmlSnoc(a + init, last);
      ItemsHtmlSnoc(init, last);
    }
  }

  lemma ItemsHtmlSnoc(items: seq<string>, item: string)
    ensures ItemsHtml(items + [item]) == ItemsHtml(items) + ItemHtml(item)
  {
    assert (items + [item])[..|items|] == items;
  }


  // ---------------------------------------------------------------------------
  // Navigation script (lib/slide.py, lines 131-175)
  // ---------------------------------------------------------------------------

  /** Where `currentSlide` can be: within 1..totalSlides, and for an empty
      deck either 1 (the initial value) or 0 (after `prevSlide`). */
  predicate InRange(current: int, total: nat) {
    if total >= 1 then 1 <= current <= total else current == 0 || current == 1
  }

  /** `currentSlide` after `prevSlide`. */
  function Prev(current: int, total: nat): (r: int)
    ensures InRange(current, total) ==> InRange(r, total)
  {
    if current - 1 < 1 then total else current - 1
  }

  /** `currentSlide` after `nextSlide`. */
  function Next(current: int, total: nat): (r: int)
    ensures InRange(current, total) ==> InRange(r, total)
  {
    if current + 1 > total then 1 else current + 1
  }

  /** `prevSlide` undoes `nextSlide` and vice versa on a non-empty deck. */
  lemma PrevNextInverse(current: int, total: nat)
    requires total >= 1 && InRange(current, total)
    ensures Prev(Next(current, total), total) == current
    ensures Next(Prev(current, total), total) == current
  {
  }

  /** The counter after k presses of the "next" button. */
  function NextN(current: int, total: nat, k: nat): int
    decreases k
  {
    if k == 0 then current else NextN(Next(current, total), total, k - 1)
  }

  lemma {:induction false} NextNAdd(current: int, total: nat, a: nat, b: nat)
    ensures NextN(current, total, a + b) == NextN(NextN(current, total, a), total, b)
    decreases a
  {
    if a > 0 {
      NextNAdd(Next(current, total), total, a - 1, b);
    }
  }

  /** Pressing "next" from slide c moves through c + 1, c + 2, ... up to the last slide. */
  lemma {:induction false} NextNClimbs(current: int, total: nat, k: nat)
    requires 1 <= current && current + k <= total
    ensures NextN(current, total, k) == current + k
    decreases k
  {
    if k > 0 {
      NextNClimbs(current + 1, total, k - 1);
    }
  }

  /** Pressing "next" totalSlides times from any slide comes back to it:
      the counter visits every slide and wraps around. */
  lemma NextNCycle(current: int, total: nat)
    requires total >= 1 && 1 <= current <= total
    ensures NextN(current, total, total) == current
  {
    NextNAdd(current, total, total - current, current);
    NextNClimbs(current, total, total - current);
    NextNClimbs(1, total, current - 1);
  }

  /** The page in the browser: the counter and the class list of each
      slide's `<div>` (classes[k] belongs to the element with id SlideId(k)). */
  class Navigator {
    var currentSlide: int
    var totalSlides: nat
    var classes: seq<set<string>>

    ghost predicate Valid()
      reads this
    {
      |classes| == totalSlides && InRange(currentSlide, totalSlides)
    }

    /** Exactly slide n (1-based) carries the `active` class. */
    ghost predicate OnlyActive(n: int)
      reads this
    {
      forall k :: 0 <= k < |classes| ==> ("active" in classes[k] <==> k + 1 == n)
    }

    /** The page as loaded from the markup of `slides`, before any script runs:
        `var currentSlide = 1; var totalSlides = N;`. */
    constructor (slides: seq<SlideData>)
      ensures Valid() && currentSlide == 1 && totalSlides == |slides|
      ensures forall k :: 0 <= k < |classes| ==> classes[k] == ClassSet(ClassAttr(k))
      ensures OnlyActive(1)
    {
      currentSlide := 1;
      totalSlides := |slides|;
      classes := seq(|slides|, k requires 0 <= k < |slides| => ClassSet(ClassAttr(k)));
      new;
      forall k | 0 <= k < |classes|
        ensures "active" in classes[k] <==> k + 1 == 1
      {
        ActiveOnlyOnFirst(k);
      }
    }

    /** `showSlide(n)`: removes `active` from every slide and adds it to
        slide n; every other class is kept. */
    method ShowSlide(n: int)
      requires |classes| == totalSlides
      modifies this`classes
      ensures |classes| == totalSlides
      ensures OnlyActive(n)
      ensures forall k :: 0 <= k < |classes| ==> classes[k] - {"active"} == old(classes[k]) - {"active"}
    {
      var i := 1;
      while i <= totalSlides
        invariant 1 <= i <= totalSlides + 1
        invariant |classes| == totalSlides
        invariant forall k :: 0 <= k < i - 1 ==> ("active" in classes[k] <==> k + 1 == n)
        invariant forall k :: 0 <= k < i - 1 ==> classes[k] - {"active"} == old(classes[k]) - {"active"}
        invariant forall k :: i - 1 <= k < |classes| ==> classes[k] == old(classes[k])
      {
        var cls := classes[i - 1] - {"active"};
        if i == n {
          cls := cls + {"active"};
        }
        classes := classes[i - 1 := cls];
        i := i + 1;
      }
    }

    /** `prevSlide()` */
    method PrevSlide()
      requires Valid()
      modifies this`currentSlide, this`classes
      ensures Valid() && currentSlide == Prev(old(currentSlide), totalSlides)
      ensures OnlyActive(currentSlide)
      ensures forall k :: 0 <= k < |classes| ==> classes[k] - {"active"} == old(classes[k]) - {"active"}
    {
      currentSlide := currentSlide - 1;
      if currentSlide < 1 {
        currentSlide := totalSlides;
      }
      ShowSlide(currentSlide);
    }

    /** `nextSlide()` */
    method NextSlide()
      requires Valid()
      modifies this`currentSlide, this`classes
      ensures Valid() && currentSlide == Next(old(currentSlide), totalSlides)
      ensures OnlyActive(currentSlide)
      ensures forall k :: 0 <= k < |classes| ==> classes[k] - {"active"} == old(classes[k]) - {"active"}
    {
      currentSlide := currentSlide + 1;
      if currentSlide > totalSlides {
        currentSlide := 1;
      }
      ShowSlide(currentSlide);
    }

    /** The `DOMContentLoaded` handler: `showSlide(currentSlide)`. */
    method Load()
      requires Valid()
      modifies this`classes
      ensures Valid() && OnlyActive(currentSlide)
      ensures forall k :: 0 <= k < |classes| ==> classes[k] - {"active"} == old(classes[k]) - {"active"}
    {
      ShowSlide(currentSlide);
    }
  }
}

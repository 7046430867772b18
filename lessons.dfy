/** The lesson registry: each lesson's title and its `prev`/`next` links,
    keyed by slug, and `lessonOrder`, the reading order of the learning
    hub. The links form a doubly linked list along that order. */
module LessonRegistry {
  import opened Js

  /** A `prev` or `next` link: the target's slug and the title shown on it. */
  datatype Link = Link(slug: string, title: string)

  /** The structural fields of a lesson; labels, headline and content are
      display text and are not kept. */
  datatype Lesson = Lesson(title: string, prev: Option<Link>, next: Option<Link>)

  /** The values of `lessons`. */
  const WhatIsMutualFund := Lesson("What is a Mutual Fund?",
    None,
    Some(Link("what-is-sip", "The Power of SIP")))

  const WhatIsSip := Lesson("The Power of SIP",
    Some(Link("what-is-mutual-fund", "What is a Mutual Fund?")),
    Some(Link("nav-explained", "NAV Explained Simply")))

  const NavExplained := Lesson("NAV Explained Simply",
    Some(Link("what-is-sip", "The Power of SIP")),
    Some(Link("sip-deep-dive", "SIP Deep Dive")))

  const SipDeepDive := Lesson("SIP – Deep Dive",
    Some(Link("nav-explained", "NAV Explained Simply")),
    Some(Link("lumpsum", "Lumpsum Strategy")))

  const Lumpsum := Lesson("Lumpsum Strategy",
    Some(Link("sip-deep-dive", "SIP Deep Dive")),
    Some(Link("swp", "Retiring with SWP")))

  const Swp := Lesson("Retiring with SWP",
    Some(Link("lumpsum", "Lumpsum Strategy")),
    Some(Link("risk-volatility", "Market Risk vs Volatility")))

  const RiskVolatility := Lesson("Market Risk vs Volatility",
    Some(Link("swp", "Retiring with SWP")),
    Some(Link("inflation", "The Silent Wealth Killer")))

  const Inflation := Lesson("The Silent Wealth Killer",
    Some(Link("risk-volatility", "Market Risk vs Volatility")),
    Some(Link("fd-vs-mutual-fund", "FD vs Mutual Funds")))

  const FdVsMutualFund := Lesson("FD vs Mutual Funds",
    Some(Link("inflation", "The Silent Wealth Killer")),
    Some(Link("compounding", "Compounding Math")))

  const Compounding := Lesson("Compounding Math",
    Some(Link("fd-vs-mutual-fund", "FD vs Mutual Funds")),
    Some(Link("time-in-market", "Time in the Market")))

  const TimeInMarket := Lesson("Time in the Market",
    Some(Link("compounding", "Compounding Math")),
    Some(Link("tax-planning", "Tax Planning & Efficiency")))

  const TaxPlanning := Lesson("Tax Planning & Efficiency",
    Some(Link("time-in-market", "Time in the Market")),
    Some(Link("insurance-basics", "Insurance Basics")))

  const InsuranceBasics := Lesson("Insurance Basics",
    Some(Link("tax-planning", "Tax Planning & Efficiency")),
    None)

  /** `lessons`, property by property in source order. */
  const Lessons: seq<Property<Lesson>> := [
    Property("what-is-mutual-fund", WhatIsMutualFund),
    Property("what-is-sip", WhatIsSip),
    Property("nav-explained", NavExplained),
    Property("sip-deep-dive", SipDeepDive),
    Property("lumpsum", Lumpsum),
    Property("swp", Swp),
    Property("risk-volatility", RiskVolatility),
    Property("inflation", Inflation),
    Property("fd-vs-mutual-fund", FdVsMutualFund),
    Property("compounding", Compounding),
    Property("time-in-market", TimeInMarket),
    Property("tax-planning", TaxPlanning),
    Property("insurance-basics", InsuranceBasics)
  ]

  /** `lessonOrder`. */
  const LessonOrder: seq<string> := [
    "what-is-mutual-fund",
    "what-is-sip",
    "nav-explained",
    "sip-deep-dive",
    "lumpsum",
    "swp",
    "risk-volatility",
    "inflation",
    "fd-vs-mutual-fund",
    "compounding",
    "time-in-market",
    "tax-planning",
    "insurance-basics"
  ]

  /** `lessons[req.params.slug]` in `GET /learn/:slug`: the lesson, or
      `None` for the 404 page. */
  function FindLesson(slug: string): (r: Option<Lesson>)
    ensures r.None? <==> forall i :: 0 <= i < |Lessons| ==> Lessons[i].key != slug
    ensures r.Some? ==> exists i :: 0 <= i < |Lessons| && Lessons[i].key == slug && r.value == Lessons[i].value
  {
    PropertyValue(Lessons, slug)
  }

  /** `lessonOrder` lists 13 distinct slugs, and they are the keys of
      `lessons` in the same order: keys and order are in bijection. */
  lemma OrderIsKeys()
    ensures |LessonOrder| == |Lessons| == 13
    ensures forall i :: 0 <= i < |Lessons| ==> Lessons[i].key == LessonOrder[i]
    ensures forall i, j :: 0 <= i < j < |LessonOrder| ==> LessonOrder[i] != LessonOrder[j]
  {
  }

  /** The lesson at position `i` of the order is the one `FindLesson` finds. */
  lemma FindInOrder(i: nat)
    requires i < |LessonOrder|
    ensures FindLesson(LessonOrder[i]) == Some(Lessons[i].value)
  {
    OrderIsKeys();
    PropertyValueFinds(Lessons, LessonOrder[i]);
  }

  /** A slug finds a lesson exactly when it is listed in `lessonOrder`. */
  lemma FindLessonIff(slug: string)
    ensures FindLesson(slug).Some? <==> slug in LessonOrder
  {
    OrderIsKeys();
    if slug in LessonOrder {
      var i :| 0 <= i < |LessonOrder| && LessonOrder[i] == slug;
      FindInOrder(i);
    }
  }

  /** The first lesson has no `prev`, the last no `next`, and every other
      link points at the neighbour in `lessonOrder`. */
  lemma LinksFollowOrder()
    ensures Lessons[0].value.prev.None?
    ensures Lessons[|Lessons| - 1].value.next.None?
    ensures forall i :: 0 <= i < |Lessons| - 1 ==>
      Lessons[i].value.next.Some? && Lessons[i].value.next.value.slug == LessonOrder[i + 1]
    ensures forall i :: 0 < i < |Lessons| ==>
      Lessons[i].value.prev.Some? && Lessons[i].value.prev.value.slug == LessonOrder[i - 1]
  {
  }

  /** Following `next` and then `prev` from any lesson that has a next one
      leads back to it, and likewise `prev` then `next`. */
  lemma NextPrevInverse(slug: string)
    requires FindLesson(slug).Some?
    ensures var l := FindLesson(slug).value;
      l.next.Some? ==>
        FindLesson(l.next.value.slug).Some? &&
        FindLesson(l.next.value.slug).value.prev.Some? &&
        FindLesson(l.next.value.slug).value.prev.value.slug == slug
    ensures var l := FindLesson(slug).value;
      l.prev.Some? ==>
        FindLesson(l.prev.value.slug).Some? &&
        FindLesson(l.prev.value.slug).value.next.Some? &&
        FindLesson(l.prev.value.slug).value.next.value.slug == slug
  {
    FindLessonIff(slug);
    var i :| 0 <= i < |LessonOrder| && LessonOrder[i] == slug;
    FindInOrder(i);
    NeighboursAt(i);
  }

  /** The same, for the lesson at position `i`. */
  lemma NeighboursAt(i: nat)
    requires i < |Lessons|
    ensures var l := Lessons[i].value;
      l.next.Some? ==>
        FindLesson(l.next.value.slug).Some? &&
        FindLesson(l.next.value.slug).value.prev.Some? &&
        FindLesson(l.next.value.slug).value.prev.value.slug == LessonOrder[i]
    ensures var l := Lessons[i].value;
      l.prev.Some? ==>
        FindLesson(l.prev.value.slug).Some? &&
        FindLesson(l.prev.value.slug).value.next.Some? &&
        FindLesson(l.prev.value.slug).value.next.value.slug == LessonOrder[i]
  {
    OrderIsKeys();
    LinksFollowOrder();
    if i + 1 < |Lessons| {
      FindInOrder(i + 1);
    }
    if i > 0 {
      FindInOrder(i - 1);
    }
  }
}

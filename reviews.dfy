/**
 * The reviews page: a fixed list of customer reviews shown three per
 * page, a page counter moved by "previous", "next" and the numbered page
 * buttons, and a row of five stars filled up to the review's rating.
 */
module Reviews {

  datatype Review = Review(id: nat, name: string, role: string, rating: int,
                           content: string, avatar: string, date: string)

  const ReviewsPerPage: nat := 3

  /** The reviews the page shows. */
  const AllReviews: seq<Review> := [
    Review(1, "Ahmed Al-Rashid", "Homeowner", 5,
      "Exceptional service! The team installed our AC system flawlessly. The cooling is perfect and their after-sales support is outstanding.",
      "A", "2 weeks ago"),
    Review(2, "Sarah Johnson", "Business Owner", 5,
      "We've been using Optimus Prime for our office building. Professional, reliable, and always on time. Highly recommend their commercial solutions!",
      "S", "1 month ago"),
    Review(3, "Mohammed Hassan", "Villa Owner", 5,
      "Best AC company in the region. Their technicians are knowledgeable and the installation was clean and efficient. Great value for money.",
      "M", "3 weeks ago"),
    Review(4, "Emily Chen", "Property Manager", 4,
      "Managing multiple properties is easier with Optimus Prime. Their maintenance packages are comprehensive and cost-effective.",
      "E", "1 month ago"),
    Review(5, "Omar Al-Farsi", "Restaurant Owner", 5,
      "Critical for our business - they responded within hours when our AC failed. The repair was quick and professional. Lifesavers!",
      "O", "2 months ago"),
    Review(6, "Lisa Thompson", "Homeowner", 5,
      "From consultation to installation, everything was smooth. The energy-efficient units they recommended cut our bills by 30%!",
      "L", "6 weeks ago")
  ]

  function Min(a: int, b: int): int { if a <= b then a else b }
  function Max(a: int, b: int): int { if a >= b then a else b }

  // ---------------------------------------------------------------------
  // Pages

  /** `Math.ceil(n / reviewsPerPage)`: the fewest pages that hold n reviews. */
  function TotalPages(n: nat): (t: nat)
    ensures t * ReviewsPerPage >= n
    ensures t > 0 ==> (t - 1) * ReviewsPerPage < n
  {
    (n + ReviewsPerPage - 1) / ReviewsPerPage
  }

  lemma FixedListHasTwoPages()
    ensures TotalPages(|AllReviews|) == 2
  {
  }

  /** The index `Array.prototype.slice` starts or stops at for argument i:
      a negative i counts from the end, and either way it is clamped to
      the sequence. */
  function SliceIndex(i: int, len: nat): (r: nat)
    ensures r <= len
  {
    if i < 0 then Max(len + i, 0) else Min(i, len)
  }

  /** `s.slice(start, end)`: for non-negative arguments, the elements
      from start up to end, cut off at the end of s. */
  function Slice<T>(s: seq<T>, start: int, end: int): (r: seq<T>)
    ensures |r| <= |s|
    ensures 0 <= start <= end ==> r == s[Min(start, |s|)..Min(end, |s|)]
  {
    var from, to := SliceIndex(start, |s|), SliceIndex(end, |s|);
    if from < to then s[from..to] else []
  }

  /** `currentReviews`: the reviews page p shows, at most three; page
      p >= 0 starts at review 3p. */
  function PageOf(reviews: seq<Review>, p: int): (page: seq<Review>)
    ensures |page| <= ReviewsPerPage
    ensures var first := p * ReviewsPerPage;
            0 <= p ==> page == reviews[Min(first, |reviews|)..Min(first + ReviewsPerPage, |reviews|)]
  {
    Slice(reviews, p * ReviewsPerPage, (p + 1) * ReviewsPerPage)
  }

  /** Page p (p >= 0) holds exactly the reviews at indices 3p up to, not
      including, min(3p + 3, n): at most three, in list order. */
  lemma PageWindow(reviews: seq<Review>, p: nat)
    ensures var page, n, first := PageOf(reviews, p), |reviews|, p * ReviewsPerPage;
            |page| == (if n <= first then 0 else Min(ReviewsPerPage, n - first))
            && |page| <= ReviewsPerPage
            && forall j :: 0 <= j < |page| ==> page[j] == reviews[first + j]
  {
  }

  /** Pages 0 to k - 1 one after the other. */
  function PagesUpTo(reviews: seq<Review>, k: nat): seq<Review>
  {
    if k == 0 then [] else PagesUpTo(reviews, k - 1) + PageOf(reviews, k - 1)
  }

  /** The first k pages are the first 3k reviews (or all of them). */
  lemma {:induction false} PagesUpToPrefix(reviews: seq<Review>, k: nat)
    ensures PagesUpTo(reviews, k) == reviews[..Min(k * ReviewsPerPage, |reviews|)]
  {
    if k > 0 {
      PagesUpToPrefix(reviews, k - 1);
      var a, b := Min((k - 1) * ReviewsPerPage, |reviews|), Min(k * ReviewsPerPage, |reviews|);
      assert PageOf(reviews, k - 1) == reviews[a..b];
      assert reviews[..a] + reviews[a..b] == reviews[..b];
    }
  }

  /** Read in order, the pages give back the whole list: every review is
      on exactly one page, and in its original place. */
  lemma PagesPartitionReviews(reviews: seq<Review>)
    ensures PagesUpTo(reviews, TotalPages(|reviews|)) == reviews
  {
    PagesUpToPrefix(reviews, TotalPages(|reviews|));
  }

  // ---------------------------------------------------------------------
  // Page navigation

  /** The previous-page handler: `Math.max(0, p - 1)`. */
  function PrevPage(p: int): (q: int)
    ensures q >= 0
    ensures p >= 1 ==> q == p - 1
    ensures p <= 1 ==> q == 0
  {
    Max(0, p - 1)
  }

  /** The next-page handler: `Math.min(totalPages - 1, p + 1)`. */
  function NextPage(p: int, n: nat): (q: int)
    ensures q <= TotalPages(n) - 1
    ensures p + 1 <= TotalPages(n) - 1 ==> q == p + 1
    ensures p + 1 >= TotalPages(n) - 1 ==> q == TotalPages(n) - 1
  {
    Min(TotalPages(n) - 1, p + 1)
  }

  /** The pages the counter can show for n reviews. With no reviews there
      are no pages, and "next" moves the counter to -1. */
  predicate InRange(p: int, n: nat)
  {
    if n > 0 then 0 <= p < TotalPages(n) else -1 <= p <= 0
  }

  datatype Action = Prev | Next | Select(page: int)

  /** A click the page offers: the numbered buttons run from 0 to
      totalPages - 1. */
  predicate Offered(a: Action, n: nat)
  {
    a.Select? ==> 0 <= a.page < TotalPages(n)
  }

  function Step(p: int, n: nat, a: Action): int
  {
    match a
    case Prev => PrevPage(p)
    case Next => NextPage(p, n)
    case Select(i) => i
  }

  function Run(p: int, n: nat, actions: seq<Action>): int
    decreases |actions|
  {
    if |actions| == 0 then p else Run(Step(p, n, actions[0]), n, actions[1..])
  }

  /** Prev stops at the first page and next at the last. */
  lemma PrevNextClamp(p: int, n: nat)
    requires n > 0 && InRange(p, n)
    ensures p == 0 ==> PrevPage(p) == 0
    ensures p > 0 ==> PrevPage(p) == p - 1
    ensures p == TotalPages(n) - 1 ==> NextPage(p, n) == p
    ensures p < TotalPages(n) - 1 ==> NextPage(p, n) == p + 1
  {
  }

  /** Every offered click keeps the counter on a page that exists. */
  lemma StepInRange(p: int, n: nat, a: Action)
    requires InRange(p, n) && Offered(a, n)
    ensures InRange(Step(p, n, a), n)
  {
  }

  /** From the first page, any sequence of offered clicks keeps the
      counter on a page that exists. */
  lemma {:induction false} RunInRange(p: int, n: nat, actions: seq<Action>)
    requires InRange(p, n)
    requires forall k :: 0 <= k < |actions| ==> Offered(actions[k], n)
    ensures InRange(Run(p, n, actions), n)
    decreases |actions|
  {
    if |actions| > 0 {
      StepInRange(p, n, actions[0]);
      RunInRange(Step(p, n, actions[0]), n, actions[1..]);
    }
  }

  lemma RunFromFirstPage(n: nat, actions: seq<Action>)
    requires forall k :: 0 <= k < |actions| ==> Offered(actions[k], n)
    ensures InRange(Run(0, n, actions), n)
    ensures n > 0 ==> 0 <= Run(0, n, actions) < TotalPages(n)
  {
    RunInRange(0, n, actions);
  }

  /** `disabled={currentPage === 0}` */
  predicate PrevDisabled(p: int): (disabled: bool)
    ensures disabled ==> PrevPage(p) == p
  {
    p == 0
  }

  /** `disabled={currentPage === totalPages - 1}` */
  predicate NextDisabled(p: int, n: nat): (disabled: bool)
    ensures disabled ==> NextPage(p, n) == p
  {
    p == TotalPages(n) - 1
  }

  /** Each button is disabled exactly when clicking it would not move the
      counter. */
  lemma DisabledExactlyWhenStuck(p: int, n: nat)
    requires InRange(p, n)
    ensures PrevDisabled(p) <==> PrevPage(p) == p
    ensures NextDisabled(p, n) <==> NextPage(p, n) == p
  {
  }

  /** The page counter of the reviews view. */
  class Pager {
    const reviews: seq<Review>
    var currentPage: int

    predicate Valid()
      reads this
    {
      InRange(currentPage, |reviews|)
    }

    constructor (reviews: seq<Review>)
      ensures this.reviews == reviews && currentPage == 0 && Valid()
    {
      this.reviews := reviews;
      currentPage := 0;
    }

    function TotalPageCount(): nat
      reads this
    {
      TotalPages(|reviews|)
    }

    /** The reviews on the current page. */
    function CurrentReviews(): (page: seq<Review>)
      reads this
      requires Valid()
      ensures |page| <= ReviewsPerPage
      ensures |reviews| == 0 ==> page == []
      ensures var first := currentPage * ReviewsPerPage;
              |reviews| > 0 ==> first < |reviews| && page == reviews[first..Min(first + ReviewsPerPage, |reviews|)]
    {
      PageOf(reviews, currentPage)
    }

    method PrevClicked()
      modifies this`currentPage
      requires Valid()
      ensures currentPage == Max(0, old(currentPage) - 1)
      ensures Valid()
    {
      currentPage := PrevPage(currentPage);
    }

    method NextClicked()
      modifies this`currentPage
      requires Valid()
      ensures currentPage == Min(TotalPageCount() - 1, old(currentPage) + 1)
      ensures Valid()
    {
      currentPage := NextPage(currentPage, |reviews|);
    }

    method PageClicked(i: int)
      requires Valid()
      requires 0 <= i < TotalPageCount()
      modifies this`currentPage
      ensures currentPage == i && Valid()
    {
      currentPage := i;
    }
  }

  // ---------------------------------------------------------------------
  // Stars

  const StarCount: nat := 5

  /** The first k stars of a rating: star i is filled when i < rating. */
  function StarRow(rating: int, k: nat): (row: seq<bool>)
    ensures |row| == k
    ensures forall i, j :: 0 <= i < j < k && row[j] ==> row[i]
  {
    seq(k, i => i < rating)
  }

  function CountFilled(row: seq<bool>): nat
  {
    if |row| == 0 then 0 else CountFilled(row[..|row| - 1]) + (if row[|row| - 1] then 1 else 0)
  }

  /** Of the first k stars, min(rating, k) are filled (none for a
      negative rating). */
  lemma {:induction false} FilledStars(rating: int, k: nat)
    ensures CountFilled(StarRow(rating, k)) == Min(Max(rating, 0), k)
  {
    if k > 0 {
      FilledStars(rating, k - 1);
      assert StarRow(rating, k)[..k - 1] == StarRow(rating, k - 1);
    }
  }

  /** A review card renders five stars, min(rating, 5) of them filled. */
  lemma FiveStarRow(rating: int)
    requires rating >= 0
    ensures CountFilled(StarRow(rating, StarCount)) == Min(rating, StarCount)
  {
    FilledStars(rating, StarCount);
  }
}

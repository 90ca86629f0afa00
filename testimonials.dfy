/** The testimonial carousel: one testimonial shown at a time, moved by the
    arrow buttons, the pagination dots and a periodic timer. */
module Testimonials {

  datatype Testimonial = Testimonial(
    id: int,
    name: string,
    role: string,
    company: string,
    image: string,
    content: string,
    rating: int,
    project: string)

  /** The testimonials, in carousel order. */
  const TestimonialList: seq<Testimonial> := [
    Testimonial(1, "Sarah Johnson", "CEO, TechStart Inc.", "TechStart Inc.",
      "https://images.unsplash.com/photo-1494790108755-2616b612b786?ixlib=rb-4.0.3&auto=format&fit=crop&w=150&q=80",
      "Working with this developer was an absolute pleasure. They delivered our e-commerce platform ahead of schedule and exceeded all our expectations. The attention to detail and code quality is outstanding.",
      5, "E-Commerce Platform"),
    Testimonial(2, "Michael Chen", "Product Manager", "InnovateHub",
      "https://images.unsplash.com/photo-1472099645785-5658abf4ff4e?ixlib=rb-4.0.3&auto=format&fit=crop&w=150&q=80",
      "Exceptional UI/UX design skills! Our mobile app user engagement increased by 40% after the redesign. The user interface is intuitive and beautiful. Highly recommended for any design project.",
      5, "Mobile App Redesign"),
    Testimonial(3, "Emily Rodriguez", "Marketing Director", "BrandForce",
      "https://images.unsplash.com/photo-1438761681033-6461ffad8d80?ixlib=rb-4.0.3&auto=format&fit=crop&w=150&q=80",
      "The complete branding package was perfect for our startup. From logo design to brand guidelines, everything was professionally executed. Our brand now stands out in the competitive market.",
      5, "Brand Identity"),
    Testimonial(4, "David Park", "Founder", "FitLife App",
      "https://images.unsplash.com/photo-1500648767791-00dcc994a43e?ixlib=rb-4.0.3&auto=format&fit=crop&w=150&q=80",
      "Our fitness app development was smooth and professional. The React Native implementation is flawless, and the app performs excellently on both iOS and Android. Great communication throughout.",
      5, "Mobile App Development")
  ]

  /** The number of stars drawn for every rating. */
  const StarCount: nat := 5

  /** `d * n` is at least `n` for a positive multiplier. */
  lemma MulAtLeast(d: int, n: int)
    requires d >= 1 && n > 0
    ensures d * n >= n
  {
    assert d * n == (d - 1) * n + n;
    assert (d - 1) * n >= 0;
  }

  /** Any decomposition `a == q * n + r` with `0 <= r < n` gives the remainder. */
  lemma ModUnique(a: int, n: int, q: int, r: int)
    requires n > 0 && 0 <= r < n && a == q * n + r
    ensures a % n == r
  {
    var q', r' := a / n, a % n;
    assert a == q' * n + r';
    assert (q - q') * n == r' - r;
    if q > q' {
      MulAtLeast(q - q', n);
    } else if q < q' {
      MulAtLeast(q' - q, n);
    }
  }

  /** The remainder of a dividend below `2 * n`. */
  lemma ModSmall(a: int, n: int)
    requires n > 0
    ensures 0 <= a < n ==> a % n == a
    ensures n <= a < 2 * n ==> a % n == a - n
  {
    if 0 <= a < n {
      ModUnique(a, n, 0, a);
    } else if n <= a < 2 * n {
      ModUnique(a, n, 1, a - n);
    }
  }

  /** JavaScript's `%` on numbers: the remainder of a division truncated
      toward zero, so it takes the sign of the dividend. */
  function JsRemainder(a: int, n: int): (r: int)
    requires n > 0
    ensures 0 <= a ==> 0 <= r < n
    ensures a < 0 ==> -n < r <= 0
    ensures 0 <= a < n ==> r == a
    ensures n <= a < 2 * n ==> r == a - n
  {
    ModSmall(a, n);
    if a >= 0 then a % n else -((-a) % n)
  }

  /** The "next" updater `(prev + 1) % n`: one step forward, wrapping from
      the last testimonial to the first. */
  function NextIndex(i: nat, n: nat): (r: nat)
    requires n > 0
    ensures r < n
    ensures i < n ==> r == if i == n - 1 then 0 else i + 1
  {
    JsRemainder(i + 1, n)
  }

  /** The "previous" updater `(prev - 1 + n) % n`: one step back, wrapping
      from the first testimonial to the last. */
  function PrevIndex(i: nat, n: nat): (r: nat)
    requires n > 0
    ensures r < n
    ensures i < n ==> r == if i == 0 then n - 1 else i - 1
  {
    JsRemainder(i - 1 + n, n)
  }

  /** Forward and back are inverse on the valid indices, in both orders. */
  lemma NextPrevInverse(i: nat, n: nat)
    requires i < n
    ensures PrevIndex(NextIndex(i, n), n) == i
    ensures NextIndex(PrevIndex(i, n), n) == i
  {
  }

  /** The index after `k` timer ticks from index `i`. */
  function Ticks(i: nat, n: nat, k: nat): (r: nat)
    requires i < n
    ensures r < n
  {
    if k == 0 then i else NextIndex(Ticks(i, n, k - 1), n)
  }

  /** `k` ticks advance the index by `k`, modulo the number of testimonials. */
  lemma {:induction false} TicksAdvance(i: nat, n: nat, k: nat)
    requires i < n
    ensures Ticks(i, n, k) == (i + k) % n
  {
    if k == 0 {
      ModSmall(i, n);
    } else {
      TicksAdvance(i, n, k - 1);
      ModSucc(i + k - 1, n);
    }
  }

  /** The remainder of a successor: one more, or zero after `n - 1`. */
  lemma ModSucc(x: nat, n: nat)
    requires n > 0
    ensures (x + 1) % n == if x % n == n - 1 then 0 else x % n + 1
  {
    var q, j := x / n, x % n;
    assert x == q * n + j;
    if j == n - 1 {
      assert x + 1 == (q + 1) * n + 0;
      ModUnique(x + 1, n, q + 1, 0);
    } else {
      ModUnique(x + 1, n, q, j + 1);
    }
  }

  /** The carousel has period n: n ticks from any index return to it. */
  lemma TicksPeriod(i: nat, n: nat)
    requires i < n
    ensures Ticks(i, n, n) == i
  {
    TicksAdvance(i, n, n);
    ModUnique(i + n, n, 1, i);
  }

  /** The stars drawn for a rating: always five, star k filled exactly when
      k < rating. */
  function RenderStars(rating: int): (stars: seq<bool>)
    ensures |stars| == StarCount
    ensures forall k :: 0 <= k < |stars| ==> (stars[k] <==> k < rating)
  {
    seq(StarCount, k => k < rating)
  }

  /** The number of filled stars in a row. */
  function FilledCount(stars: seq<bool>): (c: nat)
    ensures c <= |stars|
  {
    if stars == [] then 0 else (if stars[0] then 1 else 0) + FilledCount(stars[1..])
  }

  /** When the first m stars are filled and the rest are not, m are filled. */
  lemma {:induction false} FilledPrefixCount(stars: seq<bool>, m: nat)
    requires m <= |stars|
    requires forall k :: 0 <= k < |stars| ==> (stars[k] <==> k < m)
    ensures FilledCount(stars) == m
  {
    if stars != [] {
      var m' := if m == 0 then 0 else m - 1;
      FilledPrefixCount(stars[1..], m');
    }
  }

  /** A rating shows min(max(rating, 0), 5) filled stars: negative ratings
      show none and ratings above five show five. */
  lemma RenderStarsCount(rating: int)
    ensures FilledCount(RenderStars(rating)) ==
      if rating <= 0 then 0 else if rating >= StarCount then StarCount else rating
  {
    var m := if rating <= 0 then 0 else if rating >= StarCount then StarCount else rating;
    FilledPrefixCount(RenderStars(rating), m);
  }

  /** Every shipped testimonial has a full five-star rating. */
  lemma ShippedRatingsAreFive()
    ensures forall t :: t in TestimonialList ==> FilledCount(RenderStars(t.rating)) == StarCount
  {
    forall t | t in TestimonialList
      ensures FilledCount(RenderStars(t.rating)) == StarCount
    {
      RenderStarsCount(t.rating);
    }
  }

  /** The carousel's state: the index of the testimonial on display. */
  class Carousel {
    const testimonials: seq<Testimonial>
    var current: nat

    /** The index always names a testimonial. */
    ghost predicate Valid()
      reads this
    {
      current < |testimonials|
    }

    /** The carousel starts on the first testimonial. */
    constructor (testimonials: seq<Testimonial>)
      requires |testimonials| > 0
      ensures Valid()
      ensures this.testimonials == testimonials && current == 0
    {
      this.testimonials := testimonials;
      current := 0;
    }

    /** The forward arrow. */
    method Next()
      requires Valid()
      modifies this
      ensures Valid()
      ensures current == NextIndex(old(current), |testimonials|)
    {
      current := NextIndex(current, |testimonials|);
    }

    /** The back arrow. */
    method Prev()
      requires Valid()
      modifies this
      ensures Valid()
      ensures current == PrevIndex(old(current), |testimonials|)
    {
      current := PrevIndex(current, |testimonials|);
    }

    /** The periodic auto-advance: the same update as the forward arrow. */
    method Tick()
      requires Valid()
      modifies this
      ensures Valid()
      ensures current == NextIndex(old(current), |testimonials|)
    {
      current := NextIndex(current, |testimonials|);
    }

    /** A pagination dot; there is one dot per testimonial, at its index. */
    method JumpTo(index: nat)
      requires Valid()
      requires index < |testimonials|
      modifies this
      ensures Valid()
      ensures current == index
    {
      current := index;
    }

    /** The testimonial on display; the index never runs off the list. */
    method Shown() returns (t: Testimonial)
      requires Valid()
      ensures t in testimonials && t == testimonials[current]
    {
      t := testimonials[current];
    }
  }

  /** A full round of timer ticks brings the carousel back to where it was. */
  method TickRound(c: Carousel)
    requires c.Valid()
    modifies c
    ensures c.Valid()
    ensures c.current == old(c.current)
  {
    ghost var start := c.current;
    var k := 0;
    while k < |c.testimonials|
      invariant 0 <= k <= |c.testimonials|
      invariant c.Valid()
      invariant c.current == Ticks(start, |c.testimonials|, k)
    {
      c.Tick();
      k := k + 1;
    }
    TicksPeriod(start, |c.testimonials|);
  }
}

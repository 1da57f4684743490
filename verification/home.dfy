/** The landing page of `src/pages/Home.tsx`: the hero carousel's slide
    index, the wishlist heart test and the trending grid. */
module Home {

  import opened Types
  import opened Seqs
  import opened Store

  /** `HERO_SLIDES.length`. */
  const SlideCount: int := 3

  /** The trending grid shows at most this many products. */
  const TrendingCount: nat := 8

  /** JavaScript's `a % n` for `n > 0`: the remainder takes the sign of `a`. */
  function JsRem(a: int, n: int): (r: int)
    requires n > 0
    ensures a >= 0 ==> 0 <= r < n
    ensures a < 0 ==> -n < r <= 0
  {
    if a >= 0 then a % n else 0 - ((0 - a) % n)
  }

  /** `(prev + 1) % HERO_SLIDES.length`, used by the arrow and the timer. */
  function NextSlide(i: int): (r: int)
    ensures 0 <= i < SlideCount ==> 0 <= r < SlideCount
  {
    JsRem(i + 1, SlideCount)
  }

  /** `(prev - 1 + HERO_SLIDES.length) % HERO_SLIDES.length`. */
  function PrevSlide(i: int): (r: int)
    ensures 0 <= i < SlideCount ==> 0 <= r < SlideCount
  {
    JsRem(i - 1 + SlideCount, SlideCount)
  }

  /** Forward then back, or back then forward, returns to the same slide. */
  lemma PrevUndoesNext(i: int)
    requires 0 <= i < SlideCount
    ensures PrevSlide(NextSlide(i)) == i
    ensures NextSlide(PrevSlide(i)) == i
  {
  }

  /** From the last slide the next one is the first, and from the first the
      previous one is the last. */
  lemma CarouselWraps()
    ensures NextSlide(SlideCount - 1) == 0
    ensures PrevSlide(0) == SlideCount - 1
  {
  }

  /** The slide shown after `k` timer ticks from slide `i`. */
  function AfterTicks(i: int, k: nat): int
  {
    if k == 0 then i else NextSlide(AfterTicks(i, k - 1))
  }

  /** Starting from the first slide, `k` ticks show slide `k mod 3`. */
  lemma {:induction false} TicksCycle(k: nat)
    ensures AfterTicks(0, k) == k % SlideCount
  {
    if k > 0 {
      TicksCycle(k - 1);
    }
  }

  /** The slide state of the page. */
  class Carousel {
    var currentSlide: int

    predicate Valid()
      reads this
    {
      0 <= currentSlide < SlideCount
    }

    constructor ()
      ensures currentSlide == 0 && Valid()
    {
      currentSlide := 0;
    }

    /** `nextSlide`, and each tick of the five-second timer. */
    method Next()
      modifies this
      requires Valid()
      ensures Valid()
      ensures currentSlide == NextSlide(old(currentSlide))
    {
      currentSlide := (currentSlide + 1) % SlideCount;
    }

    /** `prevSlide`. */
    method Prev()
      modifies this
      requires Valid()
      ensures Valid()
      ensures currentSlide == PrevSlide(old(currentSlide))
    {
      currentSlide := (currentSlide - 1 + SlideCount) % SlideCount;
    }
  }

  /** `wishlist.some(p => p.id === id)`, scanning from the front. */
  function IsInWishlist(wishlist: seq<Product>, id: string): (r: bool)
    ensures r <==> InWishlist(wishlist, id)
  {
    if wishlist == [] then false
    else if wishlist[0].id == id then true
    else
      var r := IsInWishlist(wishlist[1..], id);
      assert r ==> InWishlist(wishlist, id) by {
        if r {
          var i :| 0 <= i < |wishlist[1..]| && wishlist[1..][i].id == id;
          assert wishlist[i + 1].id == id;
        }
      }
      assert InWishlist(wishlist, id) ==> r by {
        if InWishlist(wishlist, id) {
          var i :| 0 <= i < |wishlist| && wishlist[i].id == id;
          assert wishlist[1..][i - 1].id == id;
        }
      }
      r
  }

  /** `products.slice(0, 8)`: the first eight catalogue products, in order. */
  function Trending(products: seq<Product>): (r: seq<Product>)
    ensures |r| == Min(TrendingCount, |products|)
    ensures r <= products
  {
    Take(products, TrendingCount)
  }
}

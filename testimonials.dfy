/**
 * The testimonial carousel: an index into a fixed list of three
 * testimonials, moved by the previous/next arrows and by one dot per item.
 */
module Testimonials {
  import opened Indicators

  datatype Testimonial = Testimonial(id: int, name: string, role: string, rating: int, image: string)

  /** The testimonials, in display order (the quotes themselves are not part of this model). */
  const Items: seq<Testimonial> := [
    Testimonial(1, "Sarah & James Mitchell", "Homeowners, Austin TX", 5, "/images/testimonial-couple.jpg"),
    Testimonial(2, "Michael Chen", "Business Owner, San Diego CA", 5, "/images/project-residence.jpg"),
    Testimonial(3, "Emily Rodriguez", "Homeowner, Phoenix AZ", 5, "/images/services-home.jpg")
  ]

  /** JavaScript's `%` on integers: truncating division, so the remainder takes the dividend's sign. */
  function JsRemainder(a: int, n: int): (r: int)
    requires n > 0
    ensures a >= 0 ==> 0 <= r < n
    ensures a < 0 ==> -n < r <= 0
  {
    if a >= 0 then a % n else -((-a) % n)
  }

  /** `nextTestimonial`: (prev + 1) % testimonials.length. */
  function Next(i: int): (r: int)
    ensures -1 <= i ==> 0 <= r < |Items|
  {
    JsRemainder(i + 1, |Items|)
  }

  /** `prevTestimonial`: (prev - 1 + testimonials.length) % testimonials.length. */
  function Prev(i: int): (r: int)
    ensures 1 - |Items| <= i ==> 0 <= r < |Items|
  {
    JsRemainder(i - 1 + |Items|, |Items|)
  }

  /** Inside the list the arrows step by one; past either end they wrap to the other end. */
  lemma StepsAndWraps(i: int)
    requires 0 <= i < |Items|
    ensures Next(i) == if i == |Items| - 1 then 0 else i + 1
    ensures Prev(i) == if i == 0 then |Items| - 1 else i - 1
  {
  }

  /** The two arrows undo each other. */
  lemma NextPrevInverse(i: int)
    requires 0 <= i < |Items|
    ensures Prev(Next(i)) == i
    ensures Next(Prev(i)) == i
  {
  }

  /** Pressing "next" once per testimonial comes back to the start. */
  lemma NextCycle(i: int)
    requires 0 <= i < |Items|
    ensures Next(Next(Next(i))) == i
  {
  }

  /** The `activeIndex` state cell of the carousel. */
  class Carousel {
    var activeIndex: int

    ghost predicate Valid()
      reads this
    {
      0 <= activeIndex < |Items|
    }

    constructor ()
      ensures Valid() && activeIndex == 0
    {
      activeIndex := 0;
    }

    method NextTestimonial()
      requires Valid()
      modifies this
      ensures Valid() && activeIndex == Next(old(activeIndex))
    {
      activeIndex := JsRemainder(activeIndex + 1, |Items|);
    }

    method PrevTestimonial()
      requires Valid()
      modifies this
      ensures Valid() && activeIndex == Prev(old(activeIndex))
    {
      activeIndex := JsRemainder(activeIndex - 1 + |Items|, |Items|);
    }

    /** A dot click; the dots are generated from the list, so `idx` is a position in it. */
    method SelectDot(idx: int)
      requires 0 <= idx < |Items|
      modifies this
      ensures Valid() && activeIndex == idx
    {
      activeIndex := idx;
    }

    /** `currentTestimonial`: the lookup never leaves the list and shows the item at the index. */
    function CurrentTestimonial(): (t: Testimonial)
      reads this
      requires Valid()
      ensures t in Items && t.id == activeIndex + 1
    {
      Items[activeIndex]
    }

    /** The dot at `idx` is drawn wide and highlighted. */
    predicate DotActive(idx: int): (r: bool)
      reads this
      ensures Valid() ==> (r <==> 0 <= idx < |Items| && Items[idx] == CurrentTestimonial())
    {
      activeIndex == idx
    }

    /** Exactly one dot is highlighted. */
    function ActiveDotCount(): (c: nat)
      reads this
      requires Valid()
      ensures c == 1
      ensures exists idx :: 0 <= idx < |Items| && DotActive(idx)
      ensures forall i, j :: 0 <= i < |Items| && 0 <= j < |Items| && DotActive(i) && DotActive(j) ==> i == j
    {
      assert DotActive(activeIndex);
      MarkedCount(activeIndex, |Items|)
    }
  }
}

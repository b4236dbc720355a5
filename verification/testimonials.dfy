/**
 * The testimonial carousel: a current index and a slide direction, changed by
 * the auto-advance timer, the two arrow buttons and the dots, and the slide-in
 * and slide-out offsets chosen from the direction.
 */
module Testimonials {
  import opened Cyclic

  datatype Testimonial = Testimonial(id: nat, name: string, location: string, rating: nat)

  const Testimonials: seq<Testimonial> := [
    Testimonial(1, "Rajesh Sharma", "Mumbai", 5),
    Testimonial(2, "Dr. Priya Patel", "Bangalore", 5),
    Testimonial(3, "Amit Verma", "Delhi NCR", 5),
    Testimonial(4, "Sunita Reddy", "Hyderabad", 5)
  ]

  /** The index an arrow press moves to: forward only for exactly 1, backward for anything else. */
  function NavigateIndex(prev: nat, dir: int, n: nat): (r: nat)
    requires prev < n
    ensures r < n
    ensures dir == 1 ==> r == (prev + 1) % n
    ensures dir != 1 && prev == 0 ==> r == n - 1
    ensures dir != 1 && prev > 0 ==> r == prev - 1
  {
    if dir == 1 then NextIndex(prev, n) else PrevIndex(prev, n)
  }

  /** Pressing "next" and then "previous" comes back to the same testimonial, and so does the reverse. */
  lemma NavigateRoundTrip(i: nat, n: nat)
    requires i < n
    ensures NavigateIndex(NavigateIndex(i, 1, n), -1, n) == i
    ensures NavigateIndex(NavigateIndex(i, -1, n), 1, n) == i
  {
    PrevUndoesNext(i, n);
  }

  /** The direction a dot click records: forward only when the target lies after the current slide. */
  function DotDirection(target: nat, current: nat): (d: int)
    ensures d == 1 || d == -1
    ensures d == 1 <==> target > current
  {
    if target > current then 1 else -1
  }

  /** Horizontal offset a slide enters from. */
  function EnterOffset(direction: int): (x: int)
    ensures x == 100 || x == -100
    ensures x > 0 <==> direction > 0
  {
    if direction > 0 then 100 else -100
  }

  /** Horizontal offset a slide leaves towards. */
  function ExitOffset(direction: int): (x: int)
    ensures x == 100 || x == -100
    ensures x > 0 <==> direction < 0
  {
    if direction < 0 then 100 else -100
  }

  /**
   * For a real move the outgoing slide leaves on the side opposite the one the
   * incoming slide enters from; with the initial direction 0 both use the left.
   */
  lemma OffsetsMirror(direction: int)
    ensures direction != 0 ==> ExitOffset(direction) == -EnterOffset(direction)
    ensures direction == 0 ==> EnterOffset(direction) == ExitOffset(direction) == -100
  {
  }

  class Carousel {
    var currentIndex: nat
    var direction: int

    ghost predicate Valid()
      reads this
    {
      currentIndex < |Testimonials|
    }

    /** The testimonial on display: dot `k` shows the testimonial with id `k + 1`. */
    function Current(): (t: Testimonial)
      reads this
      requires Valid()
      ensures t in Testimonials && t.id == currentIndex + 1
    {
      Testimonials[currentIndex]
    }

    constructor ()
      ensures Valid() && currentIndex == 0 && direction == 0
    {
      currentIndex, direction := 0, 0;
    }

    /** One auto-advance tick: the same move as the "next" arrow. */
    method Tick()
      requires Valid()
      modifies this
      ensures Valid()
      ensures direction == 1
      ensures currentIndex == NavigateIndex(old(currentIndex), 1, |Testimonials|)
    {
      direction := 1;
      currentIndex := (currentIndex + 1) % |Testimonials|;
    }

    /** An arrow press: the "next" arrow passes 1, the "previous" arrow -1. */
    method Navigate(dir: int)
      requires Valid()
      modifies this
      ensures Valid()
      ensures direction == dir
      ensures currentIndex == NavigateIndex(old(currentIndex), dir, |Testimonials|)
    {
      direction := dir;
      if dir == 1 {
        currentIndex := (currentIndex + 1) % |Testimonials|;
      } else {
        currentIndex := if currentIndex == 0 then |Testimonials| - 1 else currentIndex - 1;
      }
    }

    /** A click on the dot of testimonial `index`; one dot is rendered per testimonial. */
    method SelectDot(index: nat)
      requires Valid() && index < |Testimonials|
      modifies this
      ensures Valid()
      ensures direction == DotDirection(index, old(currentIndex))
      ensures currentIndex == index
    {
      direction := if index > currentIndex then 1 else -1;
      currentIndex := index;
    }
  }
}

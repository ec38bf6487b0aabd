/**
 * The property image carousel: the index of the image shown, moved by the previous and next
 * buttons with wrap-around, and what is rendered for a given image list.
 */
module PropertyCarousel {
  import opened Wrappers
  import Text

  /** The `prev` updater: one step back, from the first image to the last. */
  function PrevIndex(c: nat, count: nat): (r: nat)
    requires count >= 1
    ensures c < count ==> r < count
    ensures c == 0 ==> r == count - 1
    ensures c > 0 ==> r + 1 == c
  {
    if c == 0 then count - 1 else c - 1
  }

  /** The `next` updater: one step forward, from the last image to the first. */
  function NextIndex(c: nat, count: nat): (r: nat)
    requires count >= 1
    ensures c < count ==> r < count
    ensures c == count - 1 ==> r == 0
    ensures c != count - 1 ==> r == c + 1
  {
    if c == count - 1 then 0 else c + 1
  }

  /** Inside the range the two updaters undo each other. */
  lemma PrevNextInverse(c: nat, count: nat)
    requires count >= 1 && c < count
    ensures PrevIndex(NextIndex(c, count), count) == c
    ensures NextIndex(PrevIndex(c, count), count) == c
  {
  }

  /** On the index, `prev` and `next` are subtraction and addition modulo the number of images. */
  lemma StepsAreModular(c: nat, count: nat)
    requires count >= 1 && c < count
    ensures NextIndex(c, count) == (c + 1) % count
    ensures PrevIndex(c, count) == (c + count - 1) % count
  {
  }

  datatype Move = Prev | Next

  function Step(c: nat, count: nat, m: Move): (r: nat)
    requires count >= 1
    ensures c < count ==> r < count
  {
    match m
    case Prev => PrevIndex(c, count)
    case Next => NextIndex(c, count)
  }

  /** The index after a run of clicks. */
  function Run(c: nat, count: nat, moves: seq<Move>): (r: nat)
    requires count >= 1
    decreases |moves|
  {
    if moves == [] then c else Run(Step(c, count, moves[0]), count, moves[1..])
  }

  /** Starting in range, no run of clicks leaves the range. */
  lemma {:induction false} RunStaysInRange(c: nat, count: nat, moves: seq<Move>)
    requires count >= 1 && c < count
    ensures Run(c, count, moves) < count
    decreases |moves|
  {
    if moves != [] {
      RunStaysInRange(Step(c, count, moves[0]), count, moves[1..]);
    }
  }

  // ---------------------------------------------------------------- rendering

  /** What the carousel shows: nothing, or one image with its alt text, the arrows and the dots. */
  datatype View =
    | Nothing
    | Shown(src: string, alt: string, arrows: bool, dots: seq<bool>)

  /** The alt text: the given one when it is non-empty, otherwise "Property image " and the one-based position. */
  function AltText(alt: Option<string>, current: nat): string
  {
    if alt.Some? && alt.value != "" then alt.value else "Property image " + Text.DecimalString(current + 1)
  }

  function Dots(count: nat, current: nat): (r: seq<bool>)
    ensures |r| == count
    ensures forall i :: 0 <= i < count ==> (r[i] <==> i == current)
  {
    seq(count, i => i == current)
  }

  /** No images: nothing; otherwise the current image, with arrows and one dot per image only when there are several. */
  function Render(images: seq<string>, alt: Option<string>, current: nat): (r: View)
    requires images != [] ==> current < |images|
    ensures images == [] <==> r == Nothing
    ensures r.Shown? ==> r.src == images[current] && r.alt == AltText(alt, current)
    ensures r.Shown? ==> (r.arrows <==> |images| > 1)
    ensures r.Shown? && |images| > 1 ==> |r.dots| == |images| && forall i :: 0 <= i < |images| ==> (r.dots[i] <==> i == current)
    ensures r.Shown? && |images| <= 1 ==> r.dots == []
  {
    if images == [] then Nothing
    else Shown(images[current], AltText(alt, current), |images| > 1, if |images| > 1 then Dots(|images|, current) else [])
  }

  /** The default alt text names the image's one-based position, which reads back as a number. */
  lemma AltTextNamesPosition(current: nat)
    ensures AltText(None, current) == "Property image " + Text.DecimalString(current + 1)
    ensures Text.ParseDecimal(AltText(None, current)[|"Property image "|..]) == Some(current + 1)
  {
    var a := AltText(None, current);
    assert a[|"Property image "|..] == Text.DecimalString(current + 1);
    Text.DecimalRoundTrip(current + 1);
  }

  /** The carousel component: the image list it was given and the index of the image shown. */
  class Carousel {
    const images: seq<string>
    var current: nat

    ghost predicate Valid()
      reads this
    {
      images != [] ==> current < |images|
    }

    constructor(images: seq<string>)
      ensures this.images == images && current == 0 && Valid()
    {
      this.images := images;
      current := 0;
    }

    function View(alt: Option<string>): View
      requires Valid()
      reads this
    {
      Render(images, alt, current)
    }

    /** The left arrow. */
    method Prev()
      requires Valid() && images != []
      modifies this
      ensures Valid()
      ensures current == PrevIndex(old(current), |images|)
    {
      current := if current == 0 then |images| - 1 else current - 1;
    }

    /** The right arrow. */
    method Next()
      requires Valid() && images != []
      modifies this
      ensures Valid()
      ensures current == NextIndex(old(current), |images|)
    {
      current := if current == |images| - 1 then 0 else current + 1;
    }
  }
}

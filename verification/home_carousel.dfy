/**
 * The home page's hero banner: a carousel index that starts at the first
 * image, steps to the next one on every tick and wraps from the last image
 * to the first, and the layer of each image, opaque only for the current one.
 */
module HomeCarousel {

  /** The tick's updater: the last index goes back to 0, any other index moves on by one. */
  function NextIndex(i: int, count: nat): (r: int)
    ensures i == count - 1 ==> r == 0
    ensures i != count - 1 ==> r == i + 1
  {
    if i == count - 1 then 0 else i + 1
  }

  /** From an index in range, a step stays in range. */
  lemma NextIndexInRange(i: int, count: nat)
    requires 0 <= i < count
    ensures 0 <= NextIndex(i, count) < count
  {
  }

  /** `k` ticks from index `i`. */
  function Steps(i: int, count: nat, k: nat): int
    decreases k
  {
    if k == 0 then i else NextIndex(Steps(i, count, k - 1), count)
  }

  /** Ticks compose: `a` ticks then `b` ticks is `a + b` ticks. */
  lemma {:induction false} StepsCompose(i: int, count: nat, a: nat, b: nat)
    ensures Steps(Steps(i, count, a), count, b) == Steps(i, count, a + b)
    decreases b
  {
    if b > 0 {
      StepsCompose(i, count, a, b - 1);
    }
  }

  /** Before reaching the last image the index just counts up, and one more tick wraps it to 0. */
  lemma {:induction false} StepsCountUp(i: int, count: nat, k: nat)
    requires 0 <= i && i + k < count
    ensures Steps(i, count, k) == i + k
    ensures i + k == count - 1 ==> Steps(i, count, k + 1) == 0
    decreases k
  {
    if k > 0 {
      StepsCountUp(i, count, k - 1);
    }
  }

  /** After as many ticks as there are images the carousel is back where it started. */
  lemma FullCycle(i: int, count: nat)
    requires 0 <= i < count
    ensures Steps(i, count, count) == i
  {
    StepsCountUp(i, count, count - 1 - i);
    StepsCompose(i, count, count - i, i);
    if i > 0 {
      StepsCountUp(0, count, i);
    }
  }

  /** Every tick from an index in range stays in range. */
  lemma {:induction false} StepsInRange(i: int, count: nat, k: nat)
    requires 0 <= i < count
    ensures 0 <= Steps(i, count, k) < count
    decreases k
  {
    if k > 0 {
      StepsInRange(i, count, k - 1);
      NextIndexInRange(Steps(i, count, k - 1), count);
    }
  }

  /** The opacity of each layer: opaque exactly at the current index. */
  function OpaqueLayers(current: int, count: nat): (r: seq<bool>)
    ensures |r| == count
    ensures forall j :: 0 <= j < count ==> (r[j] <==> j == current)
  {
    seq(count, j requires 0 <= j < count => j == current)
  }

  function CountOpaque(layers: seq<bool>): nat {
    if layers == [] then 0 else (if layers[0] then 1 else 0) + CountOpaque(layers[1..])
  }

  /** While the index is in range exactly one image is visible, and none once it is outside. */
  lemma {:induction false} ExactlyOneOpaque(current: int, count: nat)
    ensures CountOpaque(OpaqueLayers(current, count)) == if 0 <= current < count then 1 else 0
    decreases count
  {
    var layers := OpaqueLayers(current, count);
    if count > 0 {
      var front := OpaqueLayers(current, count - 1);
      assert layers == front + [count - 1 == current];
      CountOpaqueSnoc(front, count - 1 == current);
      ExactlyOneOpaque(current, count - 1);
    }
  }

  lemma {:induction false} CountOpaqueSnoc(layers: seq<bool>, b: bool)
    ensures CountOpaque(layers + [b]) == CountOpaque(layers) + (if b then 1 else 0)
    decreases |layers|
  {
    if layers != [] {
      assert (layers + [b])[1..] == layers[1..] + [b];
      CountOpaqueSnoc(layers[1..], b);
    } else {
      assert layers + [b] == [b];
    }
  }

  class Carousel {
    const images: seq<string>
    var currentImageIndex: int

    /** The index always names one of the images. */
    predicate Valid()
      reads this
    {
      0 <= currentImageIndex < |images|
    }

    constructor (images: seq<string>)
      requires images != []
      ensures this.images == images && currentImageIndex == 0 && Valid()
    {
      this.images := images;
      currentImageIndex := 0;
    }

    /** One firing of the interval. */
    method Tick()
      requires Valid()
      modifies this
      ensures Valid()
      ensures currentImageIndex == NextIndex(old(currentImageIndex), |images|)
    {
      NextIndexInRange(currentImageIndex, |images|);
      currentImageIndex := NextIndex(currentImageIndex, |images|);
    }

    /** The background layers: one per image, exactly one opaque. */
    function Layers(): (r: seq<bool>)
      requires Valid()
      reads this
      ensures |r| == |images| && r[currentImageIndex]
      ensures CountOpaque(r) == 1
    {
      ExactlyOneOpaque(currentImageIndex, |images|);
      OpaqueLayers(currentImageIndex, |images|)
    }
  }

  /** The page's two banners: after two ticks the first is showing again. */
  method TwoBannersAlternate() returns (first: int, second: int, third: int)
    ensures first == 0 && second == 1 && third == 0
  {
    var carousel := new Carousel(["banner1", "banner3"]);
    first := carousel.currentImageIndex;
    carousel.Tick();
    second := carousel.currentImageIndex;
    carousel.Tick();
    third := carousel.currentImageIndex;
  }
}

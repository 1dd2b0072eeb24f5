/**
 * The home page's featured services: a first row of up to three cards, a
 * second row of up to two more when there are more than three services,
 * and each card's image address and animation delay.
 */
module FeaturedServices {
  import opened Wrappers
  import opened Text
  import opened Types

  const FIRST_ROW: nat := 3
  const SHOWN_AT_MOST: nat := 5
  const IMAGE_PREFIX: string := "backend/"
  const DELAY_STEP_MS: nat := 100

  function Min(a: nat, b: nat): nat {
    if a < b then a else b
  }

  /** `services.slice(0, 3)`. */
  function FirstRow(services: seq<Service>): (r: seq<Service>)
    ensures |r| == Min(FIRST_ROW, |services|) && r == services[..|r|]
  {
    services[..Min(FIRST_ROW, |services|)]
  }

  /** The second row exists only for more than three services and holds `services.slice(3, 5)`. */
  function SecondRow(services: seq<Service>): (r: Option<seq<Service>>)
    ensures r.Some? <==> |services| > FIRST_ROW
    ensures r.Some? ==> 1 <= |r.value| <= SHOWN_AT_MOST - FIRST_ROW && FIRST_ROW + |r.value| <= |services|
                        && r.value == services[FIRST_ROW..FIRST_ROW + |r.value|]
  {
    if |services| > FIRST_ROW then Some(services[FIRST_ROW..Min(SHOWN_AT_MOST, |services|)]) else None
  }

  /**
   * Together the rows show the first five services (all of them when there
   * are fewer), each once and in order.
   */
  lemma RowsShowFirstFive(services: seq<Service>)
    ensures FirstRow(services) + SecondRow(services).GetOr([]) == services[..Min(SHOWN_AT_MOST, |services|)]
  {
  }

  /** The card's image: the stored path with every backslash turned into a slash, under `backend/`. */
  function ImageSrc(imageUrl: string): (r: string)
    ensures StartsWith(r, IMAGE_PREFIX) && '\\' !in r
    ensures |r| == |IMAGE_PREFIX| + |imageUrl|
    ensures forall i :: 0 <= i < |imageUrl| ==>
              r[|IMAGE_PREFIX| + i] == (if imageUrl[i] == '\\' then '/' else imageUrl[i])
  {
    var tail := ReplaceChar(imageUrl, '\\', '/');
    ReplaceCharRemoves(imageUrl, '\\', '/');
    var r := IMAGE_PREFIX + tail;
    assert r[..|IMAGE_PREFIX|] == IMAGE_PREFIX;
    r
  }

  /** One `ServiceHoverCard`: the service, its index, the animation delay the index gives, and the image. */
  datatype Card = Card(service: Service, index: nat, delayMs: nat, imageSrc: string)

  function CardAt(service: Service, index: nat): Card {
    Card(service, index, index * DELAY_STEP_MS, ImageSrc(service.imageUrl))
  }

  /** The cards of both rows; the second row's indexes continue from three. */
  function Cards(services: seq<Service>): (r: (seq<Card>, seq<Card>))
    ensures |r.0| == |FirstRow(services)|
    ensures forall i :: 0 <= i < |r.0| ==> r.0[i] == CardAt(services[i], i)
    ensures |r.1| == |SecondRow(services).GetOr([])|
    ensures forall j :: 0 <= j < |r.1| ==> r.1[j] == CardAt(services[FIRST_ROW + j], FIRST_ROW + j)
  {
    var first := FirstRow(services);
    var second := SecondRow(services).GetOr([]);
    (seq(|first|, i requires 0 <= i < |first| => CardAt(first[i], i)),
     seq(|second|, j requires 0 <= j < |second| => CardAt(second[j], j + FIRST_ROW)))
  }

  /**
   * Read row after row, the cards number the first five services 0, 1, 2, …
   * without gap or repeat, so their animation delays rise by 100 ms per card.
   */
  lemma CardsNumberedInOrder(services: seq<Service>)
    ensures var (first, second) := Cards(services);
            var all := first + second;
            |all| == Min(SHOWN_AT_MOST, |services|)
            && forall k :: 0 <= k < |all| ==> all[k].service == services[k] && all[k].index == k
                                              && all[k].delayMs == k * DELAY_STEP_MS
  {
    RowsShowFirstFive(services);
  }
}

/**
 * The public gallery: a timeline of works, each shown by its first after
 * photo with quotes stripped and placed left or right by position, and a
 * before/after modal with fallback images.
 */
module GalleryPage {
  import opened Wrappers
  import opened Text
  import Api

  const LOAD_FAILURE: string := "Failed to load gallery."
  const EMPTY_GALLERY: string := "Our gallery is currently empty. Please check back soon."
  const FALLBACK_BEFORE: string := "/fallback-before.jpg"
  const FALLBACK_AFTER: string := "/fallback-after.jpg"
  const QUOTES: set<char> := {'\'', '"'}

  /** A work as the page reads it. */
  datatype GalleryWork = GalleryWork(
    id: string,
    serviceType: string,
    description: string,
    beforePhotos: seq<string>,
    afterPhotos: seq<string>)

  /** `replace(/['"]+/g, '')`: every single and double quote removed, every other character kept in order. */
  function StripQuotes(url: string): (r: string)
    ensures '\'' !in r && '"' !in r
    ensures forall c | c !in QUOTES :: multiset(r)[c] == multiset(url)[c]
  {
    Without(url, QUOTES)
  }

  /**
   * Stripping works one character at a time: a quote becomes nothing, any
   * other character stays, and the pieces of a path stay in their order.
   */
  lemma {:induction false} StripQuotesInOrder(a: string, b: string)
    ensures StripQuotes(a + b) == StripQuotes(a) + StripQuotes(b)
    ensures forall c :: StripQuotes([c]) == if c in QUOTES then [] else [c]
  {
    WithoutConcat(a, b, QUOTES);
  }

  /** Stripping is idempotent, and leaves a path without quotes as it is. */
  lemma StripQuotesNoop(url: string)
    ensures '\'' !in url && '"' !in url ==> StripQuotes(url) == url
    ensures StripQuotes(StripQuotes(url)) == StripQuotes(url)
  {
    if '\'' !in url && '"' !in url {
      WithoutNoop(url, QUOTES);
    }
    var once := StripQuotes(url);
    WithoutNoop(once, QUOTES);
  }

  /**
   * The timeline image of a work, as `TimelineEntry` computes it: the first
   * after photo, cleaned when it is a non-empty string; nothing when there
   * is no after photo.
   */
  method TimelineImage(work: GalleryWork) returns (imageUrl: Option<string>)
    ensures work.afterPhotos == [] <==> imageUrl.None?
    ensures imageUrl.Some? ==> imageUrl.value == StripQuotes(work.afterPhotos[0])
  {
    imageUrl := if work.afterPhotos == [] then None else Some(work.afterPhotos[0]);
    if imageUrl.Some? && imageUrl.value != [] {
      imageUrl := Some(StripQuotes(imageUrl.value));
    }
  }

  datatype Align = Left | Right

  /**
   * Entry `index` sits on the left exactly when its index is even. The
   * services page writes the same parity test for its rows in its own file,
   * so each page keeps its own copy.
   */
  function AlignAt(index: nat): (a: Align)
    ensures a == Left <==> index % 2 == 0
  {
    if index % 2 == 0 then Left else Right
  }

  /** Neighbouring timeline entries take opposite sides, and entries two apart the same side. */
  lemma AlignsAlternate(index: nat)
    ensures AlignAt(index + 1) != AlignAt(index)
    ensures AlignAt(index + 2) == AlignAt(index)
  {
  }

  /** A photo path with every backslash made a slash, or the fallback when the list is empty. */
  function FirstOrFallback(photos: seq<string>, fallback: string): (r: string)
    ensures photos == [] ==> r == fallback
    ensures photos != [] ==> |r| == |photos[0]| && '\\' !in r
    ensures photos != [] ==> forall i :: 0 <= i < |r| ==> r[i] == (if photos[0][i] == '\\' then '/' else photos[0][i])
  {
    if photos == [] then fallback
    else
      ReplaceCharRemoves(photos[0], '\\', '/');
      ReplaceChar(photos[0], '\\', '/')
  }

  /** The two sides of the comparison slider. */
  function BeforeImage(work: GalleryWork): string {
    FirstOrFallback(work.beforePhotos, FALLBACK_BEFORE)
  }

  function AfterImage(work: GalleryWork): string {
    FirstOrFallback(work.afterPhotos, FALLBACK_AFTER)
  }

  /** Neither side of the slider ever holds a backslash: the fallbacks hold none either. */
  lemma ModalImagesUseSlashes(work: GalleryWork)
    ensures '\\' !in BeforeImage(work) && '\\' !in AfterImage(work)
    ensures work.beforePhotos == [] ==> BeforeImage(work) == FALLBACK_BEFORE
    ensures work.afterPhotos == [] ==> AfterImage(work) == FALLBACK_AFTER
  {
    assert forall i :: 0 <= i < |FALLBACK_BEFORE| ==> FALLBACK_BEFORE[i] != '\\';
    assert forall i :: 0 <= i < |FALLBACK_AFTER| ==> FALLBACK_AFTER[i] != '\\';
  }

  /** The before/after modal of the selected work. */
  datatype Modal = Modal(title: string, description: string, beforeImage: string, afterImage: string)

  function ModalOf(work: GalleryWork): Modal {
    Modal(work.serviceType, work.description, BeforeImage(work), AfterImage(work))
  }

  /**
   * What the page shows: the spinner, the error line, or the gallery, which
   * is either the empty message or the timeline, plus the modal when a work
   * is selected.
   */
  datatype View =
    | Spinner
    | ErrorLine(message: string)
    | Gallery(emptyMessage: Option<string>, works: seq<GalleryWork>, aligns: seq<Align>, modal: Option<Modal>)

  class GalleryPage {
    var works: seq<GalleryWork>
    var loading: bool
    var error: Option<string>
    var selectedWork: Option<GalleryWork>

    constructor ()
      ensures works == [] && loading && error == None && selectedWork == None
    {
      works, loading, error, selectedWork := [], true, None, None;
    }

    /** The fetch effect: the works on success, the message (or the fixed text) on failure. */
    method FetchWorks(outcome: Result<seq<GalleryWork>, Api.ApiError>)
      modifies this
      ensures !loading && selectedWork == old(selectedWork)
      ensures outcome.Ok? ==> works == outcome.value && error == old(error)
      ensures outcome.Err? ==> works == old(works) && error == Some(Api.MessageOr(outcome.error, LOAD_FAILURE))
    {
      loading := true;
      match outcome {
        case Ok(data) => works := data;
        case Err(e) => error := Some(Api.MessageOr(e, LOAD_FAILURE));
      }
      loading := false;
    }

    /** Clicking an entry opens its modal; the backdrop and the close button shut it. */
    method Open(work: GalleryWork)
      modifies this
      ensures selectedWork == Some(work)
      ensures works == old(works) && loading == old(loading) && error == old(error)
    {
      selectedWork := Some(work);
    }

    method Close()
      modifies this
      ensures selectedWork == None
      ensures works == old(works) && loading == old(loading) && error == old(error)
    {
      selectedWork := None;
    }

    /**
     * The spinner while loading, then a non-empty error, else the gallery:
     * the empty message when there are no works, otherwise the timeline with
     * alternating alignment; the modal whenever a work is selected.
     */
    function Render(): (v: View)
      reads this
      ensures v.Spinner? <==> loading
      ensures v.ErrorLine? <==> !loading && error.Some? && error.value != []
      ensures v.ErrorLine? ==> v.message == error.value
      ensures v.Gallery? ==>
                (v.emptyMessage.Some? <==> works == [])
                && (v.emptyMessage.Some? ==> v.emptyMessage.value == EMPTY_GALLERY && v.works == [])
                && (v.emptyMessage.None? ==> v.works == works)
                && |v.aligns| == |v.works|
                && (forall i :: 0 <= i < |v.works| ==> v.aligns[i] == AlignAt(i))
                && (v.modal.Some? <==> selectedWork.Some?)
                && (v.modal.Some? ==> v.modal.value == ModalOf(selectedWork.value))
    {
      if loading then Spinner
      else if error.Some? && error.value != [] then ErrorLine(error.value)
      else
        var n := |works|;
        Gallery(if works == [] then Some(EMPTY_GALLERY) else None,
                works, seq(n, i requires 0 <= i < n => AlignAt(i)),
                match selectedWork
                case None => None
                case Some(w) => Some(ModalOf(w)))
    }
  }

  /** Opening a loaded work shows its slider images, each free of backslashes. */
  method OpenLoadedWork(outcome: Result<seq<GalleryWork>, Api.ApiError>, i: nat) returns (v: View)
    requires outcome.Ok? && i < |outcome.value|
    ensures v.Gallery? && v.modal.Some?
    ensures '\\' !in v.modal.value.beforeImage && '\\' !in v.modal.value.afterImage
  {
    var page := new GalleryPage();
    page.FetchWorks(outcome);
    page.Open(outcome.value[i]);
    v := page.Render();
    ModalImagesUseSlashes(outcome.value[i]);
  }
}

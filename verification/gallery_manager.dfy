/**
 * The gallery tab of the admin dashboard: the add-work form with its
 * before and after photos, the multipart body it sends, and the list with
 * its error line.
 */
module GalleryManager {
  import opened Wrappers
  import opened Types
  import opened FormData
  import Api

  const FETCH_FAILURE: string := "Failed to fetch gallery items."
  const CREATE_FAILURE: string := "Failed to create gallery item."
  const DELETE_FAILURE: string := "Failed to delete item."
  const INCOMPLETE_FORM: string := "Please fill all fields and select both before and after photos."

  /** The form is complete: both texts non-empty (untrimmed) and at least one photo of each kind. */
  predicate Complete(serviceType: string, description: string, before: seq<File>, after: seq<File>) {
    serviceType != [] && description != [] && |before| > 0 && |after| > 0
  }

  /** The multipart body of a new work, in append order. */
  function WorkFormData(serviceType: string, description: string, before: seq<File>, after: seq<File>): seq<Entry> {
    [Entry("serviceType", Text(serviceType)), Entry("description", Text(description))]
    + FileEntries("beforePhotos", before) + FileEntries("afterPhotos", after)
  }

  /**
   * The body's layout: the service type, the description, one
   * `beforePhotos` entry per before photo in order, then one `afterPhotos`
   * entry per after photo in order.
   */
  lemma WorkFormLayout(serviceType: string, description: string, before: seq<File>, after: seq<File>)
    ensures var fd := WorkFormData(serviceType, description, before, after);
            |fd| == 2 + |before| + |after|
            && fd[0] == Entry("serviceType", Text(serviceType))
            && fd[1] == Entry("description", Text(description))
            && (forall i :: 0 <= i < |before| ==> fd[2 + i] == Entry("beforePhotos", Blob(before[i])))
            && (forall j :: 0 <= j < |after| ==> fd[2 + |before| + j] == Entry("afterPhotos", Blob(after[j])))
  {
  }

  datatype TextField = ServiceType | Description

  class GalleryManager {
    var items: seq<GalleryItem>
    var isLoading: bool
    var error: string
    var isFormVisible: bool
    var serviceType: string
    var description: string
    var beforeFiles: seq<File>
    var afterFiles: seq<File>
    var isSubmitting: bool

    constructor ()
      ensures items == [] && isLoading && error == [] && !isFormVisible
      ensures serviceType == [] && description == [] && beforeFiles == [] && afterFiles == [] && !isSubmitting
    {
      items, isLoading, error, isFormVisible := [], true, [], false;
      serviceType, description, beforeFiles, afterFiles, isSubmitting := [], [], [], [], false;
    }

    /** `fetchItems`: the error is cleared first; the list on success, the message otherwise. */
    method FetchItems(outcome: Result<seq<GalleryItem>, Api.ApiError>)
      modifies this
      ensures !isLoading
      ensures outcome.Ok? ==> items == outcome.value && error == []
      ensures outcome.Err? ==> items == old(items) && error == Api.MessageOr(outcome.error, FETCH_FAILURE)
      ensures isFormVisible == old(isFormVisible) && isSubmitting == old(isSubmitting)
      ensures serviceType == old(serviceType) && description == old(description)
      ensures beforeFiles == old(beforeFiles) && afterFiles == old(afterFiles)
    {
      isLoading := true;
      error := [];
      match outcome {
        case Ok(data) => items := data;
        case Err(e) => error := Api.MessageOr(e, FETCH_FAILURE);
      }
      isLoading := false;
    }

    /** `resetForm`: both texts and both photo lists emptied, the form hidden, no submission running. */
    method ResetForm()
      modifies this
      ensures serviceType == [] && description == [] && beforeFiles == [] && afterFiles == []
      ensures !isFormVisible && !isSubmitting
      ensures items == old(items) && isLoading == old(isLoading) && error == old(error)
    {
      serviceType := [];
      description := [];
      beforeFiles := [];
      afterFiles := [];
      isFormVisible := false;
      isSubmitting := false;
    }

    /** The Add/Cancel button. */
    method ToggleForm()
      modifies this
      ensures isFormVisible == !old(isFormVisible)
      ensures items == old(items) && isLoading == old(isLoading) && error == old(error) && isSubmitting == old(isSubmitting)
      ensures serviceType == old(serviceType) && description == old(description)
      ensures beforeFiles == old(beforeFiles) && afterFiles == old(afterFiles)
    {
      isFormVisible := !isFormVisible;
    }

    method Type(field: TextField, value: string)
      modifies this
      ensures field == ServiceType ==> serviceType == value && description == old(description)
      ensures field == Description ==> description == value && serviceType == old(serviceType)
      ensures beforeFiles == old(beforeFiles) && afterFiles == old(afterFiles)
      ensures items == old(items) && isLoading == old(isLoading) && error == old(error)
      ensures isFormVisible == old(isFormVisible) && isSubmitting == old(isSubmitting)
    {
      match field {
        case ServiceType => serviceType := value;
        case Description => description := value;
      }
    }

    /** Choosing the photos of one kind replaces that kind's list. */
    method ChoosePhotos(before: bool, files: seq<File>)
      modifies this
      ensures before ==> beforeFiles == files && afterFiles == old(afterFiles)
      ensures !before ==> afterFiles == files && beforeFiles == old(beforeFiles)
      ensures serviceType == old(serviceType) && description == old(description)
      ensures items == old(items) && isLoading == old(isLoading) && error == old(error)
      ensures isFormVisible == old(isFormVisible) && isSubmitting == old(isSubmitting)
    {
      if before {
        beforeFiles := files;
      } else {
        afterFiles := files;
      }
    }

    /**
     * `handleSubmit`, given how the create and the refetch came out. An
     * incomplete form is refused without a request. Otherwise the work is
     * sent; success resets the form and refetches, failure keeps the form
     * and shows the message. No submission is running afterwards.
     */
    method HandleSubmit(outcome: Result<Api.Json, Api.ApiError>, refetch: Result<seq<GalleryItem>, Api.ApiError>)
      returns (request: Option<Api.Call>)
      modifies this
      ensures !Complete(old(serviceType), old(description), old(beforeFiles), old(afterFiles)) ==>
                request == None && error == INCOMPLETE_FORM && items == old(items) && isLoading == old(isLoading)
                && serviceType == old(serviceType) && description == old(description)
                && beforeFiles == old(beforeFiles) && afterFiles == old(afterFiles)
                && isFormVisible == old(isFormVisible) && isSubmitting == old(isSubmitting)
      ensures Complete(old(serviceType), old(description), old(beforeFiles), old(afterFiles)) ==>
                request == Some(Api.CallFor(Api.CreateGalleryItem(
                                  WorkFormData(old(serviceType), old(description), old(beforeFiles), old(afterFiles)))))
                && !isSubmitting
      ensures Complete(old(serviceType), old(description), old(beforeFiles), old(afterFiles)) && outcome.Ok? ==>
                serviceType == [] && description == [] && beforeFiles == [] && afterFiles == []
                && !isFormVisible && !isLoading
      ensures Complete(old(serviceType), old(description), old(beforeFiles), old(afterFiles)) && outcome.Ok? && refetch.Ok? ==>
                items == refetch.value && error == []
      ensures Complete(old(serviceType), old(description), old(beforeFiles), old(afterFiles)) && outcome.Ok? && refetch.Err? ==>
                items == old(items) && error == Api.MessageOr(refetch.error, FETCH_FAILURE)
      ensures Complete(old(serviceType), old(description), old(beforeFiles), old(afterFiles)) && outcome.Err? ==>
                error == Api.MessageOr(outcome.error, CREATE_FAILURE) && items == old(items) && isLoading == old(isLoading)
                && serviceType == old(serviceType) && description == old(description)
                && beforeFiles == old(beforeFiles) && afterFiles == old(afterFiles) && isFormVisible == old(isFormVisible)
    {
      if serviceType == [] || description == [] || |beforeFiles| == 0 || |afterFiles| == 0 {
        error := INCOMPLETE_FORM;
        request := None;
        return;
      }
      isSubmitting := true;
      error := [];
      var fd := [Entry("serviceType", Text(serviceType)), Entry("description", Text(description))];
      fd := AppendFiles(fd, "beforePhotos", beforeFiles);
      fd := AppendFiles(fd, "afterPhotos", afterFiles);
      request := Some(Api.CallFor(Api.CreateGalleryItem(fd)));
      match outcome {
        case Ok(_) =>
          ResetForm();
          FetchItems(refetch);
        case Err(e) =>
          error := Api.MessageOr(e, CREATE_FAILURE);
      }
      isSubmitting := false;
    }

    /**
     * `handleDelete`: nothing without confirmation; the error is cleared
     * before the request, success refetches, failure shows the message.
     */
    method HandleDelete(id: string, confirmed: bool, outcome: Result<bool, Api.ApiError>,
                        refetch: Result<seq<GalleryItem>, Api.ApiError>)
      returns (request: Option<Api.Call>)
      modifies this
      ensures !confirmed ==> request == None && items == old(items) && error == old(error) && isLoading == old(isLoading)
      ensures confirmed ==> request == Some(Api.CallFor(Api.DeleteGalleryItem(id)))
      ensures confirmed && outcome.Ok? ==> !isLoading
      ensures confirmed && outcome.Ok? && refetch.Ok? ==> items == refetch.value && error == []
      ensures confirmed && outcome.Ok? && refetch.Err? ==>
                items == old(items) && error == Api.MessageOr(refetch.error, FETCH_FAILURE)
      ensures confirmed && outcome.Err? ==>
                items == old(items) && isLoading == old(isLoading) && error == Api.MessageOr(outcome.error, DELETE_FAILURE)
      ensures serviceType == old(serviceType) && description == old(description)
      ensures beforeFiles == old(beforeFiles) && afterFiles == old(afterFiles)
      ensures isFormVisible == old(isFormVisible) && isSubmitting == old(isSubmitting)
    {
      request := None;
      if confirmed {
        error := [];
        request := Some(Api.CallFor(Api.DeleteGalleryItem(id)));
        match outcome {
          case Ok(_) => FetchItems(refetch);
          case Err(e) => error := Api.MessageOr(e, DELETE_FAILURE);
        }
      }
    }
  }
}

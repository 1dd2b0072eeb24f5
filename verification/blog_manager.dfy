/**
 * The blog tab of the admin dashboard: the new-post form with its cover
 * image, the multipart body it sends, and the list with its error line.
 */
module BlogManager {
  import opened Wrappers
  import opened Types
  import opened FormData
  import Api

  const FETCH_FAILURE: string := "Failed to fetch posts."
  const CREATE_FAILURE: string := "Failed to create post."
  const DELETE_FAILURE: string := "Failed to delete post."
  const INCOMPLETE_FORM: string := "Please fill all fields and select an image."

  /** The form can be sent: a non-empty (untrimmed) title and content, and a chosen image. */
  predicate Complete(title: string, content: string, image: Option<File>) {
    title != [] && content != [] && image.Some?
  }

  /** The multipart body of a new post. */
  function PostFormData(title: string, content: string, image: File): (fd: seq<Entry>)
    ensures Keys(fd) == ["title", "content", "image"]
    ensures fd[0].value == Text(title) && fd[1].value == Text(content) && fd[2].value == Blob(image)
  {
    [Entry("title", Text(title)), Entry("content", Text(content)), Entry("image", Blob(image))]
  }

  datatype TextField = Title | Content

  class BlogManager {
    var posts: seq<BlogPost>
    var isLoading: bool
    var error: string
    var isFormVisible: bool
    var title: string
    var content: string
    var imageFile: Option<File>
    var isSubmitting: bool

    constructor ()
      ensures posts == [] && isLoading && error == [] && !isFormVisible
      ensures title == [] && content == [] && imageFile == None && !isSubmitting
    {
      posts, isLoading, error, isFormVisible := [], true, [], false;
      title, content, imageFile, isSubmitting := [], [], None, false;
    }

    /** `fetchPosts`: the error is cleared first; the list on success, the message otherwise. */
    method FetchPosts(outcome: Result<seq<BlogPost>, Api.ApiError>)
      modifies this
      ensures !isLoading
      ensures outcome.Ok? ==> posts == outcome.value && error == []
      ensures outcome.Err? ==> posts == old(posts) && error == Api.MessageOr(outcome.error, FETCH_FAILURE)
      ensures isFormVisible == old(isFormVisible) && isSubmitting == old(isSubmitting)
      ensures title == old(title) && content == old(content) && imageFile == old(imageFile)
    {
      isLoading := true;
      error := [];
      match outcome {
        case Ok(data) => posts := data;
        case Err(e) => error := Api.MessageOr(e, FETCH_FAILURE);
      }
      isLoading := false;
    }

    /** `resetForm`: title, content and image cleared, the form hidden, no submission running. */
    method ResetForm()
      modifies this
      ensures title == [] && content == [] && imageFile == None
      ensures !isFormVisible && !isSubmitting
      ensures posts == old(posts) && isLoading == old(isLoading) && error == old(error)
    {
      title := [];
      content := [];
      imageFile := None;
      isFormVisible := false;
      isSubmitting := false;
    }

    /** The Add/Cancel button. */
    method ToggleForm()
      modifies this
      ensures isFormVisible == !old(isFormVisible)
      ensures posts == old(posts) && isLoading == old(isLoading) && error == old(error) && isSubmitting == old(isSubmitting)
      ensures title == old(title) && content == old(content) && imageFile == old(imageFile)
    {
      isFormVisible := !isFormVisible;
    }

    method Type(field: TextField, value: string)
      modifies this
      ensures field == Title ==> title == value && content == old(content)
      ensures field == Content ==> content == value && title == old(title)
      ensures imageFile == old(imageFile)
      ensures posts == old(posts) && isLoading == old(isLoading) && error == old(error)
      ensures isFormVisible == old(isFormVisible) && isSubmitting == old(isSubmitting)
    {
      match field {
        case Title => title := value;
        case Content => content := value;
      }
    }

    /** The file input: its first file, or none when the selection is empty. */
    method ChooseImage(files: seq<File>)
      modifies this
      ensures imageFile == (if files == [] then None else Some(files[0]))
      ensures title == old(title) && content == old(content)
      ensures posts == old(posts) && isLoading == old(isLoading) && error == old(error)
      ensures isFormVisible == old(isFormVisible) && isSubmitting == old(isSubmitting)
    {
      imageFile := if files == [] then None else Some(files[0]);
    }

    /**
     * `handleSubmit`, given how the create and the refetch came out. An
     * incomplete form is refused without a request. Otherwise the post is
     * sent; success resets the form and refetches, failure keeps the form
     * and shows the message. No submission is running afterwards.
     */
    method HandleSubmit(outcome: Result<Api.Json, Api.ApiError>, refetch: Result<seq<BlogPost>, Api.ApiError>)
      returns (request: Option<Api.Call>)
      modifies this
      ensures !Complete(old(title), old(content), old(imageFile)) ==>
                request == None && error == INCOMPLETE_FORM && posts == old(posts) && isLoading == old(isLoading)
                && title == old(title) && content == old(content) && imageFile == old(imageFile)
                && isFormVisible == old(isFormVisible) && isSubmitting == old(isSubmitting)
      ensures Complete(old(title), old(content), old(imageFile)) ==>
                request == Some(Api.CallFor(Api.CreateBlogPost(
                                  PostFormData(old(title), old(content), old(imageFile).value))))
                && !isSubmitting
      ensures Complete(old(title), old(content), old(imageFile)) && outcome.Ok? ==>
                title == [] && content == [] && imageFile == None && !isFormVisible && !isLoading
      ensures Complete(old(title), old(content), old(imageFile)) && outcome.Ok? && refetch.Ok? ==>
                posts == refetch.value && error == []
      ensures Complete(old(title), old(content), old(imageFile)) && outcome.Ok? && refetch.Err? ==>
                posts == old(posts) && error == Api.MessageOr(refetch.error, FETCH_FAILURE)
      ensures Complete(old(title), old(content), old(imageFile)) && outcome.Err? ==>
                error == Api.MessageOr(outcome.error, CREATE_FAILURE) && posts == old(posts) && isLoading == old(isLoading)
                && title == old(title) && content == old(content) && imageFile == old(imageFile)
                && isFormVisible == old(isFormVisible)
    {
      if title == [] || content == [] || imageFile.None? {
        error := INCOMPLETE_FORM;
        request := None;
        return;
      }
      isSubmitting := true;
      error := [];
      var fd: seq<Entry> := [];
      fd := fd + [Entry("title", Text(title))];
      fd := fd + [Entry("content", Text(content))];
      fd := fd + [Entry("image", Blob(imageFile.value))];
      assert fd == PostFormData(title, content, imageFile.value);
      request := Some(Api.CallFor(Api.CreateBlogPost(fd)));
      match outcome {
        case Ok(_) =>
          ResetForm();
          FetchPosts(refetch);
        case Err(e) =>
          error := Api.MessageOr(e, CREATE_FAILURE);
      }
      isSubmitting := false;
    }

    /**
     * `handleDelete`: nothing without confirmation; success refetches,
     * failure shows the message. Unlike the gallery tab, an earlier error is
     * not cleared before the attempt.
     */
    method HandleDelete(id: string, confirmed: bool, outcome: Result<bool, Api.ApiError>,
                        refetch: Result<seq<BlogPost>, Api.ApiError>)
      returns (request: Option<Api.Call>)
      modifies this
      ensures !confirmed ==> request == None && posts == old(posts) && error == old(error) && isLoading == old(isLoading)
      ensures confirmed ==> request == Some(Api.CallFor(Api.DeleteBlogPost(id)))
      ensures confirmed && outcome.Ok? ==> !isLoading
      ensures confirmed && outcome.Ok? && refetch.Ok? ==> posts == refetch.value && error == []
      ensures confirmed && outcome.Ok? && refetch.Err? ==>
                posts == old(posts) && error == Api.MessageOr(refetch.error, FETCH_FAILURE)
      ensures confirmed && outcome.Err? ==>
                posts == old(posts) && isLoading == old(isLoading) && error == Api.MessageOr(outcome.error, DELETE_FAILURE)
      ensures title == old(title) && content == old(content) && imageFile == old(imageFile)
      ensures isFormVisible == old(isFormVisible) && isSubmitting == old(isSubmitting)
    {
      request := None;
      if confirmed {
        request := Some(Api.CallFor(Api.DeleteBlogPost(id)));
        match outcome {
          case Ok(_) => FetchPosts(refetch);
          case Err(e) => error := Api.MessageOr(e, DELETE_FAILURE);
        }
      }
    }
  }

  /** A refused submission sends nothing and changes no field but the error line. */
  method RefusedWithoutImage(manager: BlogManager, outcome: Result<Api.Json, Api.ApiError>,
                             refetch: Result<seq<BlogPost>, Api.ApiError>)
    returns (request: Option<Api.Call>)
    requires manager.imageFile == None
    modifies manager
    ensures request == None && manager.error == INCOMPLETE_FORM
    ensures manager.title == old(manager.title) && manager.content == old(manager.content)
  {
    request := manager.HandleSubmit(outcome, refetch);
  }
}

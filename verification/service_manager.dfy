/**
 * The services tab of the admin dashboard: the add/edit form with its
 * prefill and multipart body, and the manager that chooses between create
 * and update and keeps the list and the error.
 */
module ServiceManager {
  import opened Wrappers
  import opened Text
  import opened Types
  import opened FormData
  import Api
  import ServiceDetails

  const FETCH_FAILURE: string := "Failed to fetch services"
  const SAVE_FAILURE: string := "Failed to save service"
  const DELETE_FAILURE: string := "Failed to delete service"

  /** The service being edited: any of its fields may be missing; `{}` has none. */
  datatype PartialService = PartialService(
    id: Option<string>,
    name: Option<string>,
    description: Option<string>,
    details: Option<seq<string>>)

  const EmptyPartial: PartialService := PartialService(None, None, None, None)

  function PartialOf(s: Service): PartialService {
    PartialService(Some(s.id), Some(s.name), Some(s.description), Some(s.details))
  }

  /** `editingService && editingService._id`: an edit of a stored service rather than a new one. */
  predicate HasStoredId(editing: Option<PartialService>) {
    editing.Some? && editing.value.id.Some? && editing.value.id.value != []
  }

  datatype FormField = Name | Description | Details

  class ServiceForm {
    var name: string
    var description: string
    var details: string
    var image: Option<File>

    constructor ()
      ensures name == [] && description == [] && details == [] && image == None
    {
      name, description, details, image := [], [], [], None;
    }

    /**
     * The prefill effect: name and description copied (empty when missing),
     * the key points joined with `", "`, and no image chosen; no service
     * at all empties the form.
     */
    method Prefill(service: Option<PartialService>)
      modifies this
      ensures image == None
      ensures service.None? ==> name == [] && description == [] && details == []
      ensures service.Some? ==>
                name == service.value.name.GetOr([])
                && description == service.value.description.GetOr([])
                && details == Join(service.value.details.GetOr([]), ", ")
    {
      if service.Some? {
        var s := service.value;
        name := s.name.GetOr([]);
        description := s.description.GetOr([]);
        details := if s.details.Some? then Join(s.details.value, ", ") else [];
        image := None;
      } else {
        name := [];
        description := [];
        details := [];
        image := None;
      }
    }

    method Type(field: FormField, value: string)
      modifies this
      ensures field == Name ==> name == value && description == old(description) && details == old(details)
      ensures field == Description ==> description == value && name == old(name) && details == old(details)
      ensures field == Details ==> details == value && name == old(name) && description == old(description)
      ensures image == old(image)
    {
      match field {
        case Name => name := value;
        case Description => description := value;
        case Details => details := value;
      }
    }

    method ChooseImage(file: Option<File>)
      modifies this
      ensures image == file && name == old(name) && description == old(description) && details == old(details)
    {
      image := file;
    }

    /** The multipart body: name, description and details always, then the image only when one was chosen. */
    method Submit() returns (fd: seq<Entry>)
      ensures Keys(fd) == ["name", "description", "details"] + (if image.Some? then ["image"] else [])
      ensures fd[0].value == Text(name) && fd[1].value == Text(description) && fd[2].value == Text(details)
      ensures image.Some? ==> fd[3].value == Blob(image.value)
    {
      fd := [];
      fd := fd + [Entry("name", Text(name))];
      fd := fd + [Entry("description", Text(description))];
      fd := fd + [Entry("details", Text(details))];
      if image.Some? {
        fd := fd + [Entry("image", Blob(image.value))];
      }
    }
  }

  /**
   * Editing a stored service and saving it unchanged sends key points the
   * detail page reads back as the same list, provided no key point is
   * empty, padded or holds a comma.
   */
  method ResubmitDetails(s: Service) returns (fd: seq<Entry>)
    requires forall k :: 0 <= k < |s.details| ==> ListItem(s.details[k])
    ensures |fd| == 3 && fd[2].key == "details" && fd[2].value.Text?
    ensures ServiceDetails.ParseDetails(ServiceDetails.DText(fd[2].value.text)) == s.details
  {
    var form := new ServiceForm();
    form.Prefill(Some(PartialOf(s)));
    fd := form.Submit();
    ServiceDetails.DetailsRoundTrip(s.details);
  }

  class ServiceManager {
    var services: seq<Service>
    var loading: bool
    var error: string
    var editing: Option<PartialService>

    constructor ()
      ensures services == [] && loading && error == [] && editing == None
    {
      services, loading, error, editing := [], true, [], None;
    }

    /** `fetchServices`: the list on success, the message otherwise; an earlier error stays. */
    method FetchServices(outcome: Result<seq<Service>, Api.ApiError>)
      modifies this
      ensures !loading && editing == old(editing)
      ensures outcome.Ok? ==> services == outcome.value && error == old(error)
      ensures outcome.Err? ==> services == old(services) && error == Api.MessageOr(outcome.error, FETCH_FAILURE)
    {
      loading := true;
      match outcome {
        case Ok(data) => services := data;
        case Err(e) => error := Api.MessageOr(e, FETCH_FAILURE);
      }
      loading := false;
    }

    /** "Add New Service": an empty record, which has no id. */
    method AddNew()
      modifies this
      ensures editing == Some(EmptyPartial) && !HasStoredId(editing)
      ensures services == old(services) && loading == old(loading) && error == old(error)
    {
      editing := Some(EmptyPartial);
    }

    method Edit(s: Service)
      modifies this
      ensures editing == Some(PartialOf(s))
      ensures services == old(services) && loading == old(loading) && error == old(error)
    {
      editing := Some(PartialOf(s));
    }

    method Cancel()
      modifies this
      ensures editing == None
      ensures services == old(services) && loading == old(loading) && error == old(error)
    {
      editing := None;
    }

    /**
     * `handleSave`, given how the save and the refetch came out: an update
     * when the edited service has an id, a create otherwise. Success closes
     * the form and refetches; failure keeps it open and shows the message.
     */
    method HandleSave(data: seq<Entry>, outcome: Result<Api.Json, Api.ApiError>,
                      refetch: Result<seq<Service>, Api.ApiError>)
      returns (request: Api.Call)
      modifies this
      ensures HasStoredId(old(editing)) ==> request == Api.CallFor(Api.UpdateService(old(editing).value.id.value, data))
      ensures !HasStoredId(old(editing)) ==> request == Api.CallFor(Api.CreateService(data))
      ensures outcome.Ok? ==> editing == None && !loading
      ensures outcome.Ok? && refetch.Ok? ==> services == refetch.value && error == old(error)
      ensures outcome.Ok? && refetch.Err? ==>
                services == old(services) && error == Api.MessageOr(refetch.error, FETCH_FAILURE)
      ensures outcome.Err? ==>
                editing == old(editing) && services == old(services) && loading == old(loading)
                && error == Api.MessageOr(outcome.error, SAVE_FAILURE)
    {
      if editing.Some? && editing.value.id.Some? && editing.value.id.value != [] {
        request := Api.CallFor(Api.UpdateService(editing.value.id.value, data));
      } else {
        request := Api.CallFor(Api.CreateService(data));
      }
      match outcome {
        case Ok(_) =>
          editing := None;
          FetchServices(refetch);
        case Err(e) =>
          error := Api.MessageOr(e, SAVE_FAILURE);
      }
    }

    /** `handleDelete`: nothing without confirmation; success refetches, failure shows the message. */
    method HandleDelete(id: string, confirmed: bool, outcome: Result<bool, Api.ApiError>,
                        refetch: Result<seq<Service>, Api.ApiError>)
      returns (request: Option<Api.Call>)
      modifies this
      ensures !confirmed ==>
                request == None && services == old(services) && error == old(error) && loading == old(loading)
      ensures confirmed ==> request == Some(Api.CallFor(Api.DeleteService(id)))
      ensures confirmed && outcome.Ok? ==> !loading
      ensures confirmed && outcome.Ok? && refetch.Ok? ==> services == refetch.value && error == old(error)
      ensures confirmed && outcome.Ok? && refetch.Err? ==>
                services == old(services) && error == Api.MessageOr(refetch.error, FETCH_FAILURE)
      ensures confirmed && outcome.Err? ==>
                services == old(services) && loading == old(loading) && error == Api.MessageOr(outcome.error, DELETE_FAILURE)
      ensures editing == old(editing)
    {
      request := None;
      if confirmed {
        request := Some(Api.CallFor(Api.DeleteService(id)));
        match outcome {
          case Ok(_) => FetchServices(refetch);
          case Err(e) => error := Api.MessageOr(e, DELETE_FAILURE);
        }
      }
    }
  }

  /** A service added through "Add New Service" is always created, never updated. */
  method AddThenSave(manager: ServiceManager, data: seq<Entry>, outcome: Result<Api.Json, Api.ApiError>,
                     refetch: Result<seq<Service>, Api.ApiError>)
    returns (request: Api.Call)
    modifies manager
    ensures request == Api.CallFor(Api.CreateService(data))
    ensures request.verb == Some(Api.POST) && request.endpoint == "services"
  {
    manager.AddNew();
    request := manager.HandleSave(data, outcome, refetch);
  }
}

/**
 * The view router (src/App.js): the current view, the selected property id,
 * the handlers that move between the list, the create form, the edit form
 * and the detail view, and the screen each view renders.
 */
module Router {
  import opened Js
  import opened Model
  import opened Service
  import opened FormController

  const ListView := "list"
  const CreateView := "create"
  const EditView := "edit"
  const DetailView := "detail"

  /** The two state fields; `None` is `null`. */
  datatype AppState = AppState(currentView: string, selectedPropertyId: Option<PropertyId>)

  const Initial := AppState(ListView, None)

  /** What `renderCurrentView` mounts. */
  datatype Screen =
    | ListScreen
    | FormScreen(formPropertyId: Option<PropertyId>)
    | DetailScreen(detailPropertyId: Option<PropertyId>)

  /** The `switch` of `renderCurrentView`: any other view renders the list. */
  function ScreenFor(s: AppState): (sc: Screen)
    ensures sc.FormScreen? <==> s.currentView == CreateView || s.currentView == EditView
    ensures sc.DetailScreen? <==> s.currentView == DetailView
    ensures sc.FormScreen? && s.currentView == CreateView ==> sc.formPropertyId == None
    ensures sc.FormScreen? && s.currentView == EditView ==> sc.formPropertyId == s.selectedPropertyId
    ensures sc.DetailScreen? ==> sc.detailPropertyId == s.selectedPropertyId
  {
    if s.currentView == ListView then ListScreen
    else if s.currentView == CreateView then FormScreen(None)
    else if s.currentView == EditView then FormScreen(s.selectedPropertyId)
    else if s.currentView == DetailView then DetailScreen(s.selectedPropertyId)
    else ListScreen
  }

  /** The views the handlers use, and the create form never carries an id. */
  predicate Valid(s: AppState) {
    && (s.currentView == ListView || s.currentView == CreateView || s.currentView == EditView || s.currentView == DetailView)
    && (s.currentView == CreateView ==> s.selectedPropertyId == None)
  }

  /** `handleCreateNew`: the create form, with no id. */
  function CreateNew(s: AppState): (r: AppState)
    ensures Valid(r) && ScreenFor(r) == FormScreen(None)
  {
    AppState(CreateView, None)
  }

  /** `handleEdit`: the edit form of the given id. */
  function Edit(s: AppState, propertyId: Option<PropertyId>): (r: AppState)
    ensures Valid(r) && ScreenFor(r) == FormScreen(propertyId)
  {
    AppState(EditView, propertyId)
  }

  /** `handleView`: the detail view of the given id. */
  function View(s: AppState, propertyId: Option<PropertyId>): (r: AppState)
    ensures Valid(r) && ScreenFor(r) == DetailScreen(propertyId)
  {
    AppState(DetailView, propertyId)
  }

  /** `handleSave`, `handleCancel` and `handleBackToList`: the list, with the selection cleared. */
  function BackToList(s: AppState): (r: AppState)
    ensures Valid(r) && ScreenFor(r) == ListScreen && r.selectedPropertyId == None
  {
    AppState(ListView, None)
  }

  /** The navigation bar's list button: the list, with the selection kept. */
  function NavList(s: AppState): (r: AppState)
    ensures Valid(s) ==> Valid(r)
    ensures ScreenFor(r) == ListScreen && r.selectedPropertyId == s.selectedPropertyId
  {
    s.(currentView := ListView)
  }

  /** The app starts valid, on the list. */
  lemma InitialShowsList()
    ensures Valid(Initial) && ScreenFor(Initial) == ListScreen && Initial.selectedPropertyId == None
  {
  }

  /**
   * Editing a property with an id opens the form in edit mode on that id,
   * loading it; creating opens it in create mode on a default draft.
   */
  lemma FormModeFollowsView(s: AppState, id: PropertyId, send: Request -> Outcome<PropertyRecord>)
    requires id != ""
    ensures var sc := ScreenFor(Edit(s, Some(id)));
      && sc.FormScreen?
      && var form := PropertyIdChanged(InitialForm, sc.formPropertyId, send);
      && form.isEdit && form.propertyId == Some(id)
      && form == LoadProperty(InitialForm.(propertyId := Some(id), isEdit := true), id, send)
    ensures var sc := ScreenFor(CreateNew(s));
      && sc.FormScreen?
      && var form := PropertyIdChanged(InitialForm, sc.formPropertyId, send);
      && !form.isEdit && form.formData == DefaultDraft && form.error == None
  {
  }

  /** The component. */
  class App {
    var currentView: string
    var selectedPropertyId: Option<PropertyId>

    function State(): AppState
      reads this
    {
      AppState(currentView, selectedPropertyId)
    }

    constructor ()
      ensures State() == Initial
    {
      currentView := ListView;
      selectedPropertyId := None;
    }

    method HandleCreateNew()
      modifies this
      ensures State() == CreateNew(old(State()))
    {
      selectedPropertyId := None;
      currentView := CreateView;
    }

    method HandleEdit(propertyId: Option<PropertyId>)
      modifies this
      ensures State() == Edit(old(State()), propertyId)
    {
      selectedPropertyId := propertyId;
      currentView := EditView;
    }

    method HandleView(propertyId: Option<PropertyId>)
      modifies this
      ensures State() == View(old(State()), propertyId)
    {
      selectedPropertyId := propertyId;
      currentView := DetailView;
    }

    /** `handleSave`; the saved record is only logged. */
    method HandleSave(savedProperty: PropertyRecord)
      modifies this
      ensures State() == BackToList(old(State()))
    {
      currentView := ListView;
      selectedPropertyId := None;
    }

    method HandleCancel()
      modifies this
      ensures State() == BackToList(old(State()))
    {
      currentView := ListView;
      selectedPropertyId := None;
    }

    method HandleBackToList()
      modifies this
      ensures State() == BackToList(old(State()))
    {
      currentView := ListView;
      selectedPropertyId := None;
    }

    /** The navigation bar's list button. */
    method HandleNavList()
      modifies this
      ensures State() == NavList(old(State()))
    {
      currentView := ListView;
    }

    /** `renderCurrentView`. */
    method RenderCurrentView() returns (sc: Screen)
      ensures sc == ScreenFor(State())
    {
      match currentView {
        case "list" => sc := ListScreen;
        case "create" => sc := FormScreen(None);
        case "edit" => sc := FormScreen(selectedPropertyId);
        case "detail" => sc := DetailScreen(selectedPropertyId);
        case _ => sc := ListScreen;
      }
    }
  }
}

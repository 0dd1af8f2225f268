/** The application shell: which of the two views is shown and which record,
    if any, the form is editing. */
module AppShell {
  import opened UserTypes
  import opened RegistrationForm

  datatype View = FormView | ListView

  /** What the shell renders: the form, with the record it edits and whether
      it gets a cancel callback, or the list. */
  datatype Screen = FormScreen(editingUser: Option<UserDetails>, hasCancel: bool) | ListScreen

  class App {
    var currentView: View
    var editingUser: Option<UserDetails>

    constructor ()
      ensures currentView == FormView && editingUser == None
    {
      currentView := FormView;
      editingUser := None;
    }

    /** The list's edit button: edit that record in the form. */
    method HandleEditUser(user: UserDetails)
      modifies this
      ensures editingUser == Some(user) && currentView == FormView
    {
      editingUser := Some(user);
      currentView := FormView;
    }

    /** The form's cancel callback: stop editing and show the list. */
    method HandleCancelEdit()
      modifies this
      ensures editingUser == None && currentView == ListView
    {
      editingUser := None;
      currentView := ListView;
    }

    /** The navigation buttons: switching to the form clears the edited
        record; switching to the list keeps it. A form already on screen is
        not remounted, so its draft survives the switch. */
    method HandleViewChange(view: View)
      modifies this
      ensures currentView == view
      ensures view == FormView ==> editingUser == None
      ensures view == ListView ==> editingUser == old(editingUser)
    {
      currentView := view;
      if view == FormView {
        editingUser := None;
      }
    }

    /** The form is shown exactly in the form view, and gets a cancel
        callback exactly when a record is being edited. */
    function Rendered(): (s: Screen)
      reads this
      ensures s.FormScreen? <==> currentView == FormView
      ensures s.FormScreen? ==> s.editingUser == editingUser && (s.hasCancel <==> editingUser.Some?)
    {
      if currentView == FormView then FormScreen(editingUser, editingUser.Some?) else ListScreen
    }

    /** After a submit the form calls its cancel callback if it has one: an
        edit returns to the list, a create stays on the form. */
    method FormSubmitted()
      requires currentView == FormView
      modifies this
      ensures old(editingUser).Some? ==> editingUser == None && currentView == ListView
      ensures old(editingUser).None? ==> editingUser == None && currentView == FormView
    {
      var screen := Rendered();
      if screen.hasCancel {
        HandleCancelEdit();
      }
    }
  }

  /** Editing `u`, then pressing the form's navigation button while the form
      is on screen: the mounted form loses its `editingUser` prop but keeps
      the draft seeded from `u`, so the next submit creates a copy of `u`
      (under a new id) instead of updating it. */
  method ResubmitAfterNavigatingToForm(u: UserDetails) returns (request: Submission)
    ensures request == CreateRequest(InitialFormData(Some(u)))
  {
    var app := new App();
    app.HandleEditUser(u);
    var form := new DraftForm(app.editingUser);
    app.HandleViewChange(FormView);
    form.ReceiveEditingUser(app.editingUser);
    request := form.HandleSubmit();
  }
}

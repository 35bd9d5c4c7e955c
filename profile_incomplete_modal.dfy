/** The reminder shown while the user has no complete profile: a visibility
    flag set from the user on every change of it and cleared by either
    button. */
module ProfileIncompleteModal {
  import opened Types
  import opened LanguageContext
  import opened UserContext
  import opened ProfileEdit

  /** The route the "complete" button leads to. */
  const EditRoute := "/profile/edit"

  /** The reminder is due when there is no user or its profile is incomplete. */
  predicate ShouldShow(user: Option<User>) {
    user.None? || !user.value.isProfileComplete
  }

  /** What the reminder puts on screen: its title and its button's label. */
  datatype ModalView = ModalView(title: string, button: string)

  class ProfileIncompleteModal {
    var isVisible: bool

    /** Mounting the reminder: the flag starts false and the effect then runs
        once with the current user, so this is the state after that first
        run of the effect. */
    constructor (user: Option<User>)
      ensures isVisible <==> ShouldShow(user)
    {
      isVisible := user.None? || !user.value.isProfileComplete;
    }

    /** The effect run whenever the user changes. */
    method OnUserChanged(user: Option<User>)
      modifies this
      ensures isVisible <==> ShouldShow(user)
    {
      if user.None? || !user.value.isProfileComplete {
        isVisible := true;
      } else {
        isVisible := false;
      }
    }

    method HandleDismiss()
      modifies this
      ensures !isVisible
    {
      isVisible := false;
    }

    /** Hides the reminder and names the route to go to. */
    method HandleComplete() returns (route: string)
      modifies this
      ensures !isVisible
      ensures route == EditRoute
    {
      isVisible := false;
      route := EditRoute;
    }

    /** Nothing when hidden; otherwise the two translated texts. */
    function Render(lang: Language): (view: Option<ModalView>)
      reads this
      ensures view.None? <==> !isVisible
      ensures view.Some? ==>
        view.value.title == T(lang, "profile.incomplete")
        && view.value.button == T(lang, "profile.complete")
    {
      if !isVisible then None
      else Some(ModalView(T(lang, "profile.incomplete"), T(lang, "profile.complete")))
    }
  }

  /** A user written by a successful save never calls for the reminder. */
  lemma SavedUserNeedsNoReminder(f: FormData, current: Option<User>, freshId: string)
    requires SaveResult(f, current, freshId).Saved?
    ensures !ShouldShow(Some(SaveResult(f, current, freshId).user))
  {
    SaveSpec(f, current, freshId);
  }

  /** The reminder's texts are translated in every language: both keys are
      among the twenty, so no language falls back to the key. */
  lemma ReminderTextsTranslated(lang: Language)
    ensures T(lang, "profile.incomplete") != "profile.incomplete"
    ensures T(lang, "profile.complete") != "profile.complete"
  {
    assert "profile.incomplete" in KeySet() && "profile.complete" in KeySet() by {
      assert KeyList[10] == "profile.incomplete" && KeyList[11] == "profile.complete";
    }
    FallbackIsUniform(lang, lang, "profile.incomplete");
    FallbackIsUniform(lang, lang, "profile.complete");
  }

  /** Saving from the editor while the reminder's screen stays mounted. The
      reminder's effect runs again only when the user changes, which is only
      on a save that goes through: that save hides the reminder. A refused
      save writes no user, so the effect does not run and the reminder keeps
      its visibility. */
  method SaveThenRemind(editor: EditProfileModal, modal: ProfileIncompleteModal, freshId: string)
    returns (alerted: bool)
    modifies editor.userStore, modal
    ensures alerted <==> SaveResult(editor.formData, old(editor.userStore.user), freshId).Rejected?
    ensures !alerted ==> !modal.isVisible
    ensures alerted ==> modal.isVisible == old(modal.isVisible) && editor.userStore.user == old(editor.userStore.user)
  {
    alerted := editor.HandleSave(freshId);
    if !alerted {
      SavedUserNeedsNoReminder(editor.formData, old(editor.userStore.user), freshId);
      modal.OnUserChanged(editor.userStore.user);
    }
  }
}

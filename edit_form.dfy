/** The EditForm page of Blazr.Demo.Routing.UI: a form with a dirty flag that
    the user toggles with a button. Every toggle arms or disarms the browser's
    exit prompt, and while the form is dirty every in-app navigation the
    Blazr navigation manager reports is vetoed. */
module EditFormPage {
  import opened DomEvents
  import SiteScript

  /** The argument of a BeforeLocationChange event; a handler vetoes the
      navigation by setting `isCanceled`. */
  class NavigationData {
    const location: string
    var isCanceled: bool

    constructor (location: string)
      ensures this.location == location && !isCanceled
    {
      this.location := location;
      isCanceled := false;
    }
  }

  /** A handler on BeforeLocationChange: the form's own, or an opaque one. */
  datatype BeforeLocationChangeHandler =
    | BeforeLocationChangeOf(target: EditForm)
    | OtherHandler(id: nat)

  /** The Blazr navigation manager, as far as the form uses it: the invocation
      list of its BeforeLocationChange event. */
  class BlazrNavigationManager {
    var beforeLocationChange: seq<BeforeLocationChangeHandler>

    constructor ()
      ensures beforeLocationChange == []
    {
      beforeLocationChange := [];
    }
  }

  class EditForm {
    var dirty: bool
    /** The last value handed to the browser's exit check. */
    ghost var bridgeEnabled: bool
    const navigationManager: BlazrNavigationManager
    /** The browser window the exit-check script runs in. */
    const window: Window

    /** The last value sent to the exit check agrees with the form. */
    ghost predicate Valid()
      reads this
    {
      bridgeEnabled == dirty
    }

    /** The form starts clean, and the exit check has not been armed. */
    constructor (navigationManager: BlazrNavigationManager, window: Window)
      ensures Valid() && !dirty
      ensures this.navigationManager == navigationManager && this.window == window
    {
      dirty := false;
      bridgeEnabled := false;
      this.navigationManager := navigationManager;
      this.window := window;
    }

    /** The button's CSS class: danger while dirty, success while clean. */
    function BtnCss(): (css: string)
      reads this
      ensures css == "btn-danger" <==> dirty
      ensures css == "btn-success" <==> !dirty
    {
      if dirty then "btn-danger" else "btn-success"
    }

    /** The button's caption names the state a click leads to. */
    function BtnText(): (text: string)
      reads this
      ensures text == "Set Form To Clean" <==> dirty
      ensures text == "Set Form To Dirty" <==> !dirty
    {
      if dirty then "Set Form To Clean" else "Set Form To Dirty"
    }

    /** Subscribes the form's handler to BeforeLocationChange, once. */
    method OnInitialized()
      modifies navigationManager
      ensures navigationManager.beforeLocationChange
        == old(navigationManager.beforeLocationChange) + [BeforeLocationChangeOf(this)]
    {
      navigationManager.beforeLocationChange :=
        navigationManager.beforeLocationChange + [BeforeLocationChangeOf(this)];
    }

    /** Flips the dirty flag and hands the new value to the exit check, so
        the prompt is armed exactly when the form is dirty, and no other
        `beforeunload` listener is touched. */
    method SwitchDirtyState()
      requires Valid() && window.Valid()
      modifies this`dirty, this`bridgeEnabled, window
      ensures Valid() && window.Valid()
      ensures dirty == !old(dirty)
      ensures window.beforeUnload == SiteScript.ExitCheckApplied(old(window.beforeUnload), dirty)
      ensures SiteScript.ExitDialog in window.beforeUnload <==> dirty
      ensures forall c :: c != SiteScript.ExitDialog ==> (c in window.beforeUnload <==> c in old(window.beforeUnload))
      ensures Removed(window.beforeUnload, SiteScript.ExitDialog) == Removed(old(window.beforeUnload), SiteScript.ExitDialog)
    {
      dirty := !dirty;
      SetPageExitCheck(dirty);
      if dirty {
        AddedKeepsOthers(old(window.beforeUnload), SiteScript.ExitDialog);
      } else {
        RemovedIdempotent(old(window.beforeUnload), SiteScript.ExitDialog);
      }
    }

    /** The form's BeforeLocationChange handler: cancels the navigation
        exactly when the form is dirty, whatever the target, and changes
        nothing on the form. */
    method NavigationManagerBeforeLocationChange(e: NavigationData)
      modifies e
      ensures e.isCanceled == dirty
    {
      e.isCanceled := dirty;
    }

    /** Calls `blazr_setEditorExitCheck(action)` in the browser. */
    method SetPageExitCheck(action: bool)
      requires window.Valid()
      modifies this`bridgeEnabled, window
      ensures bridgeEnabled == action && window.Valid()
      ensures window.beforeUnload == SiteScript.ExitCheckApplied(old(window.beforeUnload), action)
    {
      SiteScript.SetEditorExitCheck(window, action);
      bridgeEnabled := action;
    }
  }

  /** Two clicks on the button, on a form whose window holds the exit dialog
      exactly when the form is dirty, leave the form and its exit check as
      they were, and the browser with the same `beforeunload` listeners; starting
      from a clean form the list is restored exactly, while from a dirty one
      the exit dialog is re-appended at the end of the list. A navigation
      attempted in between is vetoed exactly when the first click made the
      form dirty. */
  method DoubleToggleScenario(form: EditForm, target: string) returns (canceled: bool)
    requires form.Valid() && form.window.Valid()
    requires SiteScript.ExitDialog in form.window.beforeUnload <==> form.dirty
    modifies form, form.window
    ensures form.Valid() && form.dirty == old(form.dirty)
    ensures forall c :: c in form.window.beforeUnload <==> c in old(form.window.beforeUnload)
    ensures !old(form.dirty) ==> form.window.beforeUnload == old(form.window.beforeUnload)
    ensures old(form.dirty) ==>
      (form.window.beforeUnload
         == Removed(old(form.window.beforeUnload), SiteScript.ExitDialog) + [SiteScript.ExitDialog])
    ensures canceled == !old(form.dirty)
  {
    form.SwitchDirtyState();
    var e := new NavigationData(target);
    form.NavigationManagerBeforeLocationChange(e);
    canceled := e.isCanceled;
    form.SwitchDirtyState();
    if !old(form.dirty) {
      SiteScript.OnThenOffRestores(old(form.window.beforeUnload));
    }
  }
}

/** The browser-side exit check of Blazr.Routing/wwwroot/site.js: a global
    function that turns the page's "leave this page?" prompt on or off by
    registering or unregistering a `beforeunload` listener, and that listener. */
module SiteScript {
  import opened DomEvents

  /** `window.blazr_showExitDialog`, the listener the script registers. */
  const ExitDialog := Callback("blazr_showExitDialog")

  /** The prompt text the listener puts in the event (two spaces after the
      full stop, as in the script). */
  const ExitDialogMessage := "There are unsaved changes on this page.  Do you want to leave?"

  /** The `beforeunload` listener list after `blazr_setEditorExitCheck(show)`. */
  function ExitCheckApplied(listeners: seq<Callback>, show: bool): (r: seq<Callback>)
    ensures ExitDialog in r <==> show
    ensures forall c :: c != ExitDialog ==> (c in r <==> c in listeners)
    ensures NoDuplicates(listeners) ==> NoDuplicates(r)
  {
    if show then Added(listeners, ExitDialog) else Removed(listeners, ExitDialog)
  }

  /** `blazr_setEditorExitCheck(show)`: adds the exit dialog listener when
      `show` is true and removes it otherwise. */
  method SetEditorExitCheck(window: Window, show: bool)
    requires window.Valid()
    modifies window
    ensures window.Valid()
    ensures window.beforeUnload == ExitCheckApplied(old(window.beforeUnload), show)
  {
    if show {
      window.AddEventListener(ExitDialog);
    } else {
      window.RemoveEventListener(ExitDialog);
    }
  }

  /** `blazr_showExitDialog(event)`: cancels the event's default action and
      sets the prompt text. */
  method ShowExitDialog(event: BeforeUnloadEvent)
    modifies event
    ensures event.defaultPrevented
    ensures event.returnValue == ExitDialogMessage
  {
    event.PreventDefault();
    event.returnValue := ExitDialogMessage;
  }

  /** The listener list after `blazr_setEditorExitCheck` has been called once
      for each value of `shows`, in order. */
  function ExitCheckHistory(listeners: seq<Callback>, shows: seq<bool>): seq<Callback>
  {
    if |shows| == 0 then listeners
    else ExitCheckApplied(ExitCheckHistory(listeners, shows[..|shows| - 1]), shows[|shows| - 1])
  }

  /** Whether the prompt is armed depends only on the last call, however many
      calls came before it. */
  lemma LastCallDecides(listeners: seq<Callback>, shows: seq<bool>)
    requires |shows| > 0
    ensures ExitDialog in ExitCheckHistory(listeners, shows) <==> shows[|shows| - 1]
  {
  }

  /** Any number of calls leaves every other `beforeunload` listener exactly
      where it was: taking the exit dialog out of the list gives the same
      list before and after. */
  lemma {:induction false} HistoryKeepsOthers(listeners: seq<Callback>, shows: seq<bool>)
    ensures Removed(ExitCheckHistory(listeners, shows), ExitDialog) == Removed(listeners, ExitDialog)
  {
    if |shows| > 0 {
      var before := ExitCheckHistory(listeners, shows[..|shows| - 1]);
      HistoryKeepsOthers(listeners, shows[..|shows| - 1]);
      if shows[|shows| - 1] {
        AddedKeepsOthers(before, ExitDialog);
      } else {
        RemovedIdempotent(before, ExitDialog);
      }
    }
  }

  /** Calling twice with the same value is calling once. */
  lemma ExitCheckIdempotent(listeners: seq<Callback>, show: bool)
    ensures ExitCheckApplied(ExitCheckApplied(listeners, show), show) == ExitCheckApplied(listeners, show)
  {
  }

  /** Turning the prompt on and then off again restores a list that did not
      hold the exit dialog. */
  lemma {:induction false} OnThenOffRestores(listeners: seq<Callback>)
    requires ExitDialog !in listeners
    ensures ExitCheckApplied(ExitCheckApplied(listeners, true), false) == listeners
  {
    RemovedAfterAppend(listeners, ExitDialog);
  }
}

# Blazr.Demo.Routing: the unsaved-changes navigation guard, in Dafny

This project models the navigation guard of the Blazr routing demo, plus the
weather-forecast record mapping.

- **EditForm** (`edit_form.dfy`, module `EditFormPage`) is a form with a
  dirty flag. Each click on its button flips the flag and calls the browser's
  exit check with the new value. While the form is dirty, its
  BeforeLocationChange handler cancels every in-app navigation. The button's
  CSS class and caption depend only on the flag.
- **CoreNavigationManager** (`core_navigation_manager.dfy`, module `Routing`)
  mirrors an underlying navigation manager. It copies the base's BaseUri and
  Uri and subscribes one handler to the base's LocationChanged event. On each
  base change it takes over the new Uri and raises one LocationChanged event
  of its own, passing the intercepted flag along. Dispose unsubscribes it.
- **site.js** (`site_script.dfy`, module `SiteScript`) holds
  `blazr_setEditorExitCheck(show)`. It adds or removes the
  `blazr_showExitDialog` listener on the window's `beforeunload` event. That
  listener cancels the event and sets its `returnValue` to the prompt text.
  The listener list follows the "add an event listener" and "remove an event
  listener" algorithms of section 2.7 of the WHATWG DOM Standard
  (`dom_events.dfy`, module `DomEvents`). Adding a listener that is already
  present changes nothing, and removing one takes it out.
- **C# events** (`delegates.dfy`, module `Delegates`) are invocation lists.
  `+=` appends a handler, duplicates included. `-=` removes the last
  occurrence and ignores an absent handler.
- **DboWeatherForecast** (`weather_forecast.dfy`, module `WeatherData`)
  copies four fields to and from the WeatherForecast transfer object.

A stateful piece of the source is a class in the model. Its methods state the
new state; its object invariant (`Valid`) is preserved. Pure pieces are
functions with lemmas. Event handlers are values that carry their target
object, so two handlers are equal exactly when C# delegates would be: same
method, same target.

The form subscribes its BeforeLocationChange handler when it is initialized
and never unsubscribes it.

## Model

| member | source | states |
|---|---|---|
| EditFormPage.EditForm.constructor | Blazr.Demo.Routing.UI/Pages/EditForm.razor.cs:11 | The form starts clean, and its exit-check flag starts off, so the invariant holds. |
| EditFormPage.EditForm.BtnCss | Blazr.Demo.Routing.UI/Pages/EditForm.razor.cs:17 | The class is "btn-danger" exactly when the form is dirty and "btn-success" exactly when it is clean. |
| EditFormPage.EditForm.BtnText | Blazr.Demo.Routing.UI/Pages/EditForm.razor.cs:19 | The caption is "Set Form To Clean" exactly when dirty and "Set Form To Dirty" exactly when clean. |
| EditFormPage.EditForm.OnInitialized | Blazr.Demo.Routing.UI/Pages/EditForm.razor.cs:21-25 | The form's handler is appended to BeforeLocationChange once, and nothing else in the list changes. |
| EditFormPage.EditForm.SwitchDirtyState | Blazr.Demo.Routing.UI/Pages/EditForm.razor.cs:27-31 | The flag flips, and the last value sent to the exit check equals the new flag. The window's listener list becomes what `blazr_setEditorExitCheck` makes of it with the new flag: the exit dialog is registered exactly when the form is dirty (appended at the end when newly armed), and no other `beforeunload` listener is added, removed or reordered. |
| EditFormPage.EditForm.NavigationManagerBeforeLocationChange | Blazr.Demo.Routing.UI/Pages/EditForm.razor.cs:33-34 | The navigation is canceled exactly when the form is dirty, whatever its target. Only the event object is modified. |
| EditFormPage.EditForm.SetPageExitCheck | Blazr.Demo.Routing.UI/Pages/EditForm.razor.cs:36-37 | The window's listener list becomes what `blazr_setEditorExitCheck(action)` makes of it, and the bridge flag records `action`. |
| EditFormPage.DoubleToggleScenario | Blazr.Demo.Routing.UI/Pages/EditForm.razor.cs:27-34 | Given a form whose window holds the exit dialog exactly when the form is dirty: two toggles restore the flag and the invariant, and leave the window with the same set of listeners. From a clean form the list is restored exactly; from a dirty form the dialog is moved to the end of the list and the other listeners keep their order. A navigation attempted between the toggles is canceled exactly when the first toggle made the form dirty. |
| Routing.CoreNavigationManager.constructor | Blazr.Routing/Services/CoreNavigationManager.cs:13-18 | BaseUri and Uri equal the base's. Exactly one handler, this manager's, is appended to the base's LocationChanged list. The base's URIs are unchanged and no event is raised. |
| Routing.CoreNavigationManager.EnsureInitialized | Blazr.Routing/Services/CoreNavigationManager.cs:20-21 | BaseUri and Uri are re-synced to the base's current values. |
| Routing.CoreNavigationManager.NotifyLocationChanged | Blazr.Routing/Services/CoreNavigationManager.cs:27 | Exactly one event is raised. It carries the current Uri and the given intercepted flag. |
| Routing.CoreNavigationManager.OnBaseLocationChanged | Blazr.Routing/Services/CoreNavigationManager.cs:23-28 | Uri becomes the event's location, and exactly one event is raised, equal to the incoming one (location and intercepted flag). BaseUri is untouched. |
| Routing.CoreNavigationManager.Dispose | Blazr.Routing/Services/CoreNavigationManager.cs:30-31 | The handler's last occurrence is removed from the base's list, which then no longer holds it. A second Dispose changes nothing. |
| Routing.BaseLocationChanged | Blazr.Routing/Services/CoreNavigationManager.cs:17-28 | A base change runs the manager's handler once per occurrence in the base's list. Subscribed once: Uri becomes the location and exactly one event with the intercepted flag is raised. Not subscribed: the manager is unchanged. BaseUri never changes. |
| Routing.MirrorScenario | Blazr.Routing/Services/CoreNavigationManager.cs:13-31 | Construct, let the base change, dispose, let the base change again. Only the first change reaches the manager: its Uri is that location, it raised exactly that one event, and its BaseUri is the base's. |
| Delegates.RemovedLast | Blazr.Routing/Services/CoreNavigationManager.cs:31 | `-=` removes exactly one occurrence of a present handler and leaves the list unchanged when the handler is absent. |
| Delegates.RemovedLastKeepsOthers | Blazr.Routing/Services/CoreNavigationManager.cs:31 | `-=` leaves the number of occurrences of every other handler unchanged. |
| Delegates.CountSnoc | Blazr.Routing/Services/CoreNavigationManager.cs:17 | `+=` adds one occurrence of the handler and none of any other. |
| DomEvents.Added | Blazr.Routing/wwwroot/site.js:3 | After adding, the callback is present and the other listeners are as before. An already-present callback leaves the list unchanged; otherwise it is appended at the end. The list stays free of duplicates. |
| DomEvents.Removed | Blazr.Routing/wwwroot/site.js:6 | After removing, the callback is absent and exactly the other listeners remain. An absent callback leaves the list unchanged. The list stays free of duplicates. |
| DomEvents.RemovedAfterAppend | Blazr.Routing/wwwroot/site.js:3-6 | Removing a callback that was just appended gives the same list as removing it from the original. |
| DomEvents.RemovedIdempotent | Blazr.Routing/wwwroot/site.js:6 | Removing the same callback twice is the same as removing it once. |
| DomEvents.AddedKeepsOthers | Blazr.Routing/wwwroot/site.js:3 | Adding a callback leaves the other listeners as they were, in the same order. |
| DomEvents.Window.AddEventListener | Blazr.Routing/wwwroot/site.js:3 | The window's list becomes the list with the callback added, and stays free of duplicates. |
| DomEvents.Window.RemoveEventListener | Blazr.Routing/wwwroot/site.js:6 | The window's list becomes the list with the callback removed, and stays free of duplicates. |
| DomEvents.BeforeUnloadEvent.PreventDefault | Blazr.Routing/wwwroot/site.js:11 | The event is marked default-prevented, and `returnValue` is unchanged. |
| SiteScript.ExitCheckApplied | Blazr.Routing/wwwroot/site.js:1-8 | The exit dialog is registered exactly when `show` is true. Every other listener is present exactly when it was before. |
| SiteScript.SetEditorExitCheck | Blazr.Routing/wwwroot/site.js:1-8 | The window's list is updated as ExitCheckApplied says (add when `show`, remove otherwise), and stays free of duplicates. |
| SiteScript.ShowExitDialog | Blazr.Routing/wwwroot/site.js:10-13 | The event is default-prevented, and its `returnValue` is exactly "There are unsaved changes on this page.  Do you want to leave?". |
| SiteScript.LastCallDecides | Blazr.Routing/wwwroot/site.js:1-8 | After any non-empty series of calls, the dialog is registered exactly when the last call passed true. |
| SiteScript.HistoryKeepsOthers | Blazr.Routing/wwwroot/site.js:1-8 | After any series of calls, the other listeners are the same list, in the same order, as before. |
| SiteScript.ExitCheckIdempotent | Blazr.Routing/wwwroot/site.js:1-8 | Two calls with the same value give the same list as one call. |
| SiteScript.OnThenOffRestores | Blazr.Routing/wwwroot/site.js:1-8 | Starting from a list without the dialog, turning the check on and then off restores the list exactly. |
| WeatherData.DboWeatherForecast.ToDto | Blazr.Demo.Routing.Data/DataBaseObjects/DboWeatherForecast.cs:20-27 | Id, Date, TemperatureC and Summary are copied unchanged; a null Summary stays null. |
| WeatherData.FromDto | Blazr.Demo.Routing.Data/DataBaseObjects/DboWeatherForecast.cs:29-36 | Id, Date, TemperatureC and Summary are copied unchanged; a null Summary stays null. |
| WeatherData.DtoRoundTrip | Blazr.Demo.Routing.Data/DataBaseObjects/DboWeatherForecast.cs:20-36 | For every transfer object `r`, `FromDto(r).ToDto()` equals `r`. |
| WeatherData.DboRoundTrip | Blazr.Demo.Routing.Data/DataBaseObjects/DboWeatherForecast.cs:10-36 | For every record `d`, `FromDto(d.ToDto())` equals `d` under record value equality. |

## Left out

- The JS interop call in `SetPageExitCheck` is asynchronous and fire-and-forget. The model treats it as a synchronous call on the window. Its timing and its returned task are not modelled.
- The framework's `NavigationManager.Initialize` is reduced to setting BaseUri and Uri. Its once-only guard, and the normalisation and validation in the BaseUri and Uri setters, are framework code that is not part of this model.
- `NotifyLocationChanged` is recorded as a log of the events the manager raised (the ghost field `notified`). Delivery to its listeners is framework code and is not modelled.
- Routing.BaseLocationChanged: only the handler of the one CoreNavigationManager passed in is run. Every other handler on the base's list, including those of other managers, is opaque; its effects are not modelled.
- BlazrNavigationManager and NavigationData are framework types outside this model. Only BeforeLocationChange's handler list and the `IsCanceled` flag are modelled. How the manager raises that event and honours the veto is not modelled.
- The injected services are declared nullable and dereferenced with `!`. A missing service, and the exception it would cause, is not modelled: the form is always built with its navigation manager and window.
- DOM listeners are modelled by their callback only. All of them here are `beforeunload` listeners without capture. The `once`, `passive` and `signal` options and the other event types are not modelled. `preventDefault` is modelled for a cancelable event and a non-passive listener, which is the case for `beforeunload` listeners added this way.
- What the browser does once the event is canceled and `returnValue` is set (its own leave-page dialog) is not modelled.
- WeatherForecast is not part of this model beyond the four fields the mapping copies. Guid and DateTime are opaque types compared only for equality.
- Left out as configuration or pass-through code with nothing to state:
  - host startup (the two `Program.cs` files);
  - service registration;
  - the weather-forecast controller;
  - the data broker interface;
  - the weather-forecast view service, whose results depend entirely on the unseen broker.

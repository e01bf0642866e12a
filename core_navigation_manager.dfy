/** Blazr.Routing's CoreNavigationManager: a navigation manager that mirrors
    the location of an underlying (base) navigation manager. It copies the
    base's BaseUri and Uri when built, subscribes one handler to the base's
    LocationChanged event, and on every base change overwrites its own Uri and
    re-raises LocationChanged to its own listeners. Dispose unsubscribes. */
module Routing {
  import opened Delegates

  /** What a LocationChanged event carries. */
  datatype LocationChangedEventArgs = LocationChangedEventArgs(location: string, isNavigationIntercepted: bool)

  /** A handler on a LocationChanged event: a delegate bound to a method and a
      target object, equal to another exactly when both are. Only the handler
      of CoreNavigationManager is known; every other one is opaque. */
  datatype LocationChangedHandler =
    | OnBaseLocationChangedOf(target: CoreNavigationManager)
    | OtherHandler(id: nat)

  /** The framework navigation manager underneath, as plain state: its two
      URIs and the invocation list of its LocationChanged event. */
  class BaseNavigationManager {
    var baseUri: string
    var uri: string
    var locationChanged: seq<LocationChangedHandler>

    constructor (baseUri: string, uri: string)
      ensures this.baseUri == baseUri && this.uri == uri && locationChanged == []
    {
      this.baseUri := baseUri;
      this.uri := uri;
      locationChanged := [];
    }
  }

  class CoreNavigationManager {
    const baseNavigationManager: BaseNavigationManager
    var baseUri: string
    var uri: string
    /** Every LocationChanged event this manager has raised to its own
        listeners, in order. */
    ghost var notified: seq<LocationChangedEventArgs>
    ghost var disposed: bool

    /** While not disposed, the base's list holds this manager's handler
        exactly once; after Dispose, not at all. */
    ghost predicate Valid()
      reads this, baseNavigationManager
    {
      Count(baseNavigationManager.locationChanged, OnBaseLocationChangedOf(this))
        == if disposed then 0 else 1
    }

    /** Copies the base's BaseUri and Uri and appends one handler to the base's
        LocationChanged list; no event is raised. */
    constructor (baseNavigationManager: BaseNavigationManager)
      modifies baseNavigationManager
      ensures Valid() && !disposed
      ensures this.baseNavigationManager == baseNavigationManager
      ensures baseUri == baseNavigationManager.baseUri && uri == baseNavigationManager.uri
      ensures baseNavigationManager.locationChanged
        == old(baseNavigationManager.locationChanged) + [OnBaseLocationChangedOf(this)]
      ensures baseNavigationManager.baseUri == old(baseNavigationManager.baseUri)
      ensures baseNavigationManager.uri == old(baseNavigationManager.uri)
      ensures notified == []
    {
      this.baseNavigationManager := baseNavigationManager;
      baseUri := baseNavigationManager.baseUri;
      uri := baseNavigationManager.uri;
      notified := [];
      disposed := false;
      new;
      var before := baseNavigationManager.locationChanged;
      CountPositiveIffIn(before, OnBaseLocationChangedOf(this));
      CountSnoc(before, OnBaseLocationChangedOf(this), OnBaseLocationChangedOf(this));
      baseNavigationManager.locationChanged := before + [OnBaseLocationChangedOf(this)];
    }

    /** Re-reads BaseUri and Uri from the base; raises nothing. */
    method EnsureInitialized()
      modifies this`baseUri, this`uri
      ensures baseUri == baseNavigationManager.baseUri && uri == baseNavigationManager.uri
    {
      baseUri := baseNavigationManager.baseUri;
      uri := baseNavigationManager.uri;
    }

    /** Raises this manager's own LocationChanged event with its current Uri. */
    method NotifyLocationChanged(isInterceptedLink: bool)
      modifies this`notified
      ensures notified == old(notified) + [LocationChangedEventArgs(uri, isInterceptedLink)]
    {
      notified := notified + [LocationChangedEventArgs(uri, isInterceptedLink)];
    }

    /** The handler subscribed to the base: takes over the new location and
        re-raises exactly one event that carries the intercepted flag along. */
    method OnBaseLocationChanged(e: LocationChangedEventArgs)
      modifies this`uri, this`notified
      ensures uri == e.location
      ensures notified == old(notified) + [e]
    {
      uri := e.location;
      NotifyLocationChanged(e.isNavigationIntercepted);
    }

    /** Takes this manager's handler off the base's list (the last occurrence,
        as `-=` does); calling it again changes nothing. */
    method Dispose()
      requires Valid()
      modifies baseNavigationManager`locationChanged, this`disposed
      ensures Valid() && disposed
      ensures baseNavigationManager.locationChanged
        == RemovedLast(old(baseNavigationManager.locationChanged), OnBaseLocationChangedOf(this))
      ensures old(disposed) ==> baseNavigationManager.locationChanged == old(baseNavigationManager.locationChanged)
    {
      baseNavigationManager.locationChanged :=
        RemovedLast(baseNavigationManager.locationChanged, OnBaseLocationChangedOf(this));
      disposed := true;
    }
  }

  /** `n` copies of the same event. */
  function Repeated(e: LocationChangedEventArgs, n: nat): (r: seq<LocationChangedEventArgs>)
    ensures |r| == n && forall k :: 0 <= k < n ==> r[k] == e
  {
    if n == 0 then [] else Repeated(e, n - 1) + [e]
  }

  /** The base navigation manager moves to `location` and raises its
      LocationChanged event: each handler on its list runs in order, once per
      occurrence. The handler of `core` is executed; the others are opaque
      and their effects are not part of the model. */
  method BaseLocationChanged(base: BaseNavigationManager, core: CoreNavigationManager,
                             location: string, isInterceptedLink: bool)
    modifies base`uri, core`uri, core`notified
    ensures base.uri == location
    ensures var n := Count(base.locationChanged, OnBaseLocationChangedOf(core));
      && core.uri == (if n > 0 then location else old(core.uri))
      && core.notified == old(core.notified) + Repeated(LocationChangedEventArgs(location, isInterceptedLink), n)
  {
    base.uri := location;
    var e := LocationChangedEventArgs(base.uri, isInterceptedLink);
    var handlers := base.locationChanged;
    for i := 0 to |handlers|
      invariant base.uri == location && base.locationChanged == handlers
      invariant core.uri == (if Count(handlers[..i], OnBaseLocationChangedOf(core)) > 0 then location else old(core.uri))
      invariant core.notified == old(core.notified) + Repeated(e, Count(handlers[..i], OnBaseLocationChangedOf(core)))
    {
      CountPrefix(handlers, i, OnBaseLocationChangedOf(core));
      if handlers[i] == OnBaseLocationChangedOf(core) {
        core.OnBaseLocationChanged(e);
      }
    }
    assert handlers[..|handlers|] == handlers;
  }

  /** The mirror at work: with `core` subscribed, a base change sets its Uri to
      the new location, raises one event carrying the intercepted flag, and
      leaves BaseUri alone; once `core` is disposed, a base change leaves it
      untouched. */
  method MirrorScenario(base: BaseNavigationManager, location: string, isInterceptedLink: bool)
    returns (core: CoreNavigationManager)
    modifies base
    ensures core.uri == location
    ensures core.baseUri == base.baseUri == old(base.baseUri)
    ensures core.notified == [LocationChangedEventArgs(location, isInterceptedLink)]
  {
    core := new CoreNavigationManager(base);
    BaseLocationChanged(base, core, location, isInterceptedLink);
    core.Dispose();
    BaseLocationChanged(base, core, location + "#later", !isInterceptedLink);
  }
}

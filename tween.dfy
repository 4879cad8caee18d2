/**
 `TetFanstaticTween`: the Pyramid tween that offers requests under the
 publisher prefix to Fanstatic's publisher, and otherwise runs the downstream
 handler with a per-request needed-resources tracker in the WSGI environ and
 injects the needed resources into HTML responses.

 Fanstatic's publisher, the downstream handler and the injector are not part
 of this model: they are the function-valued fields `publisher`, `handler`
 and `injector`. Their exceptions are the `Err` case of `Result`.
 */
module Tween {
  import opened Strings
  import opened Settings

  datatype Result<T> = Ok(value: T) | Err(error: string)

  /** WebOb's `status_int` for "not found", on which the publisher falls through. */
  const NotFound: int := 404

  /** `fanstatic.NEEDED`, the environ key of the per-request tracker. */
  const NeededKey: string := "fanstatic.needed"

  /** The exception `del request.environ[fanstatic.NEEDED]` raises when the slot is gone. */
  const SlotMissing: string := "KeyError: fanstatic.needed"

  const DefaultSignature: string := "fanstatic"
  const DefaultInjector: string := "topbottom"

  type Resource = string

  /** The parts of a WebOb response the tween reads or writes. */
  datatype Response = Response(status: int, contentType: Option<string>, body: string)

  /** What the injector is shown of the tracker: its base URL and its resources. */
  datatype Needed = Needed(baseUrl: string, resources: seq<Resource>)

  /** A value of the WSGI environ: a string, or the tracker under `NeededKey`. */
  datatype EnvValue = Text(text: string) | Tracker(needed: NeededResources)

  /** The request as the downstream handler receives it. */
  datatype View = View(scriptName: string, pathInfo: string, environ: map<string, EnvValue>)

  /**
   What the downstream handler does: the resources it asks the tracker for
   (through `request.need`), the request as it leaves it (a handler may
   change `SCRIPT_NAME`, `PATH_INFO` and the environ, the tracker slot
   included), and the response it returns or the exception it raises.
   */
  datatype Handled = Handled(needs: seq<Resource>, after: View, result: Result<Response>)

  /** The `SCRIPT_NAME`/`PATH_INFO` split under which the publisher is called. */
  datatype Split = Split(scriptName: string, pathInfo: string)

  type Handler = View -> Handled
  /** The publisher WSGI application, called with `SCRIPT_NAME` and `PATH_INFO`. */
  type Publisher = (string, string) -> Result<Response>
  /** An injector, called with the response body, the tracker and the response. */
  type Injector = (string, Needed, Response) -> Result<string>
  /** An entry of Fanstatic's injector registry: builds an injector from the config. */
  type InjectorFactory = map<string, string> -> Injector

  /** The URL prefix served by the publisher: `'%s/%s/' % (base_url.rstrip('/'), signature)`. */
  function PublisherPrefix(baseUrl: string, signature: string): string
  {
    RStrip(baseUrl, '/') + "/" + signature + "/"
  }

  /** The prefix a tween computes from its filtered config. */
  function ConfigPrefix(config: map<string, string>): string
  {
    PublisherPrefix(Get(config, "base_url", ""), Get(config, "publisher_signature", DefaultSignature))
  }

  /**
   The prefix is the base URL without its trailing slashes, then a slash, the
   signature and a closing slash.
   */
  lemma PublisherPrefixShape(baseUrl: string, signature: string)
    ensures var p := PublisherPrefix(baseUrl, signature);
      var base := RStrip(baseUrl, '/');
      && |p| == |base| + |signature| + 2
      && StartsWith(p, base) && StartsWith(baseUrl, base)
      && (base == [] || base[|base| - 1] != '/')
      && p[|base|] == '/' && p[|p| - 1] == '/'
      && p[|base| + 1..|p| - 1] == signature
  {
    var base := RStrip(baseUrl, '/');
    var p := PublisherPrefix(baseUrl, signature);
    assert p[..|base|] == base;
    assert p[|base| + 1..|p| - 1] == signature;
  }

  /** Trailing slashes on `base_url` do not change the prefix. */
  lemma PublisherPrefixIgnoresTrailingSlash(baseUrl: string, signature: string)
    ensures PublisherPrefix(baseUrl + "/", signature) == PublisherPrefix(baseUrl, signature)
  {
    RStripAppend(baseUrl, '/');
  }

  /** Without `base_url` and `publisher_signature` the prefix is `/fanstatic/`. */
  lemma DefaultConfigPrefix(config: map<string, string>)
    requires "base_url" !in config && "publisher_signature" !in config
    ensures ConfigPrefix(config) == "/fanstatic/"
  {
    assert RStrip("", '/') == "";
  }

  /** With no `base_url` and no `publisher_signature` setting the prefix is `/fanstatic/`. */
  lemma DefaultPrefix(settings: map<string, string>)
    requires "tet.fanstatic.base_url" !in settings
    requires "tet.fanstatic.publisher_signature" !in settings
    ensures ConfigPrefix(FilterSettings(settings)) == "/fanstatic/"
  {
    assert SettingsPrefix + "base_url" == "tet.fanstatic.base_url";
    assert SettingsPrefix + "publisher_signature" == "tet.fanstatic.publisher_signature";
    DefaultConfigPrefix(FilterSettings(settings));
  }

  /**
   Publisher dispatch: a path under the prefix is offered to the publisher
   with the prefix moved from `PATH_INFO` to the end of `SCRIPT_NAME`; any
   other path is not offered.
   */
  function Route(prefix: string, scriptName: string, pathInfo: string): (r: Option<Split>)
    ensures r.Some? <==> StartsWith(pathInfo, prefix)
    ensures r.Some? ==> r.value.scriptName == scriptName + prefix && prefix + r.value.pathInfo == pathInfo
  {
    if StartsWith(pathInfo, prefix) then
      ReplaceLeadingRoundTrip(pathInfo, prefix);
      Some(Split(scriptName + prefix, ReplaceFirst(pathInfo, prefix, "")))
    else
      None
  }

  /** The rewrite for the publisher keeps the full path `SCRIPT_NAME + PATH_INFO`. */
  lemma RouteKeepsFullPath(prefix: string, scriptName: string, pathInfo: string)
    requires Route(prefix, scriptName, pathInfo).Some?
    ensures var split := Route(prefix, scriptName, pathInfo).value;
      split.scriptName + split.pathInfo == scriptName + pathInfo
  {
    var split := Route(prefix, scriptName, pathInfo).value;
    assert split.scriptName + split.pathInfo == scriptName + (prefix + split.pathInfo);
  }

  /** With the default prefix, `/fanstatic/foo.js` is published as `foo.js` under `/fanstatic/`. */
  lemma RouteDefaultAsset()
    ensures Route("/fanstatic/", "", "/fanstatic/foo.js") == Some(Split("/fanstatic/", "foo.js"))
  {
    var path := "/fanstatic/foo.js";
    assert path[..11] == "/fanstatic/";
    var r := Route("/fanstatic/", "", path);
    var rest := r.value.pathInfo;
    assert rest == ("/fanstatic/" + rest)[11..];
    assert path[11..] == "foo.js";
    assert "" + "/fanstatic/" == "/fanstatic/";
    assert r.value == Split("/fanstatic/", "foo.js");
  }

  /** The publisher's answer ends the request unless it is a 404. */
  predicate PublisherAnswers(published: Result<Response>)
  {
    published.Err? || published.value.status != NotFound
  }

  /**
   Injection gate: the lower-cased content type (`''` for none) is non-empty,
   the tracker has resources, and the content type contains `/html` or `/xhtml`.
   */
  predicate InjectionApplies(contentType: Option<string>, hasResources: bool)
  {
    var c := Lower(GetOr(contentType, ""));
    c != "" && hasResources && (Contains(c, "/html") || Contains(c, "/xhtml"))
  }

  /**
   The emptiness test of the gate is implied by the substring tests: the gate
   holds exactly when there are resources and the lower-cased content type
   contains `/html` or `/xhtml`.
   */
  lemma InjectionAppliesIff(contentType: Option<string>, hasResources: bool)
    ensures InjectionApplies(contentType, hasResources) <==>
      hasResources && contentType.Some? &&
      var c := Lower(contentType.value);
      exists i :: 0 <= i <= |c| && (StartsWith(c[i..], "/html") || StartsWith(c[i..], "/xhtml"))
  {
    var c := Lower(GetOr(contentType, ""));
    ContainsIff(c, "/html");
    ContainsIff(c, "/xhtml");
    if Contains(c, "/html") || Contains(c, "/xhtml") {
      var i :| 0 <= i <= |c| && (StartsWith(c[i..], "/html") || StartsWith(c[i..], "/xhtml"));
      assert |c| > 0;
    }
  }

  /** An HTML content type in mixed case is injected into when there are resources. */
  lemma InjectionAppliesToHtml(html: string)
    requires html == "Text/HTML"
    ensures InjectionApplies(Some(html), true)
    ensures !InjectionApplies(Some(html), false)
  {
    var c := Lower(html);
    assert html[4] == '/';
    assert html[5..9] == "HTML";
    LowerUpperCase(html, 5);
    LowerUpperCase(html, 6);
    LowerUpperCase(html, 7);
    LowerUpperCase(html, 8);
    assert c[4..][..5] == "/html";
    ContainsIff(c, "/html");
  }

  /** `text/html` is injected into when there are resources. */
  lemma InjectionAppliesToHtmlLower(html: string)
    requires html == "text/html"
    ensures InjectionApplies(Some(html), true)
  {
    assert forall i :: 0 <= i < |html| ==> !('A' <= html[i] <= 'Z');
    assert Lower(html) == html;
    assert html[4..][..5] == "/html";
    ContainsIff(html, "/html");
  }

  /** XHTML is injected into as well. */
  lemma InjectionAppliesToXhtml()
    ensures InjectionApplies(Some("application/xhtml+xml"), true)
  {
    var c := Lower("application/xhtml+xml");
    assert c[11..][..6] == "/xhtml";
    ContainsIff(c, "/xhtml");
  }

  /** JSON and a response without a content type are left alone. */
  lemma InjectionSkipsOtherTypes(json: string)
    requires json == "application/json"
    ensures !InjectionApplies(Some(json), true)
    ensures !InjectionApplies(None, true)
  {
    assert forall i :: 0 <= i < |json| ==> !('A' <= json[i] <= 'Z');
    assert Lower(json) == json;
    forall i | 0 <= i <= |json| ensures !StartsWith(json[i..], "/html") && !StartsWith(json[i..], "/xhtml") {
      if i == 11 {
        assert json[i..][1] == 'j';
      } else if i < |json| {
        assert json[i..][0] == json[i] != '/';
      }
    }
    ContainsIff(json, "/html");
    ContainsIff(json, "/xhtml");
  }

  /**
   What becomes of the handler's outcome: an exception propagates, a response
   outside the injection gate is returned as it is, and a gated response gets
   the injector's output as its body (or the injector's exception propagates).
   */
  function AfterHandler(result: Result<Response>, needed: Needed, injector: Injector): Result<Response>
  {
    match result
    case Err(e) => Err(e)
    case Ok(response) =>
      if InjectionApplies(response.contentType, needed.resources != []) then
        match injector(response.body, needed, response)
        case Ok(body) => Ok(response.(body := body))
        case Err(e) => Err(e)
      else
        Ok(response)
  }

  /**
   The tween never changes a response's status or content type, and changes
   its body only inside the injection gate, to exactly what the injector returned.
   */
  lemma AfterHandlerBody(result: Result<Response>, needed: Needed, injector: Injector)
    ensures var out := AfterHandler(result, needed, injector);
      && (result.Err? ==> out == result)
      && (out.Ok? ==> result.Ok? && out.value.status == result.value.status
                      && out.value.contentType == result.value.contentType)
      && (result.Ok? && !InjectionApplies(result.value.contentType, needed.resources != []) ==> out == result)
      && (result.Ok? && InjectionApplies(result.value.contentType, needed.resources != []) ==>
            var injected := injector(result.value.body, needed, result.value);
            (out.Ok? <==> injected.Ok?) && (out.Ok? ==> out.value.body == injected.value))
  {
  }

  /** The tracker's base URL: the configured one, or the application URI when asked for and none is configured. */
  function TrackerBaseUrl(config: map<string, string>, useApplicationUri: bool, applicationUri: string): string
  {
    var configured := Get(config, "base_url", "");
    if useApplicationUri && configured == "" then RStrip(applicationUri, '/') else configured
  }

  /** Taken from the application URI, the base URL carries no trailing slash. */
  lemma TrackerBaseUrlFromApplicationUri(config: map<string, string>, applicationUri: string)
    requires Get(config, "base_url", "") == ""
    ensures var url := TrackerBaseUrl(config, true, applicationUri);
      StartsWith(applicationUri, url) && (url == [] || url[|url| - 1] != '/')
      && forall i :: |url| <= i < |applicationUri| ==> applicationUri[i] == '/'
  {
  }

  /** Deleting a key just inserted restores the map, less any earlier entry under that key. */
  lemma SlotRemoved<V>(m: map<string, V>, key: string, v: V)
    ensures m[key := v] - {key} == m - {key}
  {
    var l, r := m[key := v] - {key}, m - {key};
    assert l.Keys == r.Keys;
    forall j | j in l ensures l[j] == r[j] {
    }
  }

  /**
   Fanstatic's `NeededResources`, reduced to what the tween uses: the base
   URL and the resources asked for.
   */
  class NeededResources {
    var baseUrl: string
    var resources: seq<Resource>

    /** `NeededResources(**config)`: the base URL comes from the `base_url` option. */
    constructor (options: map<string, string>)
      ensures baseUrl == Get(options, "base_url", "") && resources == []
    {
      baseUrl := Get(options, "base_url", "");
      resources := [];
    }

    predicate HasBaseUrl()
      reads this
    {
      baseUrl != ""
    }

    predicate HasResources()
      reads this
    {
      resources != []
    }

    function Snapshot(): Needed
      reads this
    {
      Needed(baseUrl, resources)
    }

    method SetBaseUrl(url: string)
      modifies this
      ensures baseUrl == url && resources == old(resources)
    {
      baseUrl := url;
    }

    /** The resources the handler asks for, in order. */
    method Need(rs: seq<Resource>)
      modifies this
      ensures resources == old(resources) + rs && baseUrl == old(baseUrl)
    {
      resources := resources + rs;
    }
  }

  /**
   A WebOb request: `SCRIPT_NAME` and `PATH_INFO` (kept apart from the rest of
   the environ) and the application URI WebOb derives from the environ.
   */
  class Request {
    var scriptName: string
    var pathInfo: string
    var environ: map<string, EnvValue>
    const applicationUri: string

    constructor (scriptName: string, pathInfo: string, environ: map<string, EnvValue>, applicationUri: string)
      ensures this.scriptName == scriptName && this.pathInfo == pathInfo
      ensures this.environ == environ && this.applicationUri == applicationUri
    {
      this.scriptName := scriptName;
      this.pathInfo := pathInfo;
      this.environ := environ;
      this.applicationUri := applicationUri;
    }
  }

  /** The injector name a tween looks up: the `injector` setting, by default `topbottom`. */
  function InjectorName(settings: map<string, string>): string
  {
    Get(FilterSettings(settings), "injector", DefaultInjector)
  }

  class TetFanstaticTween {
    const handler: Handler
    /** The filtered settings without `injector`: the options of every tracker. */
    const config: map<string, string>
    const publisher: Publisher
    const publisherSignature: string
    const useApplicationUri: bool
    const useThreadLocal: bool
    const prefix: string
    const injector: Injector
    /** Whether a tracker is registered as the thread's current one (`fanstatic.init_needed`). */
    var threadLocalNeeded: bool

    /**
     `__init__`: filters the settings, reads the publisher signature and the
     two flags, computes the prefix, and pops `injector` from the config
     before building the injector from it.
     */
    constructor (handler: Handler, settings: map<string, string>, publisher: Publisher,
                 injectors: map<string, InjectorFactory>)
      requires InjectorName(settings) in injectors
      ensures this.handler == handler && this.publisher == publisher
      ensures var filtered := FilterSettings(settings);
        && config.Keys == filtered.Keys - {"injector"}
        && (forall k :: k in config ==> config[k] == filtered[k])
        && publisherSignature == Get(filtered, "publisher_signature", DefaultSignature)
        && useApplicationUri == Flag(filtered, "use_application_uri")
        && useThreadLocal == Flag(filtered, "use_thread_local")
        && prefix == ConfigPrefix(filtered)
        && injector == injectors[InjectorName(settings)](config)
      ensures !threadLocalNeeded
    {
      this.handler := handler;
      var filtered := FilterSettings(settings);
      this.publisher := publisher;
      var signature := Get(filtered, "publisher_signature", DefaultSignature);
      this.publisherSignature := signature;
      this.useApplicationUri := Flag(filtered, "use_application_uri");
      this.useThreadLocal := Flag(filtered, "use_thread_local");
      this.prefix := PublisherPrefix(Get(filtered, "base_url", ""), signature);
      var popped := Pop(filtered, "injector", DefaultInjector);
      this.config := popped.1;
      this.injector := injectors[popped.0](popped.1);
      this.threadLocalNeeded := false;
    }

    /**
     `__call__`. A request under the prefix goes to the publisher first; its
     answer is returned unless it is a 404, after which `SCRIPT_NAME` and
     `PATH_INFO` are restored and the handler runs (`RunHandler`). `needed` is
     the request's tracker (null when the publisher answered) and `handlerRan`
     says whether the handler was called.
     */
    method Call(request: Request) returns (outcome: Result<Response>, ghost needed: NeededResources?, ghost handlerRan: bool)
      modifies request, this`threadLocalNeeded
      ensures var route := Route(prefix, old(request.scriptName), old(request.pathInfo));
        var published := if route.Some? then publisher(route.value.scriptName, route.value.pathInfo) else Err("");
        route.Some? && PublisherAnswers(published) ==>
          && outcome == published && needed == null && !handlerRan
          && request.scriptName == route.value.scriptName && request.pathInfo == route.value.pathInfo
          && request.environ == old(request.environ) && threadLocalNeeded == old(threadLocalNeeded)
      ensures var route := Route(prefix, old(request.scriptName), old(request.pathInfo));
        var published := if route.Some? then publisher(route.value.scriptName, route.value.pathInfo) else Err("");
        !(route.Some? && PublisherAnswers(published)) ==>
          && needed != null && fresh(needed) && handlerRan
          && needed.baseUrl == TrackerBaseUrl(config, useApplicationUri, request.applicationUri)
          && var handled := handler(View(old(request.scriptName), old(request.pathInfo),
                                         old(request.environ)[NeededKey := Tracker(needed)]));
             && needed.resources == handled.needs
             && request.scriptName == handled.after.scriptName && request.pathInfo == handled.after.pathInfo
             && request.environ == handled.after.environ - {NeededKey}
             && (NeededKey in handled.after.environ ==>
                   && outcome == AfterHandler(handled.result, needed.Snapshot(), injector)
                   && threadLocalNeeded == (old(threadLocalNeeded) && !useThreadLocal))
             && (NeededKey !in handled.after.environ ==>
                   outcome == Err(SlotMissing) && threadLocalNeeded == (old(threadLocalNeeded) || useThreadLocal))
    {
      if StartsWith(request.pathInfo, prefix) {
        var pathInfo := request.pathInfo;
        var scriptName := request.scriptName;
        request.pathInfo := ReplaceFirst(pathInfo, prefix, "");
        request.scriptName := request.scriptName + prefix;
        var published := publisher(request.scriptName, request.pathInfo);
        if PublisherAnswers(published) {
          outcome, needed, handlerRan := published, null, false;
          return;
        }
        request.pathInfo := pathInfo;
        request.scriptName := scriptName;
      }
      ghost var tracker;
      outcome, tracker := RunHandler(request);
      needed, handlerRan := tracker, true;
    }

    /**
     The rest of `__call__`: a fresh tracker, whose base URL may come from
     the application URI, sits in the environ under `NeededKey` while the
     handler runs. The handler's response goes through `AfterHandler`. The
     `finally` block deletes the slot and then clears the thread-local
     registration; when the handler has removed the slot, the deletion
     raises `KeyError`, which replaces the outcome, and the registration is
     left in place.
     */
    method RunHandler(request: Request) returns (outcome: Result<Response>, ghost needed: NeededResources)
      modifies request, this`threadLocalNeeded
      ensures fresh(needed)
      ensures needed.baseUrl == TrackerBaseUrl(config, useApplicationUri, request.applicationUri)
      ensures var handled := handler(View(old(request.scriptName), old(request.pathInfo),
                                          old(request.environ)[NeededKey := Tracker(needed)]));
        && needed.resources == handled.needs
        && request.scriptName == handled.after.scriptName && request.pathInfo == handled.after.pathInfo
        && request.environ == handled.after.environ - {NeededKey}
        && (NeededKey in handled.after.environ ==>
              && outcome == AfterHandler(handled.result, needed.Snapshot(), injector)
              && threadLocalNeeded == (old(threadLocalNeeded) && !useThreadLocal))
        && (NeededKey !in handled.after.environ ==>
              outcome == Err(SlotMissing) && threadLocalNeeded == (old(threadLocalNeeded) || useThreadLocal))
    {
      var tracker := new NeededResources(config);
      if useThreadLocal {
        threadLocalNeeded := true;
      }
      if useApplicationUri && !tracker.HasBaseUrl() {
        tracker.SetBaseUrl(RStrip(request.applicationUri, '/'));
      }
      request.environ := request.environ[NeededKey := Tracker(tracker)];

      // try:
      var handled := handler(View(request.scriptName, request.pathInfo, request.environ));
      request.scriptName, request.pathInfo := handled.after.scriptName, handled.after.pathInfo;
      request.environ := handled.after.environ;
      tracker.Need(handled.needs);
      outcome := handled.result;
      if handled.result.Ok? {
        var response := handled.result.value;
        if InjectionApplies(response.contentType, tracker.HasResources()) {
          var result := injector(response.body, tracker.Snapshot(), response);
          if result.Ok? {
            response := response.(body := result.value);
            outcome := Ok(response);
          } else {
            outcome := Err(result.error);
          }
        }
      }
      // finally:
      if NeededKey in request.environ {
        request.environ := request.environ - {NeededKey};
        if useThreadLocal {
          threadLocalNeeded := false;
        }
      } else {
        outcome := Err(SlotMissing);
      }
      needed := tracker;
    }
  }

  /**
   Building the tween: an injector name missing from the registry fails at
   start-up; otherwise the tween is constructed.
   */
  method MakeTween(handler: Handler, settings: map<string, string>, publisher: Publisher,
                   injectors: map<string, InjectorFactory>)
    returns (r: Result<TetFanstaticTween>)
    ensures r.Err? <==> InjectorName(settings) !in injectors
    ensures r.Ok? ==> fresh(r.value) && !r.value.threadLocalNeeded
    ensures r.Ok? ==> r.value.handler == handler && r.value.publisher == publisher
    ensures r.Ok? ==> var tween, filtered := r.value, FilterSettings(settings);
      && tween.config.Keys == filtered.Keys - {"injector"}
      && (forall k :: k in tween.config ==> tween.config[k] == filtered[k])
      && tween.publisherSignature == Get(filtered, "publisher_signature", DefaultSignature)
      && tween.useApplicationUri == Flag(filtered, "use_application_uri")
      && tween.useThreadLocal == Flag(filtered, "use_thread_local")
      && tween.prefix == ConfigPrefix(filtered)
      && tween.injector == injectors[InjectorName(settings)](tween.config)
  {
    var name := InjectorName(settings);
    if name !in injectors {
      return Err("unknown injector: " + name);
    }
    var tween := new TetFanstaticTween(handler, settings, publisher, injectors);
    r := Ok(tween);
  }

  /**
   A tween with default settings answers `/fanstatic/foo.js` with the asset
   its publisher serves, without running the handler.
   */
  method AssetScenario() returns (outcome: Result<Response>)
    ensures outcome == Ok(Response(200, Some("application/javascript"), "asset"))
  {
    var asset := Response(200, Some("application/javascript"), "asset");
    var publisher: Publisher := (scriptName, pathInfo) =>
      if pathInfo == "foo.js" then Ok(asset) else Ok(Response(NotFound, None, ""));
    var handler: Handler := view => Handled([], view, Ok(Response(200, Some("text/html"), "<html></html>")));
    var injectors: map<string, InjectorFactory> := map[DefaultInjector := options => (body, needed, response) => Ok(body)];
    var settings: map<string, string> := map[];
    assert FilterSettings(settings) == map[];
    DefaultPrefix(settings);
    RouteDefaultAsset();
    var tween := new TetFanstaticTween(handler, settings, publisher, injectors);
    var request := new Request("", "/fanstatic/foo.js", map[], "http://localhost/");
    ghost var needed, ran;
    outcome, needed, ran := tween.Call(request);
    assert !ran;
  }

  /**
   A handler that needs one resource and returns HTML gets the injector's
   body back, and the tracker slot is gone from the environ afterwards.
   */
  method InjectionScenario() returns (outcome: Result<Response>, environ: map<string, EnvValue>)
    ensures outcome == Ok(Response(200, Some("text/html"), "<html><script/></html>"))
    ensures NeededKey !in environ
  {
    var page := Response(200, Some("text/html"), "<html></html>");
    var publisher: Publisher := (scriptName, pathInfo) => Ok(Response(NotFound, None, ""));
    var handler: Handler := view => Handled(["jquery.js"], view, Ok(page));
    var inject: Injector := (body: string, needed: Needed, response: Response) =>
      if needed.resources != [] then Ok("<html><script/></html>") else Ok(body);
    var injectors: map<string, InjectorFactory> := map[DefaultInjector := options => inject];
    var settings: map<string, string> := map[];
    assert FilterSettings(settings) == map[];
    var tween := new TetFanstaticTween(handler, settings, publisher, injectors);
    var request := new Request("", "/other", map[], "http://localhost/");
    InjectionAppliesToHtmlLower("text/html");
    ghost var needed, ran;
    outcome, needed, ran := tween.Call(request);
    environ := request.environ;
  }

  /**
   A handler that raises, under thread-local mode: the exception propagates,
   and neither the environ slot nor the thread-local registration survives.
   */
  method HandlerErrorScenario() returns (outcome: Result<Response>, environ: map<string, EnvValue>, registered: bool)
    ensures outcome == Err("boom")
    ensures NeededKey !in environ && !registered
  {
    var publisher: Publisher := (scriptName, pathInfo) => Ok(Response(NotFound, None, ""));
    var handler: Handler := view => Handled([], view, Err("boom"));
    var injectors: map<string, InjectorFactory> := map[DefaultInjector := options => (body, needed, response) => Ok(body)];
    var settings := map["tet.fanstatic.use_thread_local" := "true"];
    var tween := new TetFanstaticTween(handler, settings, publisher, injectors);
    var request := new Request("", "/fanstatic/missing.js", map[], "http://localhost/");
    ghost var needed, ran;
    outcome, needed, ran := tween.Call(request);
    environ, registered := request.environ, tween.threadLocalNeeded;
  }

  /**
   A handler that deletes the tracker slot itself, under thread-local mode:
   the `finally` block's deletion raises `KeyError`, which replaces the
   handler's response, and the thread-local registration is left behind.
   */
  method SlotDeletedScenario() returns (outcome: Result<Response>, registered: bool)
    ensures outcome == Err(SlotMissing)
    ensures registered
  {
    var publisher: Publisher := (scriptName, pathInfo) => Ok(Response(NotFound, None, ""));
    var handler: Handler := (view: View) =>
      Handled([], view.(environ := view.environ - {NeededKey}), Ok(Response(200, Some("text/html"), "<html></html>")));
    var injectors: map<string, InjectorFactory> := map[DefaultInjector := options => (body, needed, response) => Ok(body)];
    var key := "tet.fanstatic.use_thread_local";
    var settings := map[key := "true"];
    assert StartsWith(key, SettingsPrefix);
    FilterSettingsKeeps(settings, key);
    assert key[|SettingsPrefix|..] == "use_thread_local";
    var tween := new TetFanstaticTween(handler, settings, publisher, injectors);
    var request := new Request("", "/index.html", map[], "http://localhost/");
    ghost var needed, ran;
    outcome, needed, ran := tween.Call(request);
    registered := tween.threadLocalNeeded;
  }
}

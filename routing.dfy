/**
  Route resolution (`APIS`): from a request's path to a registered API,
  and from the API and the request's method to a resource's sequence.

  The registry `urls_and_apis` is a dict keyed by each API's context
  pattern; the model takes its iteration order as a sequence of APIs.
  Regular-expression matching (`re.match(pattern, text)`) is a library
  call and is supplied as a predicate.
 */
module Routing {
  import opened Values
  import opened Strings
  import opened Steps

  /** `re.match(pattern, text)` succeeds. */
  type Matcher = (string, string) -> bool

  datatype Resource = Resource(
    httpMethod: string,
    uriTemplate: Option<string>,
    inSequence: seq<Step>,
    outSequence: seq<Step>,
    faultSequence: seq<Step>)

  datatype Api = Api(name: string, context: string, supportedMethods: seq<string>, resources: seq<Resource>)

  /** `str(api)` */
  function Describe(api: Api): string
  {
    "Name: " + api.name + ", Context: " + api.context
  }

  /** Which of a resource's three sequences `sequence_for_uri` is asked for. */
  datatype SequenceType = In | Out | FaultType

  function SequenceOf(r: Resource, t: SequenceType): seq<Step>
  {
    match t
    case In => r.inSequence
    case Out => r.outSequence
    case FaultType => r.faultSequence
  }

  /** The path `get_url_api` matches: leading `/`s stripped, `/` appended when configured and missing. */
  function RoutedPath(urlPath: string, appendSlash: bool): (p: string)
    ensures appendSlash ==> EndsWith(p, "/")
    ensures !appendSlash ==> p == LStrip(urlPath, '/')
    ensures p == LStrip(urlPath, '/') || p == LStrip(urlPath, '/') + "/"
    ensures p == LStrip(urlPath, '/') + "/" <==> appendSlash && !EndsWith(LStrip(urlPath, '/'), "/")
  {
    var p := LStrip(urlPath, '/');
    if appendSlash && !EndsWith(p, "/") then p + "/" else p
  }

  /** The last API, in registry order, whose context pattern matches `path`. */
  function LastMatch(apis: seq<Api>, path: string, matches: Matcher): Option<Api>
  {
    if apis == [] then None
    else
      var last := apis[|apis| - 1];
      if matches(last.context, path) then Some(last) else LastMatch(apis[..|apis| - 1], path, matches)
  }

  /** `get_url_api`: scan the registry, reassigning `api` on every match. */
  method GetUrlApi(apis: seq<Api>, urlPath: string, appendSlash: bool, matches: Matcher)
    returns (api: Option<Api>)
    ensures api == LastMatch(apis, RoutedPath(urlPath, appendSlash), matches)
  {
    var path := RoutedPath(urlPath, appendSlash);
    api := None;
    for i := 0 to |apis|
      invariant api == LastMatch(apis[..i], path, matches)
    {
      assert apis[..i + 1][..i] == apis[..i];
      if matches(apis[i].context, path) {
        api := Some(apis[i]);
      }
    }
    assert apis[..|apis|] == apis;
  }

  /** `match_url`: true, or the 404 exception when no API matches. */
  function MatchUrl(apis: seq<Api>, urlPath: string, appendSlash: bool, matches: Matcher): (r: Result<bool>)
    ensures r.Err? <==> LastMatch(apis, RoutedPath(urlPath, appendSlash), matches).None?
    ensures r.Err? ==> r.error == NotFound
  {
    if LastMatch(apis, RoutedPath(urlPath, appendSlash), matches).Some? then Ok(true)
    else Err(NotFound)
  }

  /**
    `match_method`: the API, or the 405 exception when the request method is
    not one of its supported methods.  Without an API the lookup of
    `supported_methods` on `None` raises instead.
   */
  function MatchMethod(apis: seq<Api>, httpMethod: string, urlPath: string, appendSlash: bool, matches: Matcher)
    : (r: Result<Api>)
    ensures var api := LastMatch(apis, RoutedPath(urlPath, appendSlash), matches);
      && (api.None? ==> r == Err(NoApi))
      && (api.Some? ==> (r.Ok? <==> httpMethod in api.value.supportedMethods))
      && (r.Ok? ==> r == Ok(api.value))
  {
    match LastMatch(apis, RoutedPath(urlPath, appendSlash), matches)
    case None => Err(NoApi)
    case Some(api) =>
      if httpMethod in api.supportedMethods then Ok(api) else Err(MethodNotAllowed)
  }

  /**
    A resource serves a request when its method is the request's and, if it
    declares a uri-template, the API context followed by the template
    matches the path.
   */
  predicate Serves(api: Api, r: Resource, httpMethod: string, path: string, matches: Matcher)
  {
    r.httpMethod == httpMethod
    && (r.uriTemplate.None? || matches(api.context + r.uriTemplate.value, path))
  }

  /** The first resource, in declaration order, that serves the request. */
  function FirstServing(api: Api, rs: seq<Resource>, httpMethod: string, path: string, matches: Matcher)
    : Option<Resource>
  {
    if rs == [] then None
    else if Serves(api, rs[0], httpMethod, path, matches) then Some(rs[0])
    else FirstServing(api, rs[1..], httpMethod, path, matches)
  }

  /** What `sequence_for_uri` returns or raises. */
  function SequenceFor(apis: seq<Api>, appendSlash: bool, matches: Matcher,
                       httpMethod: string, urlPath: string, t: SequenceType): Result<seq<Step>>
  {
    match LastMatch(apis, RoutedPath(urlPath, appendSlash), matches)
    case None => Err(NoSequenceForUri)
    case Some(api) =>
      match FirstServing(api, api.resources, httpMethod, LStrip(urlPath, '/'), matches)
      case None => Err(NoSequenceForUri)
      case Some(r) => Ok(SequenceOf(r, t))
  }

  /**
    `sequence_for_uri`: resolve the API again, then return the requested
    sequence of the first resource serving the request.  Note that the
    templates are matched against the path without the appended slash.
   */
  method SequenceForUri(apis: seq<Api>, appendSlash: bool, matches: Matcher,
                        httpMethod: string, urlPath: string, t: SequenceType)
    returns (r: Result<seq<Step>>)
    ensures r == SequenceFor(apis, appendSlash, matches, httpMethod, urlPath, t)
  {
    var api := GetUrlApi(apis, urlPath, appendSlash, matches);
    if api.None? {
      return Err(NoSequenceForUri);
    }
    var path := LStrip(urlPath, '/');
    var resource := FirstServingResource(api.value, httpMethod, path, matches);
    if resource.None? {
      assert SequenceFor(apis, appendSlash, matches, httpMethod, urlPath, t) == Err(NoSequenceForUri);
      return Err(NoSequenceForUri);
    }
    assert SequenceFor(apis, appendSlash, matches, httpMethod, urlPath, t) == Ok(SequenceOf(resource.value, t));
    r := Ok(SequenceOf(resource.value, t));
  }

  /** The resource loop of `sequence_for_uri`: skip resources whose method or template does not fit. */
  method FirstServingResource(api: Api, httpMethod: string, path: string, matches: Matcher)
    returns (found: Option<Resource>)
    ensures found == FirstServing(api, api.resources, httpMethod, path, matches)
  {
    var rs := api.resources;
    for i := 0 to |rs|
      invariant FirstServing(api, rs, httpMethod, path, matches) == FirstServing(api, rs[i..], httpMethod, path, matches)
    {
      var resource := rs[i];
      assert rs[i..][1..] == rs[i + 1..];
      if httpMethod == resource.httpMethod {
        if resource.uriTemplate.Some? {
          var combined := api.context + resource.uriTemplate.value;
          if !matches(combined, path) {
            continue;
          }
        }
        return Some(resource);
      }
    }
    return None;
  }

  // ---------------------------------------------------------------------
  // Properties.
  // ---------------------------------------------------------------------

  /**
    "Last match wins": the chosen API is a registered one whose pattern
    matches and no later registration matches; no API is chosen exactly
    when no pattern matches.
   */
  lemma {:induction false} LastMatchWins(apis: seq<Api>, path: string, matches: Matcher)
    ensures LastMatch(apis, path, matches).None? <==>
      forall i :: 0 <= i < |apis| ==> !matches(apis[i].context, path)
    ensures LastMatch(apis, path, matches).Some? ==>
      exists i :: 0 <= i < |apis| && apis[i] == LastMatch(apis, path, matches).value
        && matches(apis[i].context, path)
        && forall j :: i < j < |apis| ==> !matches(apis[j].context, path)
  {
    if apis != [] {
      var init := apis[..|apis| - 1];
      LastMatchWins(init, path, matches);
      var n := |apis| - 1;
      if !matches(apis[n].context, path) {
        if LastMatch(apis, path, matches).Some? {
          var i :| 0 <= i < |init| && init[i] == LastMatch(init, path, matches).value
            && matches(init[i].context, path)
            && forall j :: i < j < |init| ==> !matches(init[j].context, path);
          assert apis[i] == init[i];
          assert forall j :: i < j < |apis| ==> !matches(apis[j].context, path) by {
            forall j | i < j < |apis| ensures !matches(apis[j].context, path) {
              if j < n { assert apis[j] == init[j]; }
            }
          }
        } else {
          forall i | 0 <= i < |apis| ensures !matches(apis[i].context, path) {
            if i < n { assert apis[i] == init[i]; }
          }
        }
      }
    }
  }

  /** Of two overlapping registrations, the later one is chosen. */
  lemma LaterRegistrationShadows(first: Api, second: Api, path: string, matches: Matcher)
    requires matches(first.context, path) && matches(second.context, path)
    ensures LastMatch([first, second], path, matches) == Some(second)
  {
  }

  /**
    The resource chosen is the first in declaration order that serves the
    request; resources before it are skipped because their method differs
    or their template does not match.
   */
  lemma {:induction false} FirstServingIsFirst(api: Api, rs: seq<Resource>, httpMethod: string,
                                               path: string, matches: Matcher)
    ensures FirstServing(api, rs, httpMethod, path, matches).None? <==>
      forall i :: 0 <= i < |rs| ==> !Serves(api, rs[i], httpMethod, path, matches)
    ensures FirstServing(api, rs, httpMethod, path, matches).Some? ==>
      exists i :: 0 <= i < |rs| && rs[i] == FirstServing(api, rs, httpMethod, path, matches).value
        && Serves(api, rs[i], httpMethod, path, matches)
        && forall j :: 0 <= j < i ==> !Serves(api, rs[j], httpMethod, path, matches)
  {
    if rs != [] && !Serves(api, rs[0], httpMethod, path, matches) {
      FirstServingIsFirst(api, rs[1..], httpMethod, path, matches);
      if FirstServing(api, rs, httpMethod, path, matches).Some? {
        var i :| 0 <= i < |rs[1..]| && rs[1..][i] == FirstServing(api, rs[1..], httpMethod, path, matches).value
          && Serves(api, rs[1..][i], httpMethod, path, matches)
          && forall j :: 0 <= j < i ==> !Serves(api, rs[1..][j], httpMethod, path, matches);
        assert rs[i + 1] == rs[1..][i];
        assert forall j :: 0 <= j < i + 1 ==> !Serves(api, rs[j], httpMethod, path, matches) by {
          forall j | 0 <= j < i + 1 ensures !Serves(api, rs[j], httpMethod, path, matches) {
            if j > 0 { assert rs[j] == rs[1..][j - 1]; }
          }
        }
      } else {
        forall i | 0 <= i < |rs| ensures !Serves(api, rs[i], httpMethod, path, matches) {
          if i > 0 { assert rs[i] == rs[1..][i - 1]; }
        }
      }
    }
  }

  /**
    `sequence_for_uri` raises exactly when no API matches or no resource of
    the matched API serves the method and path; the three sequence types
    come from the same resource.
   */
  lemma SequenceForSameResource(apis: seq<Api>, appendSlash: bool, matches: Matcher,
                                httpMethod: string, urlPath: string)
    ensures SequenceFor(apis, appendSlash, matches, httpMethod, urlPath, In).Err?
      <==> SequenceFor(apis, appendSlash, matches, httpMethod, urlPath, FaultType).Err?
    ensures SequenceFor(apis, appendSlash, matches, httpMethod, urlPath, In).Err?
      <==> SequenceFor(apis, appendSlash, matches, httpMethod, urlPath, Out).Err?
    ensures SequenceFor(apis, appendSlash, matches, httpMethod, urlPath, In).Err? <==>
      (LastMatch(apis, RoutedPath(urlPath, appendSlash), matches).None?
       || FirstServing(LastMatch(apis, RoutedPath(urlPath, appendSlash), matches).value,
                       LastMatch(apis, RoutedPath(urlPath, appendSlash), matches).value.resources,
                       httpMethod, LStrip(urlPath, '/'), matches).None?)
  {
  }
}

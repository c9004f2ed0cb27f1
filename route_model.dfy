/**
 * The per-request decision of `DataFetchingRouter<T>.RouteAsync`, as a
 * function of its inputs: the query string, the route data it is handed,
 * the router's configuration and the answers its collaborators give.
 *
 * The collaborators (the content store, the interception event hub, the
 * diversion registry, the per-type existence-check switch and the paging
 * keys) are values of `Environment<T>`. Each collaborator call the router
 * makes is recorded, in order, as a `Call`.
 */
module RouteModel {
  import opened Wrappers
  import TypeMatch

  /** A query parameter's values; the query-string parser always yields at least one. */
  type StringValues = s: seq<string> | |s| > 0 witness [""]

  /** The query string as a dictionary from parameter name to values. */
  type Query = map<string, StringValues>

  /** A downstream router, by identity. */
  datatype RouterRef = RouterRef(id: nat)

  /**
   * What content resolution yields: null, a fetched (or newly created)
   * item, or a lazy wrapper, which is never null and whose evaluation
   * is not part of routing.
   */
  datatype Data<T> = Null | Loaded(item: T) | Deferred

  /** A value stored in route values or data tokens. */
  datatype Value<T> = Text(text: string) | Flag(flag: bool) | Content(data: Data<T>)

  /** The route data: route values and data tokens, both keyed by name. */
  datatype RouteState<T> = RouteState(values: map<string, Value<T>>, dataTokens: map<string, Value<T>>)

  /** What reflection tells the router about its type argument `T`. */
  datatype ContentType = ContentType(fullName: string, name: string, isList: bool)

  /** The content store: summary lookup, full fetch and creation of a new item, by route data. */
  datatype ContentStore<!T> = ContentStore(
    summaryExists: RouteState<T> -> bool,
    fetch: RouteState<T> -> Option<T>,
    create: RouteState<T> -> T)

  /** The payload of the "DataRoute.Intercept" event. */
  datatype InterceptEvent<T> = InterceptEvent(query: Query, data: Data<T>, contentType: ContentType, routeState: RouteState<T>)

  /**
   * The payload as the subscribers leave it: `wasHandled`, and whether its
   * route-data reference is non-null (it starts out as the request's own).
   */
  datatype InterceptReply = InterceptReply(wasHandled: bool, keepsRouteData: bool)

  /** A diversion policy: (default target, route data, data) to an alternate router or none. */
  type Diverter<!T> = (RouterRef, RouteState<T>, Data<T>) -> Option<RouterRef>

  /** Everything outside the router that a request consults. */
  datatype Environment<!T> = Environment(
    checkExistenceBySummary: bool,
    store: ContentStore<T>,
    intercept: InterceptEvent<T> -> InterceptReply,
    registeredDiverter: Diverter<T>,
    pagingKeys: seq<string>)

  /** A call the router makes on a collaborator. */
  datatype Call = SummaryLookup | Fetch | Intercept | Divert | Create | Dispatch(router: RouterRef)

  /**
   * How a request ends. `FilteredOut` and `NotFound` abandon it;
   * `Handled` is the interceptor's short cut, with or without a dispatch
   * to the default target; `DuplicateKey` is the exception a dictionary
   * raises when an entry is added under a key it already holds.
   */
  datatype Outcome = FilteredOut | DuplicateKey | Handled(redispatched: bool) | NotFound | Dispatched(router: RouterRef)

  /** The outcome, the route data as the router leaves it, and the calls it made. */
  datatype RouteResult<T> = RouteResult(outcome: Outcome, state: RouteState<T>, calls: seq<Call>)

  /** The result of content resolution and the store calls it made. */
  datatype Resolution<T> = Resolution(data: Data<T>, calls: seq<Call>)

  const TypeKey: string := "$type"
  const CreateKey: string := "$create"
  const FilterKey: string := "$filter"
  const NewItemKey: string := "LynNewItem"
  const DataKey: string := "data"

  /** The type-restriction token: the first `$type` value if there is one, else the first `$create` value. */
  function Restriction(query: Query): (r: Option<string>)
    ensures TypeKey in query ==> r == Some(query[TypeKey][0])
    ensures TypeKey !in query && CreateKey in query ==> r == Some(query[CreateKey][0])
    ensures r == None <==> TypeKey !in query && CreateKey !in query
  {
    if TypeKey in query then Some(query[TypeKey][0])
    else if CreateKey in query then Some(query[CreateKey][0])
    else None
  }

  /** The query keys copied into the data tokens: `$filter` and the paging keys. */
  function SpecialKeys(pagingKeys: seq<string>): set<string> {
    {FilterKey} + set k | k in pagingKeys
  }

  /** The data tokens for those of `keys` that are special query keys: each with its first value. */
  function TokensAmong<T>(query: Query, pagingKeys: seq<string>, keys: set<string>): map<string, Value<T>> {
    map k | k in keys && k in query && k in SpecialKeys(pagingKeys) :: Text(query[k][0])
  }

  /** The data tokens the query contributes. */
  function SpecialTokens<T>(query: Query, pagingKeys: seq<string>): map<string, Value<T>> {
    TokensAmong(query, pagingKeys, query.Keys)
  }

  /**
   * GetData: when the existence check is on for the type and the type is
   * not a list, a missing summary yields null without a fetch; otherwise a
   * lazy wrapper when `lazyData` is set, or else the fetched item.
   */
  function GetData<T>(checkExistence: bool, isList: bool, lazyData: bool, store: ContentStore<T>, rd: RouteState<T>): (r: Resolution<T>)
    ensures checkExistence && !isList && !store.summaryExists(rd) ==> r == Resolution(Null, [SummaryLookup])
    ensures (SummaryLookup in r.calls) == (checkExistence && !isList)
    ensures !(checkExistence && !isList && !store.summaryExists(rd)) ==>
      if lazyData then r.data == Deferred && Fetch !in r.calls
      else Fetch in r.calls && (r.data == if store.fetch(rd).Some? then Loaded(store.fetch(rd).value) else Null)
    ensures r.data.Null? <==>
      (checkExistence && !isList && !store.summaryExists(rd)) || (!lazyData && store.fetch(rd).None?)
  {
    var lookups := if checkExistence && !isList then [SummaryLookup] else [];
    if checkExistence && !isList && !store.summaryExists(rd) then
      Resolution(Null, lookups)
    else if lazyData then
      Resolution(Deferred, lookups)
    else
      var fetched := store.fetch(rd);
      Resolution(if fetched.Some? then Loaded(fetched.value) else Null, lookups + [Fetch])
  }

  /**
   * The steps after interception: create the missing item when a type was
   * specified and a diversion target exists (otherwise abandon), attach the
   * data under "data", then dispatch to the diversion target or the default target.
   */
  function CreateAndDispatch<T>(
    typeSpecified: bool, divertRouter: Option<RouterRef>, target: RouterRef, store: ContentStore<T>,
    data: Data<T>, rd: RouteState<T>, calls: seq<Call>): RouteResult<T>
  {
    if data.Null? && !(typeSpecified && divertRouter.Some?) then
      RouteResult(NotFound, rd, calls)
    else if data.Null? && NewItemKey in rd.dataTokens then
      RouteResult(DuplicateKey, rd, calls + [Create])
    else
      var created := data.Null?;
      var data' := if created then Loaded(store.create(rd)) else data;
      var rd' := if created then rd.(dataTokens := rd.dataTokens[NewItemKey := Flag(true)]) else rd;
      var calls' := if created then calls + [Create] else calls;
      if DataKey in rd'.values then
        RouteResult(DuplicateKey, rd', calls')
      else
        var router := divertRouter.GetOr(target);
        RouteResult(Dispatched(router), rd'.(values := rd'.values[DataKey := Content(data')]), calls' + [Dispatch(router)])
  }

  /**
   * One request through `DataFetchingRouter<T>.RouteAsync`: type filter,
   * token copying, resolution, interception, diversion, create-or-abandon
   * and dispatch. A clash while copying the tokens leaves the data tokens
   * partly updated; `state` is then the route data as it was handed over.
   */
  function Route<T>(
    contentType: ContentType, target: RouterRef, lazyData: bool, divertOverride: Option<Diverter<T>>,
    env: Environment<T>, query: Query, rd: RouteState<T>): RouteResult<T>
  {
    var restriction := Restriction(query);
    if restriction.Some? && !TypeMatch.Matches(restriction.value, contentType.fullName, contentType.name) then
      RouteResult(FilteredOut, rd, [])
    else
      CopyAndResolve(contentType, target, lazyData, divertOverride, env, query, restriction.Some?, rd)
  }

  /**
   * The steps after the type filter: copy the query's tokens into the data
   * tokens (a clash ends the request), then go on with resolution.
   */
  function CopyAndResolve<T>(
    contentType: ContentType, target: RouterRef, lazyData: bool, divertOverride: Option<Diverter<T>>,
    env: Environment<T>, query: Query, typeSpecified: bool, rd: RouteState<T>): RouteResult<T>
  {
    var tokens := SpecialTokens(query, env.pagingKeys);
    if tokens.Keys * rd.dataTokens.Keys != {} then
      RouteResult(DuplicateKey, rd, [])
    else
      ResolveAndDispatch(contentType, target, lazyData, divertOverride, env, query, typeSpecified,
                         rd.(dataTokens := rd.dataTokens + tokens))
  }

  /**
   * The steps after the query's tokens are in the route data: resolve the
   * data, raise the intercept event, pick the diversion target, then
   * create-or-abandon and dispatch.
   */
  function ResolveAndDispatch<T>(
    contentType: ContentType, target: RouterRef, lazyData: bool, divertOverride: Option<Diverter<T>>,
    env: Environment<T>, query: Query, typeSpecified: bool, rd: RouteState<T>): RouteResult<T>
  {
    var resolved := GetData(env.checkExistenceBySummary, contentType.isList, lazyData, env.store, rd);
    var reply := env.intercept(InterceptEvent(query, resolved.data, contentType, rd));
    if reply.wasHandled then
      if reply.keepsRouteData then
        RouteResult(Handled(true), rd, resolved.calls + [Intercept, Dispatch(target)])
      else
        RouteResult(Handled(false), rd, resolved.calls + [Intercept])
    else
      var divert := divertOverride.GetOr(env.registeredDiverter);
      var divertRouter := divert(target, rd, resolved.data);
      CreateAndDispatch(typeSpecified, divertRouter, target, env.store, resolved.data, rd,
                        resolved.calls + [Intercept, Divert])
  }
}

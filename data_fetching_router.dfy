/**
 * The router object itself: `DataFetchingRouter<T>` with its two
 * configuration fields, and the route data it updates in place. Its
 * `RouteAsync` runs the request step by step and is proved to do what
 * `RouteModel.Route` describes.
 */
module Routing {
  import opened Wrappers
  import opened RouteModel
  import TypeMatch

  /** Every entry of `a` is in `b`, with the same value. */
  ghost predicate Submap<K, V>(a: map<K, V>, b: map<K, V>) {
    forall k :: k in a ==> k in b && a[k] == b[k]
  }

  /** The route data of one request, which the router extends in place. */
  class RouteData<T> {
    var values: map<string, Value<T>>
    var dataTokens: map<string, Value<T>>

    constructor (values: map<string, Value<T>>, dataTokens: map<string, Value<T>>)
      ensures this.values == values && this.dataTokens == dataTokens
    {
      this.values := values;
      this.dataTokens := dataTokens;
    }

    /** The route data as a value. */
    function State(): RouteState<T>
      reads this
    {
      RouteState(values, dataTokens)
    }

    /** DataTokens.Add: adds the entry, or fails when the key is already there. */
    method AddDataToken(key: string, value: Value<T>) returns (added: bool)
      modifies this
      ensures added == (key !in old(dataTokens))
      ensures dataTokens == if added then old(dataTokens)[key := value] else old(dataTokens)
      ensures values == old(values)
    {
      added := key !in dataTokens;
      if added {
        dataTokens := dataTokens[key := value];
      }
    }

    /** Values.Add: adds the entry, or fails when the key is already there. */
    method AddValue(key: string, value: Value<T>) returns (added: bool)
      modifies this
      ensures added == (key !in old(values))
      ensures values == if added then old(values)[key := value] else old(values)
      ensures dataTokens == old(dataTokens)
    {
      added := key !in values;
      if added {
        values := values[key := value];
      }
    }
  }

  /**
   * Copies `$filter` and the paging keys present in the query into the
   * data tokens, each with its first value, in the dictionary's own order.
   * `clash` reports that one of them was already a data token; the copy
   * stops there, leaving the tokens added so far.
   */
  method CopySpecialTokens<T>(context: RouteData<T>, query: Query, pagingKeys: seq<string>) returns (clash: bool)
    modifies context
    ensures context.values == old(context.values)
    ensures clash == (SpecialTokens<T>(query, pagingKeys).Keys * old(context.dataTokens).Keys != {})
    ensures !clash ==> context.dataTokens == old(context.dataTokens) + SpecialTokens(query, pagingKeys)
    ensures clash ==>
      Submap(old(context.dataTokens), context.dataTokens) &&
      Submap(context.dataTokens, SpecialTokens(query, pagingKeys) + old(context.dataTokens))
  {
    var special := [FilterKey] + pagingKeys;
    var pending := query.Keys;
    ghost var done: set<string> := {};
    while pending != {}
      invariant pending !! done && pending + done == query.Keys
      invariant context.values == old(context.values)
      invariant TokensAmong<T>(query, pagingKeys, done).Keys !! old(context.dataTokens).Keys
      invariant context.dataTokens == old(context.dataTokens) + TokensAmong(query, pagingKeys, done)
      decreases pending
    {
      var key :| key in pending;
      if key in special {
        var added := context.AddDataToken(key, Text(query[key][0]));
        if !added {
          assert key in SpecialTokens<T>(query, pagingKeys).Keys * old(context.dataTokens).Keys;
          return true;
        }
      }
      pending := pending - {key};
      done := done + {key};
    }
    assert TokensAmong<T>(query, pagingKeys, done) == SpecialTokens(query, pagingKeys);
    return false;
  }

  /**
   * The content-resolving route decorator for content type `T`, wrapping
   * the default `target` router. `contentType` is what reflection reports
   * about `T`.
   */
  class DataFetchingRouter<T> {
    const target: RouterRef
    const contentType: ContentType
    var lazyData: bool
    var divertOverride: Option<Diverter<T>>

    constructor (target: RouterRef, contentType: ContentType)
      ensures this.target == target && this.contentType == contentType
      ensures !lazyData && divertOverride.None?
    {
      this.target := target;
      this.contentType := contentType;
      this.lazyData := false;
      this.divertOverride := None;
    }

    constructor WithOptions(target: RouterRef, contentType: ContentType, lazyData: bool, divertOverride: Option<Diverter<T>>)
      ensures this.target == target && this.contentType == contentType
      ensures this.lazyData == lazyData && this.divertOverride == divertOverride
    {
      this.target := target;
      this.contentType := contentType;
      this.lazyData := lazyData;
      this.divertOverride := divertOverride;
    }

    /**
     * Routes one request. The outcome, the calls made and the final route
     * data are those `Route` gives, except that a clash while copying the
     * query's tokens leaves the data tokens between their old value and
     * the old value plus the query's tokens.
     */
    method RouteAsync(context: RouteData<T>, query: Query, env: Environment<T>) returns (outcome: Outcome, calls: seq<Call>)
      modifies context
      ensures var spec := Route(contentType, target, lazyData, divertOverride, env, query, old(context.State()));
        outcome == spec.outcome && calls == spec.calls
      ensures var spec := Route(contentType, target, lazyData, divertOverride, env, query, old(context.State()));
        !(outcome == DuplicateKey && calls == []) ==> context.State() == spec.state
      ensures outcome == DuplicateKey && calls == [] ==>
        context.values == old(context.values) &&
        Submap(old(context.dataTokens), context.dataTokens) &&
        Submap(context.dataTokens, SpecialTokens(query, env.pagingKeys) + old(context.dataTokens))
    {
      var typeSpecified := false;
      if TypeKey in query || CreateKey in query {
        var typeSpec := if TypeKey in query then query[TypeKey][0] else query[CreateKey][0];
        if !TypeMatch.Matches(typeSpec, contentType.fullName, contentType.name) {
          return FilteredOut, [];
        }
        typeSpecified := true;
      }

      outcome, calls := CopyTokensThenResolve(context, query, env, typeSpecified);
    }

    /**
     * RouteAsync past the type filter: copy the query's tokens, stopping
     * on a clash, then resolve, intercept, divert and dispatch.
     */
    method CopyTokensThenResolve(context: RouteData<T>, query: Query, env: Environment<T>, typeSpecified: bool)
      returns (outcome: Outcome, calls: seq<Call>)
      modifies context
      ensures var spec := CopyAndResolve(contentType, target, lazyData, divertOverride, env, query, typeSpecified, old(context.State()));
        outcome == spec.outcome && calls == spec.calls
      ensures var spec := CopyAndResolve(contentType, target, lazyData, divertOverride, env, query, typeSpecified, old(context.State()));
        !(outcome == DuplicateKey && calls == []) ==> context.State() == spec.state
      ensures outcome == DuplicateKey && calls == [] ==>
        context.values == old(context.values) &&
        Submap(old(context.dataTokens), context.dataTokens) &&
        Submap(context.dataTokens, SpecialTokens(query, env.pagingKeys) + old(context.dataTokens))
    {
      var clash := CopySpecialTokens(context, query, env.pagingKeys);
      if clash {
        return DuplicateKey, [];
      }
      outcome, calls := ResolveInterceptDivert(context, query, env, typeSpecified);
    }

    /**
     * The middle of RouteAsync: resolve the data, raise the intercept
     * event (stopping, with or without a dispatch to the default target,
     * when a subscriber handled the request), pick the diversion target
     * and go on to create-or-abandon and dispatch.
     */
    method ResolveInterceptDivert(context: RouteData<T>, query: Query, env: Environment<T>, typeSpecified: bool)
      returns (outcome: Outcome, calls: seq<Call>)
      modifies context
      ensures var spec := ResolveAndDispatch(contentType, target, lazyData, divertOverride, env, query, typeSpecified, old(context.State()));
        outcome == spec.outcome && calls == spec.calls && context.State() == spec.state
    {
      var resolved := GetData(env.checkExistenceBySummary, contentType.isList, lazyData, env.store, context.State());
      var data := resolved.data;
      calls := resolved.calls;

      var reply := env.intercept(InterceptEvent(query, data, contentType, context.State()));
      calls := calls + [Intercept];
      if reply.wasHandled {
        if reply.keepsRouteData {
          calls := calls + [Dispatch(target)];
        }
        return Handled(reply.keepsRouteData), calls;
      }

      var divert := divertOverride.GetOr(env.registeredDiverter);
      var divertRouter := divert(target, context.State(), data);
      calls := calls + [Divert];
      outcome, calls := CreateOrAbandonThenDispatch(context, typeSpecified, divertRouter, env.store, data, calls);
    }

    /**
     * The tail of RouteAsync: with no data, create a new item (flagging it
     * in the data tokens) when a type was specified and a diversion target
     * exists, or else abandon; then add the data to the route values and
     * dispatch to the diversion target, or to the default target.
     */
    method CreateOrAbandonThenDispatch(
      context: RouteData<T>, typeSpecified: bool, divertRouter: Option<RouterRef>, store: ContentStore<T>,
      data: Data<T>, callsSoFar: seq<Call>)
      returns (outcome: Outcome, calls: seq<Call>)
      modifies context
      ensures var spec := CreateAndDispatch(typeSpecified, divertRouter, target, store, data, old(context.State()), callsSoFar);
        outcome == spec.outcome && calls == spec.calls && context.State() == spec.state
    {
      var item := data;
      calls := callsSoFar;
      if item.Null? {
        if typeSpecified && divertRouter.Some? {
          item := Loaded(store.create(context.State()));
          calls := calls + [Create];
          var added := context.AddDataToken(NewItemKey, Flag(true));
          if !added {
            return DuplicateKey, calls;
          }
        } else {
          return NotFound, calls;
        }
      }

      var added := context.AddValue(DataKey, Content(item));
      if !added {
        return DuplicateKey, calls;
      }
      var router := divertRouter.GetOr(target);
      calls := calls + [Dispatch(router)];
      outcome := Dispatched(router);
    }
  }
}

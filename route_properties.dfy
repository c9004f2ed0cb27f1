/**
 * What one request through `DataFetchingRouter<T>` can and cannot do,
 * proved about `RouteModel.Route` for every query, route data,
 * configuration and collaborator behaviour.
 */
module RouteProperties {
  import opened Wrappers
  import opened RouteModel
  import TypeMatch

  /** The type restriction, if any, selects this content type. */
  predicate PassesFilter(ct: ContentType, query: Query) {
    var restriction := Restriction(query);
    restriction.None? || TypeMatch.Matches(restriction.value, ct.fullName, ct.name)
  }

  /** Some `$filter` or paging key of the query is already a data token. */
  predicate TokensClash<T>(env: Environment<T>, query: Query, rd: RouteState<T>) {
    SpecialTokens<T>(query, env.pagingKeys).Keys * rd.dataTokens.Keys != {}
  }

  /** The route data once the query's tokens are copied in. */
  function WithTokens<T>(env: Environment<T>, query: Query, rd: RouteState<T>): RouteState<T> {
    rd.(dataTokens := rd.dataTokens + SpecialTokens(query, env.pagingKeys))
  }

  /** The data that resolution yields for this request. */
  function Resolved<T>(ct: ContentType, lazyData: bool, env: Environment<T>, query: Query, rd: RouteState<T>): Data<T> {
    GetData(env.checkExistenceBySummary, ct.isList, lazyData, env.store, WithTokens(env, query, rd)).data
  }

  /** The intercept event's payload as the subscribers leave it. */
  function Reply<T>(ct: ContentType, lazyData: bool, env: Environment<T>, query: Query, rd: RouteState<T>): InterceptReply {
    env.intercept(InterceptEvent(query, Resolved(ct, lazyData, env, query, rd), ct, WithTokens(env, query, rd)))
  }

  /** The diversion target the active diverter picks. */
  function DivertTarget<T>(
    ct: ContentType, target: RouterRef, lazyData: bool, divertOverride: Option<Diverter<T>>,
    env: Environment<T>, query: Query, rd: RouteState<T>): Option<RouterRef>
  {
    divertOverride.GetOr(env.registeredDiverter)(target, WithTokens(env, query, rd), Resolved(ct, lazyData, env, query, rd))
  }

  /** How many routers a sequence of calls dispatches to. */
  function DispatchCount(calls: seq<Call>): nat {
    if calls == [] then 0 else (if calls[0].Dispatch? then 1 else 0) + DispatchCount(calls[1..])
  }

  /** The position of each kind of call in the router's fixed sequence of steps. */
  function Rank(c: Call): nat {
    match c
    case SummaryLookup => 0
    case Fetch => 1
    case Intercept => 2
    case Divert => 3
    case Create => 4
    case Dispatch(_) => 5
  }

  /** The calls follow the fixed sequence of steps, each step at most once. */
  predicate InPipelineOrder(calls: seq<Call>) {
    forall i, j :: 0 <= i < j < |calls| ==> Rank(calls[i]) < Rank(calls[j])
  }

  /**
   * The whole decision, flat: filter, token clash, interception,
   * create-or-abandon, the "LynNewItem" and "data" clashes, dispatch.
   */
  lemma OutcomeTable<T>(
    ct: ContentType, target: RouterRef, lazyData: bool, divertOverride: Option<Diverter<T>>,
    env: Environment<T>, query: Query, rd: RouteState<T>)
    ensures var data, divert := Resolved(ct, lazyData, env, query, rd), DivertTarget(ct, target, lazyData, divertOverride, env, query, rd);
      Route(ct, target, lazyData, divertOverride, env, query, rd).outcome ==
        if !PassesFilter(ct, query) then FilteredOut
        else if TokensClash(env, query, rd) then DuplicateKey
        else if Reply(ct, lazyData, env, query, rd).wasHandled then Handled(Reply(ct, lazyData, env, query, rd).keepsRouteData)
        else if data.Null? && !(Restriction(query).Some? && divert.Some?) then NotFound
        else if data.Null? && NewItemKey in WithTokens(env, query, rd).dataTokens then DuplicateKey
        else if DataKey in rd.values then DuplicateKey
        else Dispatched(divert.GetOr(target))
  {
  }

  /**
   * A `$type`/`$create` token that does not select the content type ends
   * the request first: no data token, no resolution, no event, no dispatch.
   */
  lemma FilteredOutBeforeAnyStep<T>(
    ct: ContentType, target: RouterRef, lazyData: bool, divertOverride: Option<Diverter<T>>,
    env: Environment<T>, query: Query, rd: RouteState<T>)
    ensures var r := Route(ct, target, lazyData, divertOverride, env, query, rd);
      (r.outcome == FilteredOut <==> !PassesFilter(ct, query)) &&
      (r.outcome == FilteredOut ==> r.state == rd && r.calls == [])
  {
  }

  /**
   * For `BlogPostContent`: `$type` is read before `$create`, and only its
   * first value counts.
   */
  lemma TypeTokenBeforeCreateToken<T>(
    target: RouterRef, lazyData: bool, divertOverride: Option<Diverter<T>>, env: Environment<T>, rd: RouteState<T>)
    ensures var ct := ContentType(TypeMatch.BlogPostFullName, TypeMatch.BlogPostName, false);
      && Route(ct, target, lazyData, divertOverride, env, map[TypeKey := ["blog"], CreateKey := ["blogpost"]], rd).outcome == FilteredOut
      && Route(ct, target, lazyData, divertOverride, env, map[CreateKey := ["blogpost"]], rd).outcome != FilteredOut
      && Route(ct, target, lazyData, divertOverride, env, map[TypeKey := ["blogpost", "blog"]], rd).outcome != FilteredOut
  {
    TypeMatch.BlogPostShortNameExamples();
    var ct := ContentType(TypeMatch.BlogPostFullName, TypeMatch.BlogPostName, false);
    FilteredOutBeforeAnyStep(ct, target, lazyData, divertOverride, env, map[TypeKey := ["blog"], CreateKey := ["blogpost"]], rd);
    FilteredOutBeforeAnyStep(ct, target, lazyData, divertOverride, env, map[CreateKey := ["blogpost"]], rd);
    FilteredOutBeforeAnyStep(ct, target, lazyData, divertOverride, env, map[TypeKey := ["blogpost", "blog"]], rd);
  }

  /** `$filter` and the paging keys present in the query, and no other key, become data tokens, each with its first value. */
  lemma SpecialTokensExactly<T>(query: Query, pagingKeys: seq<string>)
    ensures forall k :: k in SpecialTokens<T>(query, pagingKeys) <==> k in query && (k == FilterKey || k in pagingKeys)
    ensures forall k :: k in SpecialTokens<T>(query, pagingKeys) ==> SpecialTokens<T>(query, pagingKeys)[k] == Text(query[k][0])
  {
  }

  /** The stages of `Route`: the type filter, the token clash, then the steps after the tokens are copied. */
  lemma RouteStages<T>(
    ct: ContentType, target: RouterRef, lazyData: bool, divertOverride: Option<Diverter<T>>,
    env: Environment<T>, query: Query, rd: RouteState<T>)
    ensures var r := Route(ct, target, lazyData, divertOverride, env, query, rd);
      if !PassesFilter(ct, query) then r == RouteResult(FilteredOut, rd, [])
      else if TokensClash(env, query, rd) then r == RouteResult(DuplicateKey, rd, [])
      else r == ResolveAndDispatch(ct, target, lazyData, divertOverride, env, query, Restriction(query).Some?, WithTokens(env, query, rd))
  {
  }

  /**
   * Past the filter, the data tokens are the old ones plus the query's
   * special tokens, and at most a "LynNewItem" flag; the route values gain
   * at most the "data" entry.
   */
  lemma EntriesAdded<T>(
    ct: ContentType, target: RouterRef, lazyData: bool, divertOverride: Option<Diverter<T>>,
    env: Environment<T>, query: Query, rd: RouteState<T>)
    ensures var r := Route(ct, target, lazyData, divertOverride, env, query, rd);
      Intercept in r.calls ==>
        && (r.state.dataTokens == rd.dataTokens + SpecialTokens(query, env.pagingKeys)
            || (Create in r.calls && r.state.dataTokens == (rd.dataTokens + SpecialTokens(query, env.pagingKeys))[NewItemKey := Flag(true)]))
        && (r.state.values == rd.values ||
            (r.outcome.Dispatched? && DataKey !in rd.values && DataKey in r.state.values &&
             r.state.values == rd.values[DataKey := r.state.values[DataKey]]))
  {
    RouteStages(ct, target, lazyData, divertOverride, env, query, rd);
    if PassesFilter(ct, query) && !TokensClash(env, query, rd) {
      ResolveEntriesAdded(ct, target, lazyData, divertOverride, env, query, Restriction(query).Some?, WithTokens(env, query, rd));
    }
  }

  /** `EntriesAdded`, for the steps after the tokens are copied. */
  lemma ResolveEntriesAdded<T>(
    ct: ContentType, target: RouterRef, lazyData: bool, divertOverride: Option<Diverter<T>>,
    env: Environment<T>, query: Query, typeSpecified: bool, rd: RouteState<T>)
    ensures var r := ResolveAndDispatch(ct, target, lazyData, divertOverride, env, query, typeSpecified, rd);
      && (r.state.dataTokens == rd.dataTokens || (Create in r.calls && r.state.dataTokens == rd.dataTokens[NewItemKey := Flag(true)]))
      && (r.state.values == rd.values ||
          (r.outcome.Dispatched? && DataKey !in rd.values && DataKey in r.state.values &&
           r.state.values == rd.values[DataKey := r.state.values[DataKey]]))
  {
    var resolved := GetData(env.checkExistenceBySummary, ct.isList, lazyData, env.store, rd);
    var reply := env.intercept(InterceptEvent(query, resolved.data, ct, rd));
    if !reply.wasHandled {
      var divert := divertOverride.GetOr(env.registeredDiverter)(target, rd, resolved.data);
      var before := resolved.calls + [Intercept, Divert];
      var r := CreateAndDispatch(typeSpecified, divert, target, env.store, resolved.data, rd, before);
      assert r.calls == before || r.calls == before + [Create] || r.calls == before + [Dispatch(divert.GetOr(target))]
          || r.calls == before + [Create, Dispatch(divert.GetOr(target))];
    }
  }

  /**
   * A subscriber that handles the request ends it: no diversion, no
   * creation, no "data" entry, and a dispatch exactly when the payload's
   * route-data reference is non-null.
   */
  lemma HandledShortCircuits<T>(
    ct: ContentType, target: RouterRef, lazyData: bool, divertOverride: Option<Diverter<T>>,
    env: Environment<T>, query: Query, rd: RouteState<T>)
    ensures var r := Route(ct, target, lazyData, divertOverride, env, query, rd);
      r.outcome.Handled? ==>
        && Divert !in r.calls && Create !in r.calls
        && r.state == WithTokens(env, query, rd)
        && r.outcome.redispatched == Reply(ct, lazyData, env, query, rd).keepsRouteData
  {
    RouteStages(ct, target, lazyData, divertOverride, env, query, rd);
  }

  /**
   * The instance-level override, when set, replaces the registered
   * diverter: the registered one has no influence on the request.
   */
  lemma DivertOverrideWins<T>(
    ct: ContentType, target: RouterRef, lazyData: bool, divertOverride: Option<Diverter<T>>,
    env: Environment<T>, query: Query, rd: RouteState<T>, registered: Diverter<T>)
    requires divertOverride.Some?
    ensures Route(ct, target, lazyData, divertOverride, env, query, rd)
         == Route(ct, target, lazyData, divertOverride, env.(registeredDiverter := registered), query, rd)
  {
  }

  /**
   * The instance-level override is used instead of the registered
   * diverter: routing with the override set behaves as routing with no
   * override and that diverter registered.
   */
  lemma DivertOverrideUsedInstead<T>(
    ct: ContentType, target: RouterRef, lazyData: bool, divert: Diverter<T>,
    env: Environment<T>, query: Query, rd: RouteState<T>)
    ensures Route(ct, target, lazyData, Some(divert), env, query, rd)
         == Route(ct, target, lazyData, None, env.(registeredDiverter := divert), query, rd)
  {
  }

  /**
   * With no data: an item is created and flagged "LynNewItem" exactly when
   * a type was specified and a diversion target exists; otherwise the
   * request is abandoned with the route data as the tokens left it. The
   * diverter is consulted either way.
   */
  lemma AbsentDataCreatesOrAbandons<T>(
    ct: ContentType, target: RouterRef, lazyData: bool, divertOverride: Option<Diverter<T>>,
    env: Environment<T>, query: Query, rd: RouteState<T>)
    requires PassesFilter(ct, query) && !TokensClash(env, query, rd)
    requires !Reply(ct, lazyData, env, query, rd).wasHandled
    requires Resolved(ct, lazyData, env, query, rd).Null?
    ensures var r := Route(ct, target, lazyData, divertOverride, env, query, rd);
      var canCreate := Restriction(query).Some? && DivertTarget(ct, target, lazyData, divertOverride, env, query, rd).Some?;
      && Divert in r.calls
      && (Create in r.calls <==> canCreate)
      && (r.outcome == NotFound <==> !canCreate)
      && (!canCreate ==> r.state == WithTokens(env, query, rd))
      && (canCreate && r.outcome.Dispatched? ==>
            r.state.dataTokens == WithTokens(env, query, rd).dataTokens[NewItemKey := Flag(true)] &&
            r.state.values[DataKey] == Content(Loaded(env.store.create(WithTokens(env, query, rd)))))
  {
    var rd1 := WithTokens(env, query, rd);
    var resolved := GetData(env.checkExistenceBySummary, ct.isList, lazyData, env.store, rd1);
    assert Create !in resolved.calls;
  }

  /**
   * On dispatch, "data" holds the resolved (or new) item, never null, and
   * the one router dispatched is the diversion target when there is one,
   * else the default target.
   */
  lemma DispatchAttachesData<T>(
    ct: ContentType, target: RouterRef, lazyData: bool, divertOverride: Option<Diverter<T>>,
    env: Environment<T>, query: Query, rd: RouteState<T>)
    ensures var r := Route(ct, target, lazyData, divertOverride, env, query, rd);
      var divert := DivertTarget(ct, target, lazyData, divertOverride, env, query, rd);
      var data := Resolved(ct, lazyData, env, query, rd);
      r.outcome.Dispatched? ==>
        && r.outcome.router == (if divert.Some? then divert.value else target)
        && DataKey !in rd.values
        && r.state.values == rd.values[DataKey := Content(if data.Null? then Loaded(env.store.create(WithTokens(env, query, rd))) else data)]
        && !r.state.values[DataKey].data.Null?
        && r.calls[|r.calls| - 1] == Dispatch(r.outcome.router)
  {
  }

  /**
   * A request ends with a dispatch exactly when it ends in `Dispatched`
   * (to the router named there) or in a handled re-dispatch (to the
   * default target).
   */
  lemma LastCallDispatches<T>(
    ct: ContentType, target: RouterRef, lazyData: bool, divertOverride: Option<Diverter<T>>,
    env: Environment<T>, query: Query, rd: RouteState<T>)
    ensures var r := Route(ct, target, lazyData, divertOverride, env, query, rd);
      && ((r.calls != [] && r.calls[|r.calls| - 1].Dispatch?) <==> (r.outcome.Dispatched? || r.outcome == Handled(true)))
      && (r.outcome.Dispatched? ==> r.calls[|r.calls| - 1] == Dispatch(r.outcome.router))
      && (r.outcome == Handled(true) ==> r.calls[|r.calls| - 1] == Dispatch(target))
  {
    if PassesFilter(ct, query) && !TokensClash(env, query, rd) {
      ResolveAndDispatchLast(ct, target, lazyData, divertOverride, env, query, Restriction(query).Some?, WithTokens(env, query, rd));
    }
  }

  /** `LastCallDispatches`, for the steps after the tokens are copied. */
  lemma ResolveAndDispatchLast<T>(
    ct: ContentType, target: RouterRef, lazyData: bool, divertOverride: Option<Diverter<T>>,
    env: Environment<T>, query: Query, typeSpecified: bool, rd: RouteState<T>)
    ensures var r := ResolveAndDispatch(ct, target, lazyData, divertOverride, env, query, typeSpecified, rd);
      && ((r.calls != [] && r.calls[|r.calls| - 1].Dispatch?) <==> (r.outcome.Dispatched? || r.outcome == Handled(true)))
      && (r.outcome.Dispatched? ==> r.calls[|r.calls| - 1] == Dispatch(r.outcome.router))
      && (r.outcome == Handled(true) ==> r.calls[|r.calls| - 1] == Dispatch(target))
  {
    var resolved := GetData(env.checkExistenceBySummary, ct.isList, lazyData, env.store, rd);
    var reply := env.intercept(InterceptEvent(query, resolved.data, ct, rd));
    if !reply.wasHandled {
      var divert := divertOverride.GetOr(env.registeredDiverter)(target, rd, resolved.data);
      CreateAndDispatchLast(typeSpecified, divert, target, env.store, resolved.data, rd, resolved.calls + [Intercept, Divert]);
    }
  }

  /** After a call that is not a dispatch, create-or-abandon ends with a dispatch exactly when it dispatches. */
  lemma CreateAndDispatchLast<T>(
    typeSpecified: bool, divertRouter: Option<RouterRef>, target: RouterRef, store: ContentStore<T>,
    data: Data<T>, rd: RouteState<T>, calls: seq<Call>)
    requires calls != [] && !calls[|calls| - 1].Dispatch?
    ensures var r := CreateAndDispatch(typeSpecified, divertRouter, target, store, data, rd, calls);
      && r.calls != []
      && (r.calls[|r.calls| - 1].Dispatch? <==> r.outcome.Dispatched?)
      && (r.outcome.Dispatched? ==> r.calls[|r.calls| - 1] == Dispatch(r.outcome.router))
  {
  }

  /**
   * Every request dispatches to at most one router: exactly one when it
   * ends in a dispatch or a handled re-dispatch, none otherwise.
   */
  lemma AtMostOneDispatch<T>(
    ct: ContentType, target: RouterRef, lazyData: bool, divertOverride: Option<Diverter<T>>,
    env: Environment<T>, query: Query, rd: RouteState<T>)
    ensures var r := Route(ct, target, lazyData, divertOverride, env, query, rd);
      DispatchCount(r.calls) == (if r.outcome.Dispatched? || r.outcome == Handled(true) then 1 else 0)
  {
    var r := Route(ct, target, lazyData, divertOverride, env, query, rd);
    CallsInPipelineOrder(ct, target, lazyData, divertOverride, env, query, rd);
    LastCallDispatches(ct, target, lazyData, divertOverride, env, query, rd);
    OrderedDispatchCount(r.calls);
  }

  /** In an ordered run of calls, only the last can be a dispatch. */
  lemma {:induction false} OrderedDispatchCount(calls: seq<Call>)
    requires InPipelineOrder(calls)
    ensures DispatchCount(calls) == if calls != [] && calls[|calls| - 1].Dispatch? then 1 else 0
  {
    if calls != [] {
      var rest := calls[1..];
      assert InPipelineOrder(rest) by {
        forall i, j | 0 <= i < j < |rest| ensures Rank(rest[i]) < Rank(rest[j]) {
          assert rest[i] == calls[i + 1] && rest[j] == calls[j + 1];
        }
      }
      OrderedDispatchCount(rest);
      if calls[0].Dispatch? {
        assert rest == [];
      } else if rest != [] {
        assert rest[|rest| - 1] == calls[|calls| - 1];
      }
    }
  }

  /**
   * The collaborators are called in the fixed order summary lookup, fetch,
   * intercept, divert, create, dispatch, each at most once: at most one
   * resolution, the event before any diversion or creation, the diversion
   * before the creation decision.
   */
  lemma CallsInPipelineOrder<T>(
    ct: ContentType, target: RouterRef, lazyData: bool, divertOverride: Option<Diverter<T>>,
    env: Environment<T>, query: Query, rd: RouteState<T>)
    ensures InPipelineOrder(Route(ct, target, lazyData, divertOverride, env, query, rd).calls)
  {
    if PassesFilter(ct, query) && !TokensClash(env, query, rd) {
      ResolveAndDispatchOrdered(ct, target, lazyData, divertOverride, env, query, Restriction(query).Some?, WithTokens(env, query, rd));
    }
  }

  /** `CallsInPipelineOrder`, for the steps after the tokens are copied. */
  lemma ResolveAndDispatchOrdered<T>(
    ct: ContentType, target: RouterRef, lazyData: bool, divertOverride: Option<Diverter<T>>,
    env: Environment<T>, query: Query, typeSpecified: bool, rd: RouteState<T>)
    ensures InPipelineOrder(ResolveAndDispatch(ct, target, lazyData, divertOverride, env, query, typeSpecified, rd).calls)
  {
    var resolved := GetData(env.checkExistenceBySummary, ct.isList, lazyData, env.store, rd);
    var reply := env.intercept(InterceptEvent(query, resolved.data, ct, rd));
    if reply.wasHandled {
      HandledOrdered(resolved.calls, target, reply.keepsRouteData);
    } else {
      var divert := divertOverride.GetOr(env.registeredDiverter)(target, rd, resolved.data);
      UnhandledOrdered(typeSpecified, divert, target, env.store, resolved.data, rd, resolved.calls);
    }
  }

  /** A handled request's calls: resolution, the event, then possibly the default target. */
  lemma HandledOrdered(resolutionCalls: seq<Call>, target: RouterRef, redispatched: bool)
    requires resolutionCalls == [] || resolutionCalls == [SummaryLookup] || resolutionCalls == [Fetch] || resolutionCalls == [SummaryLookup, Fetch]
    ensures InPipelineOrder(resolutionCalls + if redispatched then [Intercept, Dispatch(target)] else [Intercept])
  {
    ResolutionCalls(resolutionCalls);
    HandledTail(target, redispatched);
    OrderAppend(resolutionCalls, if redispatched then [Intercept, Dispatch(target)] else [Intercept], 2);
  }

  /** An unhandled request's calls: resolution, the event, the diversion, then create-or-abandon and dispatch. */
  lemma UnhandledOrdered<T>(
    typeSpecified: bool, divertRouter: Option<RouterRef>, target: RouterRef, store: ContentStore<T>,
    data: Data<T>, rd: RouteState<T>, resolutionCalls: seq<Call>)
    requires resolutionCalls == [] || resolutionCalls == [SummaryLookup] || resolutionCalls == [Fetch] || resolutionCalls == [SummaryLookup, Fetch]
    ensures InPipelineOrder(CreateAndDispatch(typeSpecified, divertRouter, target, store, data, rd, resolutionCalls + [Intercept, Divert]).calls)
  {
    var before := resolutionCalls + [Intercept, Divert];
    var r := CreateAndDispatch(typeSpecified, divertRouter, target, store, data, rd, before);
    ResolutionCalls(resolutionCalls);
    UnhandledHead();
    OrderAppend(resolutionCalls, [Intercept, Divert], 2);
    CreateAndDispatchSuffix(typeSpecified, divertRouter, target, store, data, rd, before);
    OrderAppend(before, r.calls[|before|..], 4);
  }

  /** Resolution makes at most a summary lookup and then at most a fetch. */
  lemma ResolutionCalls(calls: seq<Call>)
    requires calls == [] || calls == [SummaryLookup] || calls == [Fetch] || calls == [SummaryLookup, Fetch]
    ensures InPipelineOrder(calls) && forall c :: c in calls ==> Rank(c) < 2
  {
  }

  /** After a handled event: the event, then possibly the default target. */
  lemma HandledTail(target: RouterRef, redispatched: bool)
    ensures var tail := if redispatched then [Intercept, Dispatch(target)] else [Intercept];
      InPipelineOrder(tail) && forall c :: c in tail ==> Rank(c) >= 2
  {
  }

  /** After an unhandled event: the event, then the diversion. */
  lemma UnhandledHead()
    ensures InPipelineOrder([Intercept, Divert])
  {
  }

  /** After create-or-abandon the calls gain at most a creation and then at most one dispatch. */
  lemma CreateAndDispatchSuffix<T>(
    typeSpecified: bool, divertRouter: Option<RouterRef>, target: RouterRef, store: ContentStore<T>,
    data: Data<T>, rd: RouteState<T>, calls: seq<Call>)
    ensures var r := CreateAndDispatch(typeSpecified, divertRouter, target, store, data, rd, calls);
      && |calls| <= |r.calls|
      && r.calls == calls + r.calls[|calls|..]
      && InPipelineOrder(r.calls[|calls|..])
      && (forall c :: c in r.calls[|calls|..] ==> Rank(c) >= 4)
  {
    var r := CreateAndDispatch(typeSpecified, divertRouter, target, store, data, rd, calls);
    var router := divertRouter.GetOr(target);
    if data.Null? && !(typeSpecified && divertRouter.Some?) {
      assert r.calls[|calls|..] == [];
    } else if data.Null? && NewItemKey in rd.dataTokens {
      assert r.calls[|calls|..] == [Create];
    } else if data.Null? {
      if DataKey in rd.values {
        assert r.calls[|calls|..] == [Create];
      } else {
        assert r.calls[|calls|..] == [Create, Dispatch(router)];
      }
    } else {
      if DataKey in rd.values {
        assert r.calls[|calls|..] == [];
      } else {
        assert r.calls[|calls|..] == [Dispatch(router)];
      }
    }
  }

  /** Two ordered runs of calls, the first all before step `k` and the second all from it on, make one ordered run. */
  lemma OrderAppend(a: seq<Call>, b: seq<Call>, k: nat)
    requires InPipelineOrder(a) && InPipelineOrder(b)
    requires forall x :: x in a ==> Rank(x) < k
    requires forall y :: y in b ==> Rank(y) >= k
    ensures InPipelineOrder(a + b)
    ensures forall x :: x in a + b ==> x in a || x in b
  {
    forall i, j | 0 <= i < j < |a + b|
      ensures Rank((a + b)[i]) < Rank((a + b)[j])
    {
      if j < |a| {
        assert (a + b)[i] == a[i] && (a + b)[j] == a[j];
      } else if i >= |a| {
        assert (a + b)[i] == b[i - |a|] && (a + b)[j] == b[j - |a|];
      } else {
        assert (a + b)[i] == a[i] && (a + b)[j] == b[j - |a|];
      }
    }
  }

  /**
   * With lazy data and no existence check in force, the data is never
   * null: nothing is fetched during routing, no item is created and the
   * request is never abandoned for want of data.
   */
  lemma LazyDataNeverMissing<T>(
    ct: ContentType, target: RouterRef, lazyData: bool, divertOverride: Option<Diverter<T>>,
    env: Environment<T>, query: Query, rd: RouteState<T>)
    requires lazyData && !(env.checkExistenceBySummary && !ct.isList)
    ensures var r := Route(ct, target, lazyData, divertOverride, env, query, rd);
      Fetch !in r.calls && Create !in r.calls && r.outcome != NotFound
  {
  }

  /** A list type is never pre-checked: the existence-check switch makes no difference to it. */
  lemma ListTypesSkipExistenceCheck<T>(lazyData: bool, store: ContentStore<T>, rd: RouteState<T>)
    ensures GetData(true, true, lazyData, store, rd) == GetData(false, true, lazyData, store, rd)
  {
  }
}

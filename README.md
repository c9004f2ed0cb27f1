# DataFetchingRouter, modelled in Dafny

This project models the per-request decision of Lynicon's content-resolving
route decorator `DataFetchingRouter<T>`, from
`LyniconANC/Routing/DataFetchingRouter.cs`. For a content type `T`, the router
takes one request through these steps:

1. **Type filter.** A `$type` or `$create` query token must select `T`. A
   token containing '.' must equal the full type name. Any other token must
   equal the short name, with or without a trailing "content". Case is ignored
   throughout.
2. **Token copy.** `$filter` and the paging keys present in the query are
   copied into the route's data tokens, each with its first value.
3. **Resolution.** The content item is resolved. When the existence check is
   on for `T` and `T` is not a list, a summary lookup comes first. The result
   is then a lazy wrapper, the fetched item, or null.
4. **Interception.** The "DataRoute.Intercept" event is raised. When a
   subscriber marks the request handled, the router stops, and re-dispatches
   to the default target when the payload's route-data reference is non-null.
5. **Diversion.** The diversion target is taken from the instance override,
   or else from the registered diverter.
6. **Create or abandon.** With no data, a new item is created and flagged
   with "LynNewItem" when a type was specified and a diversion target exists.
   Otherwise the request is abandoned.
7. **Dispatch.** The data is attached under "data" in the route values, and
   exactly one router is dispatched: the diversion target if there is one,
   else the default target.

Files:

- `wrappers.dfy` (`Wrappers`): the `Option` type.
- `type_match.dfy` (`TypeMatch`): lower-casing, suffix removal and the
  type-restriction predicate `Matches`, with its rules and concrete cases for
  `Lynicon.Models.BlogPostContent`.
- `route_model.dfy` (`RouteModel`): the entities and the decision as
  functions:
  - entities: query, route data, content store, intercept payload and reply,
    diverter, environment, outcome;
  - `Restriction`, `SpecialTokens`, `GetData`;
  - `Route`, through `CopyAndResolve`, `ResolveAndDispatch` and
    `CreateAndDispatch`.
- `data_fetching_router.dfy` (`Routing`): the imperative part.
  - The class `RouteData` holds the two dictionaries the router extends in
    place.
  - The class `DataFetchingRouter` holds the `LazyData` and `DivertOverride`
    configuration.
  - Its `RouteAsync` runs the steps on the mutable route data. It is proved
    to produce exactly the outcome, the calls and the final state that
    `RouteModel.Route` gives, except after a token clash, where only bounds
    on the data tokens are proved.
- `route_properties.dfy` (`RouteProperties`): what every request can and
  cannot do, proved for every query, route data, configuration and
  collaborator behaviour.

The router's collaborators are values of `RouteModel.Environment`:
- the content store (summary lookup, fetch and creation of a new item);
- the event hub's subscribers;
- the registered diverter;
- the per-type existence-check switch;
- the paging keys.

Each collaborator call is recorded in order in a `Call` trace: summary lookup,
fetch, intercept, divert, create, and dispatch to a router.

`RouteValueDictionary.Add` on the data tokens or the route values raises an
exception when the key is already present.
The model makes that the outcome `DuplicateKey`. This applies to:
- a copied token whose key is already a data token;
- "LynNewItem" when it is already a data token;
- "data" when it is already a route value.

The intercept payload carries a `RouteData` reference that subscribers may
set; it starts out as the request's own route data. The code only tests that
reference for null (lines 96-97) and, when it is non-null, dispatches the
default target with the original context, whatever the reference now points
to. The subscriber's reply is therefore modelled as `wasHandled` plus whether
the reference is non-null, and the re-dispatch always goes to the default
target with the request's route data.

## Model

| member | source | states |
|---|---|---|
| TypeMatch.LowerChar | LyniconANC/Routing/DataFetchingRouter.cs:55 | the lowered character is never an upper-case letter; A–Z map to a–z, every other character is kept |
| TypeMatch.ToLower | LyniconANC/Routing/DataFetchingRouter.cs:55 | lower-casing keeps the length and lowers each character in place |
| TypeMatch.ToLowerIdempotent | LyniconANC/Routing/DataFetchingRouter.cs:55-63 | a lowered token or type name holds no upper-case letter, and lowering it again changes nothing |
| TypeMatch.ToLowerKeepsDot | LyniconANC/Routing/DataFetchingRouter.cs:55-56 | the lowered token contains '.' exactly when the token does, so the full-name/short-name choice does not depend on case |
| TypeMatch.UpToLast | LyniconANC/Routing/DataFetchingRouter.cs:64-65 | on a name ending in "content", the result followed by "content" is the name |
| TypeMatch.ShortStem | LyniconANC/Routing/DataFetchingRouter.cs:63-65 | the stem is the lowered short name less one trailing "content" when it ends so, else the lowered short name |
| TypeMatch.FullNameRule | LyniconANC/Routing/DataFetchingRouter.cs:56-59 | a token with '.' selects the type exactly when, ignoring case, it equals the full name; no suffix is stripped and the short name plays no part |
| TypeMatch.ShortNameRule | LyniconANC/Routing/DataFetchingRouter.cs:61-67 | a token without '.' selects the type exactly when, ignoring case, it is the short name, the short name less "content", or (for a short name not ending in "content") the short name plus "content" |
| TypeMatch.MatchesIgnoresCase | LyniconANC/Routing/DataFetchingRouter.cs:55-67 | the match is unchanged when the token and both type names are lowered first |
| TypeMatch.BlogPostShortNameExamples | LyniconANC/Routing/DataFetchingRouter.cs:61-67 | for BlogPostContent, "blogpost", "blogpostcontent" and "BlogPost" match and "blog" does not |
| TypeMatch.BlogPostFullNameExamples | LyniconANC/Routing/DataFetchingRouter.cs:56-59 | for Lynicon.Models.BlogPostContent, "lynicon.models.blogpostcontent" matches and "lynicon.models.blogpost" does not |
| RouteModel.Restriction | LyniconANC/Routing/DataFetchingRouter.cs:52-54 | the restriction is the first `$type` value when `$type` is present, else the first `$create` value, and there is none exactly when both are absent |
| RouteModel.GetData | LyniconANC/Routing/DataFetchingRouter.cs:125-141 | a missing summary (check on, not a list) gives null with only the lookup and no fetch; the lookup happens exactly when the check is on and the type is not a list; otherwise lazy data gives the never-null wrapper and no fetch, eager data gives the fetch result; the data is null exactly in those two cases |
| RouteProperties.OutcomeTable | LyniconANC/Routing/DataFetchingRouter.cs:43-123 | the outcome of every request as one decision table: filtered out, token clash, handled (with or without re-dispatch), not found, "LynNewItem" clash, "data" clash, or dispatched to the diversion target or else the default target |
| RouteProperties.RouteStages | LyniconANC/Routing/DataFetchingRouter.cs:52-82 | a failed type filter ends the request with nothing changed and no call; a token clash ends it with no call; otherwise the rest runs on the route data with the query's tokens added |
| RouteProperties.FilteredOutBeforeAnyStep | LyniconANC/Routing/DataFetchingRouter.cs:52-71 | the request is filtered out exactly when a type restriction does not select the content type, and then the route data is unchanged and no collaborator is called |
| RouteProperties.TypeTokenBeforeCreateToken | LyniconANC/Routing/DataFetchingRouter.cs:54 | with `$type=blog&$create=blogpost` a BlogPostContent router filters the request out, while `$create=blogpost` alone and `$type=blogpost,blog` pass: `$type` wins and only its first value counts |
| RouteProperties.SpecialTokensExactly | LyniconANC/Routing/DataFetchingRouter.cs:73-77 | a key becomes a data token exactly when it is in the query and is `$filter` or a paging key, and its value is the key's first query value |
| RouteProperties.EntriesAdded | LyniconANC/Routing/DataFetchingRouter.cs:73-117 | once the event is raised, the data tokens are the old ones plus the query's tokens, plus the "LynNewItem" flag only when an item was created; the route values are unchanged, or, on a dispatch, gain the "data" entry while every existing entry keeps its value |
| RouteProperties.ResolveEntriesAdded | LyniconANC/Routing/DataFetchingRouter.cs:82-117 | past the token copy, the data tokens gain at most the "LynNewItem" flag, and only after a creation; the route values are unchanged, or, only on a dispatch, gain the "data" entry while every existing entry keeps its value |
| RouteProperties.HandledShortCircuits | LyniconANC/Routing/DataFetchingRouter.cs:94-98 | a handled request makes no diversion and no creation, leaves the route data as the token copy left it (no "data" entry), and re-dispatches exactly when the payload's route-data reference is non-null |
| RouteProperties.DivertOverrideWins | LyniconANC/Routing/DataFetchingRouter.cs:101 | with an override set, the registered diverter has no influence on any part of the result |
| RouteProperties.DivertOverrideUsedInstead | LyniconANC/Routing/DataFetchingRouter.cs:101 | routing with an override set gives the same result as routing with no override and that diverter registered: the override is used in its place |
| RouteProperties.AbsentDataCreatesOrAbandons | LyniconANC/Routing/DataFetchingRouter.cs:101-115 | with null data the diverter is still consulted; an item is created exactly when a type was specified and a diversion target exists, and the request is abandoned exactly otherwise, with the route data as the copy left it; after a creation the "LynNewItem" flag is set and "data" holds the new item |
| RouteProperties.DispatchAttachesData | LyniconANC/Routing/DataFetchingRouter.cs:117-122 | on dispatch, "data" was absent and now holds the resolved or new item, never null; the router is the diversion target when there is one, else the default target, and it is the last call |
| RouteProperties.LastCallDispatches | LyniconANC/Routing/DataFetchingRouter.cs:94-122 | the last call is a dispatch exactly when the request is dispatched or re-dispatched after interception, and it goes to the router the outcome names (the default target after interception) |
| RouteProperties.ResolveAndDispatchLast | LyniconANC/Routing/DataFetchingRouter.cs:94-122 | the same, for the steps after the token copy |
| RouteProperties.CreateAndDispatchLast | LyniconANC/Routing/DataFetchingRouter.cs:104-122 | after the diversion, create-or-abandon ends with a dispatch exactly when it dispatches, and to the router it names |
| RouteProperties.AtMostOneDispatch | LyniconANC/Routing/DataFetchingRouter.cs:94-122 | every request dispatches exactly one router when dispatched or re-dispatched, and none otherwise |
| RouteProperties.CallsInPipelineOrder | LyniconANC/Routing/DataFetchingRouter.cs:82-122 | collaborators are called in the fixed order summary lookup, fetch, intercept, divert, create, dispatch, each at most once |
| RouteProperties.ResolveAndDispatchOrdered | LyniconANC/Routing/DataFetchingRouter.cs:82-122 | the same order, for the steps after the token copy |
| RouteProperties.HandledOrdered | LyniconANC/Routing/DataFetchingRouter.cs:82-98 | a handled request's calls (resolution, the event, then possibly the default target) are in that order |
| RouteProperties.UnhandledOrdered | LyniconANC/Routing/DataFetchingRouter.cs:82-122 | an unhandled request's calls (resolution, the event, the diversion, then create and dispatch) are in that order |
| RouteProperties.CreateAndDispatchSuffix | LyniconANC/Routing/DataFetchingRouter.cs:104-122 | create-or-abandon keeps the calls made so far and adds at most a creation followed by at most one dispatch |
| RouteProperties.LazyDataNeverMissing | LyniconANC/Routing/DataFetchingRouter.cs:104-140 | with lazy data and no existence check in force, nothing is fetched or created while routing and the request is never abandoned for want of data |
| RouteProperties.ListTypesSkipExistenceCheck | LyniconANC/Routing/DataFetchingRouter.cs:127-136 | for a list type the existence-check switch makes no difference to resolution |
| Routing.RouteData.AddDataToken | LyniconANC/Routing/DataFetchingRouter.cs:77 | the entry is added exactly when its key is not already a data token; otherwise nothing changes; route values are untouched |
| Routing.RouteData.AddValue | LyniconANC/Routing/DataFetchingRouter.cs:117 | the entry is added exactly when its key is not already a route value; otherwise nothing changes; data tokens are untouched |
| Routing.CopySpecialTokens | LyniconANC/Routing/DataFetchingRouter.cs:73-77 | a clash is reported exactly when a special query key is already a data token; without one, the data tokens become the old ones plus the query's tokens; with one, they lie between the old ones and the old ones plus the query's tokens; route values are untouched |
| Routing.DataFetchingRouter.constructor | LyniconANC/Routing/DataFetchingRouter.cs:27-31 | the router wraps the given target, with eager data and no diversion override |
| Routing.DataFetchingRouter.WithOptions | LyniconANC/Routing/DataFetchingRouter.cs:32-36 | the router wraps the given target with the given `LazyData` and `DivertOverride` |
| Routing.DataFetchingRouter.RouteAsync | LyniconANC/Routing/DataFetchingRouter.cs:43-123 | outcome and calls are those of `Route` on the route data as handed over; so is the final route data, except after a token clash, where it lies between the old data and the old data plus the query's tokens |
| Routing.DataFetchingRouter.CopyTokensThenResolve | LyniconANC/Routing/DataFetchingRouter.cs:73-123 | the same for the steps after the type filter, against `CopyAndResolve` |
| Routing.DataFetchingRouter.ResolveInterceptDivert | LyniconANC/Routing/DataFetchingRouter.cs:82-123 | outcome, calls and final route data are those of `ResolveAndDispatch` |
| Routing.DataFetchingRouter.CreateOrAbandonThenDispatch | LyniconANC/Routing/DataFetchingRouter.cs:104-122 | outcome, calls and final route data are those of `CreateAndDispatch` |

## Left out

- `GetVirtualPath` (lines 38-41) always returns null and takes no part in routing. It is not modelled.
- The assignment to `HttpContext.Items` (line 80) stores the route data for later readers and has no effect on the decision. It is not modelled.
- The null-key filter when the query is copied (line 46) is implicit: query keys are strings, never null.
- Async/await and `Task` are not modelled: the steps run in sequence, and a downstream `RouteAsync` is recorded as a `Dispatch` call. What the downstream routers then do is outside the model.
- The content store, the event hub, the diversion registry, the existence-check switch and `PagingSpec.PagingKeys` are singletons. Here they are the `Environment` fields, given as pure functions of their arguments. Their exceptions and side effects are not modelled, and neither is a subscriber mutating the shared route data during the event.
- `Lazy<T>` evaluation is not modelled: the lazy wrapper is the opaque `Deferred`, which is never null.
- Reflection is not modelled: the type's full name, short name and whether it is a `List<>` are given as the fields of `ContentType`.
- TypeMatch.LowerChar: lowers ASCII A–Z only. The culture-sensitive `String.ToLower` also lowers other letters, and that is not modelled.
- RouteModel.Query: keys are compared exactly. The copied dictionary uses the default ordinal comparer, so this matches the code. The case-insensitive comparer of ASP.NET's route-value dictionaries is not modelled.
- Routing.CopySpecialTokens: after a clash, the tokens added before it depend on the dictionary's enumeration order. The contract gives bounds only (between the old tokens and the old tokens plus the query's tokens), and `Route` reports the route data as handed over in that case.
- RouteModel.StringValues: a query parameter always has at least one value, as ASP.NET's query parser yields it. The exception `[0]` would raise on an empty value list (lines 54 and 77) is not modelled.
- TypeMatch.UpToLast: modelled only for a string that ends with the suffix, the one case the router uses. The helper's general behaviour is not part of this model.

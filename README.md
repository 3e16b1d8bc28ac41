# Delicious bookmarks: a Dafny model of the data and state layer

The application stores links (title, URL, description, tags) in a remote
record store. It lists them and filters them by tag. This project models
its in-memory side, all of it from `app.js`:

- the `Link` model and its per-record defaults (`LinkModel`);
- the `Links` collection: `parse`, a completed `fetch`, `reset`, a local
  `create`, and the derived tag index `getTags` (`Collection`, `Tags`);
- the tag filter the `sortByTag` route applies (`Tags`);
- the insert form's tag tokenisation `val().split(' ')` (`Tokens`);
- the views, reduced to the data their templates receive (`Views`);
- the router. It owns the collection, the four views' elements and the
  page container. It has the two routes and the transitions `index`,
  `sortByTag`, `renderAll` and the form submit (`Router`).

The collection is a class whose methods replace or append to its record
sequence. The router is a class whose methods update the views' elements
and the container step by step. Views that render in a loop are methods
proved against the functions `Views.ListOf` and `Views.TagsOf`.
`getTags`, the filter and the split are functions, with lemmas about them.

The container holds references to the views' own elements, as the DOM
does. So a view that re-renders on a notification changes the visible
page without `renderAll`; `AppRouter.Page` derives what is shown.
Notifications follow the subscriptions in `app.js`. Header, list and tag
view listen for `add`, `sync` and `destroy`. The form listens for nothing.
`reset` emits `reset`, which no view listens for, so in `sortByTag` the
views are stale until `renderAll` runs.

Inputs from outside the model are parameters:
- the server's reply to a fetch is a `FetchOutcome`, either `Done(response)` or `Failed`;
- the form inputs are strings;
- the URL fragment is a string.

Details of `app.js` the model follows:
- `Link.defaults` ignores its `attributes` argument. The merge of supplied
  fields over defaults is done by Backbone's model constructor, so a field
  the caller supplies wins, even the empty string. The form always
  supplies all four fields. An empty tag input therefore gives the tags
  `[""]`, not `['default']`. The tag `""` then shows in the tag view, but no
  fragment selects it (`Router.EmptyTagUnreachable`).
- `renderAll` renders the form before the tag view, not last. It appends
  header, list, tag view and form, in that order.
- The tag index is a sequence, not an unordered set. It lists each tag
  once, in the order of its first occurrence over the records and their
  tags (underscore's `uniq`).
- A form submit re-renders the subscribed views on `add`, and again on the
  `sync` of the server's reply, not exactly once. The model covers the
  `add`; the later `sync` is transport (see below).

## Model

| member | source | states |
|---|---|---|
| LinkModel.NewLink | app.js:30-38 | every supplied field is kept exactly; an absent title, url or description becomes `'default'`, absent tags become `['default']`; the identity is carried over unchanged |
| LinkModel.Models | app.js:56-58 | the records a listing yields: one Link per raw record of `results`, in order, each built with defaults |
| Tags.Uniq | app.js:63 | the result has no duplicates and holds exactly the elements of its input |
| Tags.UniqIsSubsequence | app.js:63 | the uniq result keeps the input's order (it is a subsequence of the input) |
| Tags.UniqOfDistinct | app.js:63 | a duplicate-free input passes uniq unchanged |
| Tags.FlattenMembership | app.js:60-62 | an element is in the flattened tag lists exactly when some record's list holds it |
| Tags.TagIndex | app.js:59-65 | `getTags()` has no duplicate, and a tag is in it exactly when some record of the collection carries it |
| Tags.FirstIndexAppend | app.js:63 | appending an element leaves the first occurrence of every element already present where it was |
| Tags.UniqFirstOccurrenceOrder | app.js:63 | uniq lists the elements in the order of their first occurrences in the input |
| Tags.TagIndexOrder | app.js:59-65 | `getTags()` is a subsequence of the flattened tag lists and lists the tags in the order of their first occurrence there |
| Tags.TagIndexEmpty | app.js:52-53 | an empty or never-fetched collection has the empty tag index |
| Tags.FilterByTag | app.js:251 | every record the tag filter keeps carries the tag |
| Tags.FilterCounts | app.js:251 | a record carrying the tag is kept as many times as it occurs; any other record is dropped |
| Tags.FilterIsSubsequence | app.js:251 | the filtered records keep their original relative order, and there are never more of them than before |
| Tags.FilterMembership | app.js:251 | a record is in the filtered collection exactly when it is in the original one and carries the tag |
| Tags.FilterKeepsTagged | app.js:251 | a collection whose every record carries the tag passes the filter unchanged |
| Tags.FilterIdempotent | app.js:251 | filtering a second time by the same tag changes nothing |
| Tags.FilterTagIndex | app.js:251 | after filtering, the tag view shows only tags of the full collection, and shows the requested tag exactly when some fetched record carries it |
| Tokens.Split | app.js:142 | the tokens contain no separator, and there is one more token than there are separators (so `""` gives `[""]`) |
| Tokens.JoinSplit | app.js:142 | joining the tokens with `' '` gives back the input |
| Tokens.SplitJoin | app.js:142 | splitting a join of one or more space-free tokens gives back those tokens |
| Views.RenderHeader | app.js:203-206 | the header shows the number of records in the collection |
| Views.RenderLinkList | app.js:103-114 | the list has one item per record, each the record itself, in collection order |
| Views.RenderTags | app.js:180-191 | the tag view has one entry per element of the tag index, in its order |
| Collection.Links.constructor | app.js:230 | a new collection holds no records |
| Collection.Links.Fetch | app.js:57-58 | a completed fetch makes the records one defaulted record per raw record of the listing, in listing order, and emits `sync` (the merge into models already present is listed under Left out) |
| Collection.Links.Reset | app.js:251 | `reset(xs)` makes the records exactly `xs`, independent of what they were, so a second `reset(xs)` leaves `xs`; emits `reset` |
| Collection.Links.Create | app.js:138-143 | `create` appends the new defaulted record at the end (length grows by one) and emits `add` |
| Router.RouteOf | app.js:221-224 | the index route is selected exactly by an empty path (the empty fragment or one that starts with a query string); a selected tag route always names a non-empty tag free of `/` and `?` |
| Router.IndexRoute | app.js:222 | the empty fragment selects the index route |
| Router.TagRouteRoundTrip | app.js:223 | `tags/<tag>` selects the filter for exactly `<tag>`, for every tag that can be a route parameter |
| Router.TagRouteSound | app.js:223 | a fragment selecting the filter route names a non-empty tag free of `/` and `?`, right after `tags/` |
| Router.EmptyTagUnreachable | app.js:221-224 | no fragment selects the empty tag, which an empty tag input produces |
| Router.FormAttrs | app.js:138-143 | the record the form creates has the title, url and description as typed, the tag input split on spaces, and no identity |
| Router.StandardPage | app.js:262-272 | the page is header, list, tag view, form in that order; the header shows the record count, the list one item per record, the tag view one entry per tag |
| Router.AppRouter.constructor | app.js:225-235 | the router starts with an empty collection, unrendered views and an empty container |
| Router.AppRouter.Render | app.js:103-206 | re-rendering a view (`LinkListView.render` at 103-114, `InsertLinkView.render` at 150-156, `TagsView.render` at 180-191, `HeaderView.render` at 203-206) makes it show the current collection and leaves the other views and the container alone |
| Router.AppRouter.Notify | app.js:97-102 | a notification re-renders exactly the views subscribed to it |
| Router.AppRouter.RenderAll | app.js:262-273 | after `renderAll` every view is current and the container holds header, list, tag view and form in that order |
| Router.AppRouter.FetchDone | app.js:239-241 | a completed fetch leaves the collection equal to the listing, re-renders the views subscribed to `sync`, and leaves the form and container alone |
| Router.AppRouter.AppendBackLink | app.js:256 | the BACK link is appended after everything the container already shows |
| Router.AppRouter.Index | app.js:237-242 | after a completed fetch the collection is the full listing and the standard page shows it; a failed fetch changes nothing |
| Router.AppRouter.SortByTag | app.js:245-258 | after a completed fetch the collection holds the fetched records carrying the tag; the page is the standard page followed by the BACK link; a failed fetch changes nothing |
| Router.AppRouter.Navigate | app.js:220-224 | a fragment runs the handler its route selects, with that handler's outcome; an unmatched fragment changes nothing |
| Router.AppRouter.MakeNewLink | app.js:133-149 | submitting the form appends the form's record; header, list and tag view re-render in place; form and container are unchanged |

## Left out

- The `$.ajaxSetup` headers and the HTTP transport of fetch and create (app.js:5-10, 57): network I/O. A fetch's result is a parameter. `create` is its local append.
- Server-side identity assignment after `create`, and the `sync` the server's reply later emits: transport.
- `destroy`: nothing in `app.js` calls it. The `Destroy` event is kept only because the views subscribe to it.
- Asynchronous `.done` callbacks and the race between overlapping fetches: event-loop concurrency. Each transition is one atomic step.
- Collection.Links.Fetch: Backbone's fetch merges the listing into the current models by `objectId`, and the model does not. A model that is already present takes only the attributes its new raw record carries and keeps the others. The model rebuilds every record with defaults instead. For example, take a collection that holds id `"1"` with tags `["x"]`, and a listing that returns `{objectId: "1", title: "t"}` without tags. Backbone keeps `["x"]`; the model gives `['default']`. Backbone also fires one `add` per new record and then `sync`; the model fires only `sync`, and the number of re-renders is not modelled.
- Markup: jQuery DOM calls, `_.template` and the clearing of the form's inputs (app.js:79, 146-148, 154). They are UI and library rendering, so views produce data.
- The Backbone event machinery and `Backbone.history.start` (app.js:101, 178, 201, 283): library code. Subscriptions are the table `Router.ListensTo`, dispatched by `Router.AppRouter.Notify`.
- Router.RouteOf: URI-decoding of the `:tag` parameter and the stripping of a leading `#` or `/` in Backbone's history are left out. The fragment is taken as already stripped and decoded.

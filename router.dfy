/** The application router: the two routes, the views it owns, the page
    container it composes, and the transitions each route performs. */
module Router {
  import opened LinkModel
  import opened Tags
  import opened Tokens
  import opened Views
  import opened Collection

  /** The route handlers: `''` runs `index`, `tags/:tag` runs `sortByTag`. */
  datatype Route = AllLinks | ByTag(tag: string)

  /** The part of a fragment before its query string. */
  function PathPart(fragment: string): (p: string)
    ensures |p| <= |fragment| && p == fragment[..|p|]
    ensures '?' !in p
    ensures |p| < |fragment| ==> fragment[|p|] == '?'
  {
    if fragment == [] || fragment[0] == '?' then []
    else [fragment[0]] + PathPart(fragment[1..])
  }

  /** The route a fragment selects, if any. A `:tag` parameter is a
      non-empty run of characters other than `/` and `?`; a query string
      after `?` does not affect the choice. */
  function RouteOf(fragment: string): (r: Option<Route>)
    ensures r == Some(AllLinks) <==> fragment == [] || fragment[0] == '?'
    ensures r.Some? && r.value.ByTag? ==> RoutableTag(r.value.tag)
  {
    var path := PathPart(fragment);
    if path == "" then Some(AllLinks)
    else if |path| > 5 && path[..5] == "tags/" && '/' !in path[5..] then Some(ByTag(path[5..]))
    else None
  }

  /** A tag is a valid `:tag` parameter. */
  ghost predicate RoutableTag(tag: string) {
    tag != "" && '/' !in tag && '?' !in tag
  }

  /** The empty fragment selects the index route. */
  lemma IndexRoute()
    ensures RouteOf("") == Some(AllLinks)
  {
  }

  /** The link a tag entry points to selects the filter for exactly that
      tag, for every tag that can be a route parameter. */
  lemma {:induction false} TagRouteRoundTrip(tag: string)
    requires RoutableTag(tag)
    ensures RouteOf("tags/" + tag) == Some(ByTag(tag))
  {
    var f := "tags/" + tag;
    var p := PathPart(f);
    assert '?' !in f;
    assert p == f;
    assert p[..5] == "tags/";
    assert p[5..] == tag;
  }

  /** Every filter route carries a routable tag, named right after `tags/`. */
  lemma TagRouteSound(fragment: string, tag: string)
    requires RouteOf(fragment) == Some(ByTag(tag))
    ensures RoutableTag(tag)
    ensures |fragment| >= 5 + |tag| && fragment[..5 + |tag|] == "tags/" + tag
  {
    var p := PathPart(fragment);
    assert tag == p[5..];
    assert forall c :: c in tag ==> c in p;
  }

  /** A record whose tag input was left empty carries the tag `""`, which
      shows in the tag view but no fragment can select. */
  lemma EmptyTagUnreachable(fragment: string)
    ensures RouteOf(fragment) != Some(ByTag(""))
    ensures Split("", ' ') == [""]
  {
    if RouteOf(fragment) == Some(ByTag("")) {
      TagRouteSound(fragment, "");
    }
  }

  /** The views the router owns, in the order it constructs them. */
  datatype ViewName = Header | LinkListing | LinkForm | TagsPanel

  /** The subscriptions the views register: header, list and tag view
      re-render on `add`, `sync` and `destroy`; the form on nothing. */
  predicate ListensTo(v: ViewName, ev: Event) {
    v != LinkForm && (ev == Add || ev == Sync || ev == Destroy)
  }

  /** What view `v` shows once it has rendered from `models`. */
  function Rendered(v: ViewName, models: seq<Link>): Element {
    match v
    case Header => RenderHeader(models)
    case LinkListing => ListOf(models)
    case LinkForm => NewLinkForm
    case TagsPanel => TagsOf(TagIndex(models))
  }

  /** The page after `renderAll` over `models`: header, list, tag view and
      form, in that order. */
  function StandardPage(models: seq<Link>): (page: seq<Element>)
    ensures |page| == 4
    ensures page[0] == CountHeader(|models|)
    ensures page[1].LinkList? && |page[1].items| == |models|
    ensures page[2].TagList? && |page[2].entries| == |TagIndex(models)|
    ensures page[3] == NewLinkForm
  {
    [Rendered(Header, models), Rendered(LinkListing, models),
     Rendered(TagsPanel, models), Rendered(LinkForm, models)]
  }

  /** What the container holds: a view's own element (by reference, so it
      shows that view's latest render) or the hard-coded back link. */
  datatype Slot = ViewSlot(view: ViewName) | BackSlot

  /** The outcome of a `fetch()`: the listing received, or a failure, on
      which no `.done` callback runs. */
  datatype FetchOutcome = Done(response: Response) | Failed

  /** The attributes `makeNewLink` passes to `create`: every field is
      supplied, straight from its input. */
  function FormAttrs(title: string, url: string, description: string, tagInput: string): (a: Attrs)
    ensures NewLink(a).title == title && NewLink(a).url == url
    ensures NewLink(a).description == description
    ensures NewLink(a).tags == Split(tagInput, ' ')
    ensures NewLink(a).objectId == None
  {
    Attrs(None, Some(title), Some(url), Some(description), Some(Split(tagInput, ' ')))
  }

  class AppRouter {
    const links: Links
    var headerEl: Element
    var listEl: Element
    var formEl: Element
    var tagsEl: Element
    /** The `#container` element's children, in order. */
    var container: seq<Slot>

    /** The router's `initialize`: one collection, never fetched, shared by
        four views that have not rendered yet. */
    constructor ()
      ensures fresh(links) && links.models == []
      ensures headerEl == Blank && listEl == Blank && formEl == Blank && tagsEl == Blank
      ensures container == []
    {
      links := new Links();
      headerEl, listEl, formEl, tagsEl := Blank, Blank, Blank, Blank;
      container := [];
    }

    /** The current element of view `v`. */
    function ElementOf(v: ViewName): Element
      reads this
    {
      match v
      case Header => headerEl
      case LinkListing => listEl
      case LinkForm => formEl
      case TagsPanel => tagsEl
    }

    /** The page as shown: each slot of the container with its content. */
    function Page(): (page: seq<Element>)
      reads this
      ensures |page| == |container|
      ensures forall i :: 0 <= i < |container| ==> page[i] == Show(container[i])
    {
      seq(|container|, i requires 0 <= i < |container| reads this => Show(container[i]))
    }

    /** What a slot of the container shows. */
    function Show(slot: Slot): Element
      reads this
    {
      match slot
      case ViewSlot(v) => ElementOf(v)
      case BackSlot => BackLink
    }

    /** Every view shows the collection as it is now. */
    ghost predicate Current()
      reads this, links
    {
      forall v :: ElementOf(v) == Rendered(v, links.models)
    }

    /** `render()` of view `v`, from the current collection. */
    method Render(v: ViewName)
      modifies this
      ensures ElementOf(v) == Rendered(v, links.models)
      ensures forall w :: w != v ==> ElementOf(w) == old(ElementOf(w))
      ensures container == old(container)
    {
      match v
      case Header =>
        headerEl := RenderHeader(links.models);
      case LinkListing =>
        listEl := RenderLinkList(links.models);
      case LinkForm =>
        formEl := NewLinkForm;
      case TagsPanel =>
        tagsEl := RenderTags(links.GetTags());
    }

    /** Delivers notification `ev`: every view listening for it re-renders,
        in construction order; the others keep what they showed. */
    method Notify(ev: Event)
      modifies this
      ensures forall v :: ElementOf(v) == if ListensTo(v, ev) then Rendered(v, links.models) else old(ElementOf(v))
      ensures container == old(container)
    {
      if ListensTo(Header, ev) { Render(Header); }
      if ListensTo(LinkListing, ev) { Render(LinkListing); }
      // the form subscribes to nothing
      if ListensTo(TagsPanel, ev) { Render(TagsPanel); }
    }

    /** `renderAll`: empties the container, renders every view, then puts
        header, list, tag view and form into the container in that order. */
    method RenderAll()
      modifies this
      ensures Current()
      ensures container == [ViewSlot(Header), ViewSlot(LinkListing), ViewSlot(TagsPanel), ViewSlot(LinkForm)]
      ensures Page() == StandardPage(links.models)
    {
      container := [];
      Render(Header);
      Render(LinkListing);
      Render(LinkForm);
      Render(TagsPanel);
      container := [ViewSlot(Header)];
      container := container + [ViewSlot(LinkListing)];
      container := container + [ViewSlot(TagsPanel)];
      container := container + [ViewSlot(LinkForm)];
    }

    /** A fetch completing with `response`: the collection takes the
        listing and the views listening for `sync` re-render. */
    method FetchDone(response: Response)
      modifies this, links
      ensures links.models == Models(Parse(response))
      ensures forall v :: v != LinkForm ==> ElementOf(v) == Rendered(v, links.models)
      ensures formEl == old(formEl) && container == old(container)
    {
      var ev := links.Fetch(response);
      Notify(ev);
      assert ElementOf(LinkForm) == old(ElementOf(LinkForm));
    }

    /** Appends the hard-coded BACK link to the container. */
    method AppendBackLink()
      modifies this
      ensures container == old(container) + [BackSlot]
      ensures Page() == old(Page()) + [BackLink]
      ensures forall v :: ElementOf(v) == old(ElementOf(v))
    {
      container := container + [BackSlot];
    }

    /** The `index` route: once the fetch completes, the collection holds
        the full listing and the standard page shows it. A failed fetch
        changes nothing. */
    method Index(outcome: FetchOutcome)
      modifies this, links
      ensures outcome.Done? ==> links.models == Models(Parse(outcome.response))
      ensures outcome.Done? ==> Current() && Page() == StandardPage(links.models)
      ensures outcome.Failed? ==> unchanged(this, links)
    {
      match outcome
      case Done(response) =>
        FetchDone(response);
        RenderAll();
      case Failed =>
    }

    /** The `sortByTag` route: once the fetch completes, the collection is
        reset to the fetched records carrying `tag`, the standard page shows
        them and the back link follows it. A failed fetch changes nothing. */
    method SortByTag(tag: string, outcome: FetchOutcome)
      modifies this, links
      ensures outcome.Done? ==> links.models == FilterByTag(Models(Parse(outcome.response)), tag)
      ensures outcome.Done? ==> Current() && Page() == StandardPage(links.models) + [BackLink]
      ensures outcome.Failed? ==> unchanged(this, links)
    {
      match outcome
      case Done(response) =>
        FetchDone(response);
        var filtered := FilterByTag(links.models, tag);
        var ev := links.Reset(filtered);
        Notify(ev);
        RenderAll();
        AppendBackLink();
      case Failed =>
    }

    /** Dispatches a navigation to the handler its route selects; a fragment
        no route matches changes nothing. */
    method Navigate(fragment: string, outcome: FetchOutcome)
      modifies this, links
      ensures RouteOf(fragment) == Some(AllLinks) && outcome.Done? ==>
        links.models == Models(Parse(outcome.response)) && Page() == StandardPage(links.models)
      ensures (RouteOf(fragment).Some? && RouteOf(fragment).value.ByTag? && outcome.Done?) ==>
        links.models == FilterByTag(Models(Parse(outcome.response)), RouteOf(fragment).value.tag) &&
        Page() == StandardPage(links.models) + [BackLink]
      ensures RouteOf(fragment).None? || outcome.Failed? ==> unchanged(this, links)
    {
      match RouteOf(fragment)
      case Some(AllLinks) => Index(outcome);
      case Some(ByTag(tag)) => SortByTag(tag, outcome);
      case None =>
    }

    /** `makeNewLink` on submit: creates a record from the four inputs, the
        tag input split on spaces, at the end of the collection; the views
        listening for `add` re-render in place, so the container keeps its
        slots and shows the new state. */
    method MakeNewLink(title: string, url: string, description: string, tagInput: string)
      modifies this, links
      ensures links.models == old(links.models) + [NewLink(FormAttrs(title, url, description, tagInput))]
      ensures headerEl == RenderHeader(links.models) && listEl == ListOf(links.models)
      ensures tagsEl == TagsOf(TagIndex(links.models))
      ensures formEl == old(formEl) && container == old(container)
    {
      var _, ev := links.Create(FormAttrs(title, url, description, tagInput));
      Notify(ev);
      assert ElementOf(Header) == Rendered(Header, links.models);
      assert ElementOf(LinkListing) == Rendered(LinkListing, links.models);
      assert ElementOf(TagsPanel) == Rendered(TagsPanel, links.models);
      assert ElementOf(LinkForm) == old(ElementOf(LinkForm));
    }
  }
}

/** The views as data: what each view's element holds after it renders,
    with template markup reduced to the values substituted into it. */
module Views {
  import opened LinkModel

  /** A `LinkView` list item: the record substituted into the link template. */
  datatype LinkItem = LinkItem(record: Link)

  /** One entry of the tag view: a tag substituted into the tag template. */
  datatype TagEntry = TagEntry(tag: string)

  /** The content of a view's element. `Blank` is an element that has not
      rendered yet; `BackLink` is the hard-coded link to the index route. */
  datatype Element =
    | Blank
    | CountHeader(num: nat)
    | LinkList(items: seq<LinkItem>)
    | TagList(entries: seq<TagEntry>)
    | NewLinkForm
    | BackLink

  /** The list view's content for a collection: one item per record, in
      collection order. */
  function ListOf(models: seq<Link>): Element {
    LinkList(seq(|models|, i requires 0 <= i < |models| => LinkItem(models[i])))
  }

  /** The tag view's content for a tag index: one entry per tag, in order. */
  function TagsOf(tags: seq<string>): Element {
    TagList(seq(|tags|, i requires 0 <= i < |tags| => TagEntry(tags[i])))
  }

  /** `HeaderView.render`: the header shows the number of records. */
  function RenderHeader(models: seq<Link>): (e: Element)
    ensures e.CountHeader? && e.num == |models|
  {
    CountHeader(|models|)
  }

  /** `LinkListView.render`: renders one `LinkView` per record and collects
      the items before writing them into the list element once. */
  method RenderLinkList(models: seq<Link>) returns (e: Element)
    ensures e.LinkList? && |e.items| == |models|
    ensures forall i :: 0 <= i < |models| ==> e.items[i].record == models[i]
    ensures e == ListOf(models)
  {
    var elements: seq<LinkItem> := [];
    var k := 0;
    while k < |models|
      invariant 0 <= k <= |models|
      invariant |elements| == k
      invariant forall i :: 0 <= i < k ==> elements[i] == LinkItem(models[i])
    {
      elements := elements + [LinkItem(models[k])];
      k := k + 1;
    }
    e := LinkList(elements);
  }

  /** `TagsView.render`: one entry per tag of the tag index, collected and
      then written into the element once. */
  method RenderTags(tags: seq<string>) returns (e: Element)
    ensures e.TagList? && |e.entries| == |tags|
    ensures forall i :: 0 <= i < |tags| ==> e.entries[i].tag == tags[i]
    ensures e == TagsOf(tags)
  {
    var elements: seq<TagEntry> := [];
    var k := 0;
    while k < |tags|
      invariant 0 <= k <= |tags|
      invariant |elements| == k
      invariant forall i :: 0 <= i < k ==> elements[i] == TagEntry(tags[i])
    {
      elements := elements + [TagEntry(tags[k])];
      k := k + 1;
    }
    e := TagList(elements);
  }
}

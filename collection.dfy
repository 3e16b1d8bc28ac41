/** The `Links` collection: the ordered sequence of records the application
    owns, and the change notifications its operations emit. */
module Collection {
  import opened LinkModel
  import opened Tags

  /** The notifications a collection emits, by Backbone event name. */
  datatype Event = Add | Sync | Destroy | Reset

  class Links {
    /** The records, in collection order. */
    var models: seq<Link>

    /** A collection that has never been fetched holds no records. */
    constructor ()
      ensures models == []
    {
      models := [];
    }

    /** `getTags()`, recomputed from the current records on every call. */
    function GetTags(): seq<string>
      reads this
    {
      TagIndex(models)
    }

    /** A completed `fetch()`: the listing's `results` replace the records,
        each built with defaults, and `sync` is emitted. */
    method Fetch(response: Response) returns (ev: Event)
      modifies this
      ensures models == Models(Parse(response))
      ensures ev == Sync
    {
      models := Models(Parse(response));
      ev := Sync;
    }

    /** `reset(xs)`: the records become exactly `xs`, whatever they were
        before, and `reset` is emitted. */
    method Reset(xs: seq<Link>) returns (ev: Event)
      modifies this
      ensures models == xs
      ensures ev == Event.Reset
    {
      models := xs;
      ev := Event.Reset;
    }

    /** `create(attrs)`, locally: a new record built with defaults is
        appended at the end, and `add` is emitted. */
    method Create(a: Attrs) returns (l: Link, ev: Event)
      modifies this
      ensures l == NewLink(a)
      ensures models == old(models) + [l]
      ensures |models| == old(|models|) + 1
      ensures ev == Add
    {
      l := NewLink(a);
      models := models + [l];
      ev := Add;
    }
  }
}

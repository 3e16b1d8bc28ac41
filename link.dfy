/** The Link model: one stored bookmark, and how a record is built from the
    attributes a caller (a server response or the insert form) supplies. */
module LinkModel {

  datatype Option<T> = None | Some(value: T)

  /** The value every absent string field of a new Link takes. */
  const DefaultText: string := "default"

  /** The value an absent tag list takes; a fresh sequence for every record. */
  const DefaultTags: seq<string> := ["default"]

  /** A stored bookmark. `objectId` is the server-assigned identity (the
      model's `idAttribute`); it is absent until the record has been saved. */
  datatype Link = Link(
    objectId: Option<string>,
    title: string,
    url: string,
    description: string,
    tags: seq<string>)

  /** The attributes handed to the Link constructor. `None` is a field the
      caller left undefined; `Some("")` is a field supplied as the empty string. */
  datatype Attrs = Attrs(
    objectId: Option<string>,
    title: Option<string>,
    url: Option<string>,
    description: Option<string>,
    tags: Option<seq<string>>)

  /** The supplied value of a field, or its default when it was left undefined. */
  function OrDefault<T>(field: Option<T>, default: T): T {
    match field
    case Some(v) => v
    case None => default
  }

  /** Builds a Link: every supplied field is kept exactly, every absent one
      takes its default, and the identity is carried over as given. */
  function NewLink(a: Attrs): (l: Link)
    ensures l.objectId == a.objectId
    ensures a.title.Some? ==> l.title == a.title.value
    ensures a.title.None? ==> l.title == DefaultText
    ensures a.url.Some? ==> l.url == a.url.value
    ensures a.url.None? ==> l.url == DefaultText
    ensures a.description.Some? ==> l.description == a.description.value
    ensures a.description.None? ==> l.description == DefaultText
    ensures a.tags.Some? ==> l.tags == a.tags.value
    ensures a.tags.None? ==> l.tags == DefaultTags
  {
    Link(a.objectId,
         OrDefault(a.title, DefaultText),
         OrDefault(a.url, DefaultText),
         OrDefault(a.description, DefaultText),
         OrDefault(a.tags, DefaultTags))
  }

  /** The envelope the record store wraps a listing in. */
  datatype Response = Response(results: seq<Attrs>)

  /** The collection's `parse`: the records of a listing are its `results`. */
  function Parse(response: Response): seq<Attrs> {
    response.results
  }

  /** The models a collection holds after it has been given `raws`: one Link
      per raw record, built with defaults, in the order received. */
  function Models(raws: seq<Attrs>): (r: seq<Link>)
    ensures |r| == |raws|
    ensures forall i :: 0 <= i < |raws| ==> r[i] == NewLink(raws[i])
  {
    if raws == [] then [] else [NewLink(raws[0])] + Models(raws[1..])
  }
}

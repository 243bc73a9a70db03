/**
 routes/books.js: the record built for the book-detail page (`GET /:id`),
 the stored-status derivation that feeds it, and the record and database row
 built by the add-book route (`POST /:olid`).
 */
module Books {
  import opened Js
  import opened OpenLibrary

  /** The status a book has before the user sets one. */
  const NotStarted: string := "not_started"

  /**
   `rowCount > 0 ? rows[0].status : false`, where `stored` is the status of
   the saved row, or `None` when no row was found.
   */
  function InMyList(stored: Option<string>): (r: Value)
    ensures stored.None? <==> r == Bool(false)
    ensures stored.Some? ==> r == Str(stored.value)
    ensures Truthy(r) <==> stored.Some? && stored.value != ""
  {
    match stored
    case None => Bool(false)
    case Some(status) => Str(status)
  }

  /** `isInMyList ? isInMyList : 'not_started'`. */
  function Status(stored: Option<string>): (r: string)
    ensures stored.None? ==> r == NotStarted
    ensures stored.Some? && stored.value != "" ==> r == stored.value
    ensures stored == Some("") ==> r == NotStarted
    ensures r != ""
  {
    var inMyList := InMyList(stored);
    if Truthy(inMyList) && inMyList.Str? then inMyList.s else NotStarted
  }

  /** A truthy `inMyList` is the status shown; a falsy one shows `"not_started"`. */
  lemma StatusFollowsInMyList(stored: Option<string>)
    ensures Truthy(InMyList(stored)) ==> Str(Status(stored)) == InMyList(stored)
    ensures !Truthy(InMyList(stored)) ==> Status(stored) == NotStarted
  {
  }

  /**
   `details.description || details.description.value || 'No description available.'`:
   a truthy description (any object, a non-empty string) is kept whole; an
   empty string has no `value` and falls through to the default; a missing
   one throws when its `value` is read.
   */
  function DetailDescription(description: Desc): (r: Result<Desc>)
    ensures description.Absent? <==> r.Err?
    ensures r.Err? ==> r.error == ReadOfUndefined("value")
    ensures description.Object? ==> r == Ok(description)
    ensures description.Text? && description.text != "" ==> r == Ok(description)
    ensures description == Text("") ==> r == Ok(Text(NoDescription))
    ensures r.Ok? ==> !r.value.Absent?
  {
    match description
    case Absent => Err(ReadOfUndefined("value"))
    case Object(_) => Ok(description)
    case Text(s) =>
      // A string has no `value` property, so the middle operand is `undefined`.
      if Truthy(Str(s)) then Ok(description) else Ok(Text(NoDescription))
  }

  /** The object built for one search document on the detail page. */
  datatype DetailRecord = DetailRecord(
    olid: string,
    title: Option<string>,
    author: string,
    publishYear: Value,
    coverEditionKey: Option<string>,
    description: Desc,
    links: seq<Link>,
    inMyList: Value,
    status: string)

  /** The `book.docs.map(...)` callback of the detail route, properties evaluated in source order. */
  function DetailRecordOf(doc: Doc, details: WorkDetails, stored: Option<string>): (r: Result<DetailRecord>)
    ensures r.Ok? <==> doc.authorName.Some? && !details.description.Absent?
    ensures doc.authorName.None? ==> r == Err(ReadOfUndefined("join"))
    ensures doc.authorName.Some? && details.description.Absent? ==> r == Err(ReadOfUndefined("value"))
    ensures r.Ok? ==> r.value.olid == Olid(doc.key) && r.value.title == doc.title
    ensures r.Ok? ==> r.value.coverEditionKey == doc.coverEditionKey
    ensures r.Ok? ==> Ok(r.value.author) == Author(doc.authorName)
    ensures r.Ok? ==> r.value.publishYear == PublishYear(doc.firstPublishYear)
    ensures r.Ok? ==> Ok(r.value.description) == DetailDescription(details.description)
    ensures r.Ok? ==> r.value.links == Links(details.links)
    ensures r.Ok? ==> r.value.inMyList == InMyList(stored) && r.value.status == Status(stored)
  {
    var author :- Author(doc.authorName);
    var description :- DetailDescription(details.description);
    Ok(DetailRecord(
      Olid(doc.key), doc.title, author, PublishYear(doc.firstPublishYear), doc.coverEditionKey,
      description, Links(details.links), InMyList(stored), Status(stored)))
  }

  /** All the records of the detail route, one per document. */
  function DetailRecords(docs: seq<Doc>, details: WorkDetails, stored: Option<string>): (r: Result<seq<DetailRecord>>)
    ensures r.Ok? <==> (forall i :: 0 <= i < |docs| ==> docs[i].authorName.Some?)
                       && (|docs| == 0 || !details.description.Absent?)
    ensures r.Ok? ==> |r.value| == |docs|
    ensures r.Ok? ==> forall i :: 0 <= i < |docs| ==> Ok(r.value[i]) == DetailRecordOf(docs[i], details, stored)
  {
    MapAll(doc => DetailRecordOf(doc, details, stored), docs)
  }

  /**
   What `GET /:id` renders: `oliBook[0]`, which is `undefined` (here `None`)
   when the search returned no document. The map runs over every document,
   so any document without `author_name` makes the route throw.
   */
  function DetailPage(docs: seq<Doc>, details: WorkDetails, stored: Option<string>): (r: Result<Option<DetailRecord>>)
    ensures r.Ok? <==> (forall i :: 0 <= i < |docs| ==> docs[i].authorName.Some?)
                       && (|docs| == 0 || !details.description.Absent?)
    ensures r.Ok? && |docs| == 0 ==> r.value == None
    ensures r.Ok? && |docs| > 0 ==> r.value == Some(DetailRecordOf(docs[0], details, stored).value)
    ensures r.Err? ==> |docs| > 0
    ensures r.Err? && docs[0].authorName.Some? && details.description.Absent? ==> r.error == ReadOfUndefined("value")
    ensures r.Err? && !(docs[0].authorName.Some? && details.description.Absent?) ==> r.error == ReadOfUndefined("join")
  {
    var records :- DetailRecords(docs, details, stored);
    if |records| == 0 then Ok(None) else Ok(Some(records[0]))
  }

  /**
   `details.description.value || 'No description available.'`: a plain
   string has no `value`, so it always yields the default; a missing
   description throws.
   */
  function AddDescription(description: Desc): (r: Result<string>)
    ensures description.Absent? <==> r.Err?
    ensures r.Err? ==> r.error == ReadOfUndefined("value")
    ensures description.Text? ==> r == Ok(NoDescription)
    ensures description.Object? ==>
              r == Ok(if description.value.Some? && description.value.value != "" then description.value.value
                      else NoDescription)
    ensures r.Ok? ==> r.value != ""
  {
    match description
    case Absent => Err(ReadOfUndefined("value"))
    case Text(_) => Ok(NoDescription)
    case Object(None) => Ok(NoDescription)
    case Object(Some(v)) => Ok(Or(Str(v), Str(NoDescription)).s)
  }

  /** The object built for one search document by the add-book route. */
  datatype AddRecord = AddRecord(
    olid: string,
    title: Option<string>,
    author: string,
    publishYear: Value,
    coverEditionKey: Option<string>,
    description: string,
    links: seq<Link>)

  /** The `fetchedBook.docs.map(...)` callback of the add-book route. */
  function AddRecordOf(doc: Doc, details: WorkDetails): (r: Result<AddRecord>)
    ensures r.Ok? <==> doc.authorName.Some? && !details.description.Absent?
    ensures doc.authorName.None? ==> r == Err(ReadOfUndefined("join"))
    ensures doc.authorName.Some? && details.description.Absent? ==> r == Err(ReadOfUndefined("value"))
    ensures r.Ok? ==> r.value.olid == Olid(doc.key) && r.value.title == doc.title
    ensures r.Ok? ==> r.value.coverEditionKey == doc.coverEditionKey
    ensures r.Ok? ==> Ok(r.value.author) == Author(doc.authorName)
    ensures r.Ok? ==> r.value.publishYear == PublishYear(doc.firstPublishYear)
    ensures r.Ok? ==> Ok(r.value.description) == AddDescription(details.description)
    ensures r.Ok? ==> r.value.links == Links(details.links)
  {
    var author :- Author(doc.authorName);
    var description :- AddDescription(details.description);
    Ok(AddRecord(
      Olid(doc.key), doc.title, author, PublishYear(doc.firstPublishYear), doc.coverEditionKey,
      description, Links(details.links)))
  }

  /** The parameters of the `INSERT INTO book` statement, in its column order. */
  datatype BookRow = BookRow(
    id: string,
    title: Option<string>,
    author: string,
    coverEditionKey: Option<string>,
    publishYear: Value,
    description: string,
    links: seq<Link>,
    lastAccessedAt: int,
    status: string)

  /**
   The row `POST /:olid` inserts: the first record of the map, with the
   clock reading `now` and status `"not_started"`. No document leaves `book`
   `undefined`, and reading its `olid` throws.
   */
  function InsertRow(docs: seq<Doc>, details: WorkDetails, now: int): (r: Result<BookRow>)
    ensures r.Ok? <==> |docs| > 0 && (forall i :: 0 <= i < |docs| ==> docs[i].authorName.Some?)
                       && !details.description.Absent?
    ensures |docs| == 0 ==> r == Err(ReadOfUndefined("olid"))
    ensures r.Err? && |docs| > 0 && docs[0].authorName.Some? && details.description.Absent? ==>
              r.error == ReadOfUndefined("value")
    ensures r.Err? && |docs| > 0 && !(docs[0].authorName.Some? && details.description.Absent?) ==>
              r.error == ReadOfUndefined("join")
    ensures r.Ok? ==> r.value.status == NotStarted && r.value.lastAccessedAt == now
    ensures r.Ok? ==> var first := AddRecordOf(docs[0], details).value;
              r.value == BookRow(first.olid, first.title, first.author, first.coverEditionKey,
                                 first.publishYear, first.description, first.links, now, NotStarted)
  {
    var records :- MapAll(doc => AddRecordOf(doc, details), docs);
    if |records| == 0 then Err(ReadOfUndefined("olid"))
    else
      var book := records[0];
      Ok(BookRow(book.olid, book.title, book.author, book.coverEditionKey, book.publishYear,
                 book.description, book.links, now, NotStarted))
  }
}

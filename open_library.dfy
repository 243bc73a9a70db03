/**
 The Open Library shapes the routes read (a search document and a work's
 details), the `olid`, `author` and `publish_year` rules shared by all three
 record-building callbacks, and the `links` projection shared by the two
 routes in routes/books.js.
 */
module OpenLibrary {
  import opened Js

  /** One element of a search response's `docs` array. */
  datatype Doc = Doc(
    key: string,
    title: Option<string>,
    authorName: Option<seq<string>>,
    firstPublishYear: Option<int>,
    coverEditionKey: Option<string>)

  /** A work's `description`: missing, a plain string, or an object with an optional `value`. */
  datatype Desc = Absent | Text(text: string) | Object(value: Option<string>)

  /** One element of a work's `links`; `linkType` stands for the properties the routes drop. */
  datatype RawLink = RawLink(title: Option<string>, url: Option<string>, linkType: Option<string>)

  /** A link as the built records carry it. */
  datatype Link = Link(title: Option<string>, url: Option<string>)

  /** The work-details response, reduced to the two properties the routes read. */
  datatype WorkDetails = WorkDetails(description: Desc, links: Option<seq<RawLink>>)

  /** Length of the `/works/` prefix that `key.substring(7)` drops. */
  const KeyPrefixLength: nat := 7

  const UnknownAuthor: string := "Unknown"
  const NoYear: string := "N/A"
  const NoDescription: string := "No description available."

  /** `book.key.substring(7)`. */
  function Olid(key: string): (r: string)
    ensures |key| >= KeyPrefixLength ==> key == key[..KeyPrefixLength] + r
    ensures |key| < KeyPrefixLength ==> r == ""
    ensures |r| == if |key| < KeyPrefixLength then 0 else |key| - KeyPrefixLength
  {
    Substring(key, KeyPrefixLength)
  }

  /** A work key `"/works/" + id` yields `id`. */
  lemma OlidOfWorkKey(id: string)
    ensures Olid("/works/" + id) == id
  {
    assert ("/works/" + id)[KeyPrefixLength..] == id;
  }

  /** `book.author_name.join(", ") || 'Unknown'`, throwing when `author_name` is missing. */
  function Author(authorName: Option<seq<string>>): (r: Result<string>)
    ensures authorName.None? <==> r.Err?
    ensures r.Err? ==> r.error == ReadOfUndefined("join")
    ensures authorName.Some? && (|authorName.value| == 0 || authorName.value == [""]) ==> r == Ok(UnknownAuthor)
    ensures authorName.Some? && |authorName.value| > 0 && authorName.value != [""] ==>
              r == Ok(JoinFromLeft(authorName.value)) && r.value != ""
  {
    match authorName
    case None => Err(ReadOfUndefined("join"))
    case Some(names) =>
      JoinEmptyIff(names);
      JoinMatchesReference(names);
      Ok(Or(Str(Join(names)), Str(UnknownAuthor)).s)
  }

  /** A single author's name is the author unless it is empty. */
  lemma SingleAuthor(name: string)
    ensures Author(Some([name])) == Ok(if name == "" then UnknownAuthor else name)
  {
  }

  /** Several authors: the first name, then every further name after a `", "`, in order. */
  lemma {:induction false} AuthorsInOrder(first: string, rest: seq<string>)
    requires |rest| > 0
    ensures Author(Some([first] + rest)) == Ok(first + Separator + JoinFromLeft(rest))
  {
    JoinConcat([first], rest);
    JoinMatchesReference([first] + rest);
    JoinMatchesReference(rest);
  }

  /** `book.first_publish_year || 'N/A'`. */
  function PublishYear(firstPublishYear: Option<int>): (r: Value)
    ensures Truthy(r)
    ensures r.Num? <==> firstPublishYear.Some? && firstPublishYear.value != 0
    ensures r.Num? ==> r.n == firstPublishYear.value
    ensures !r.Num? ==> r == Str(NoYear)
  {
    match firstPublishYear
    case None => Str(NoYear)
    case Some(year) => Or(Num(year), Str(NoYear))
  }

  /** `links.map(link => ({ title: link.title, url: link.url }))`. */
  function ProjectLinks(links: seq<RawLink>): (r: seq<Link>)
    ensures |r| == |links|
    ensures forall i :: 0 <= i < |links| ==> r[i].title == links[i].title && r[i].url == links[i].url
  {
    if |links| == 0 then []
    else [Link(links[0].title, links[0].url)] + ProjectLinks(links[1..])
  }

  /** `details.links ? <projection> : []`; an array, even an empty one, is truthy. */
  function Links(links: Option<seq<RawLink>>): (r: seq<Link>)
    ensures links.None? ==> r == []
    ensures links.Some? ==> |r| == |links.value|
    ensures links.Some? ==> forall i :: 0 <= i < |r| ==>
              r[i].title == links.value[i].title && r[i].url == links.value[i].url
  {
    match links
    case None => []
    case Some(ls) => ProjectLinks(ls)
  }
}

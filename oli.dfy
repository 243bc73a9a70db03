/**
 routes/oli.js: the catalog search (`GET /search`), which projects every
 search document onto a five-property result and hands any exception to the
 framework's error handler.
 */
module Oli {
  import opened Js
  import opened OpenLibrary

  /** One search result: exactly the five properties the route builds. */
  datatype SearchResult = SearchResult(
    olid: string,
    title: Option<string>,
    author: string,
    publishYear: Value,
    coverEditionKey: Option<string>)

  /** The `searchedBooks.docs.map(...)` callback. */
  function SearchResultOf(doc: Doc): (r: Result<SearchResult>)
    ensures r.Ok? <==> doc.authorName.Some?
    ensures r.Err? ==> r.error == ReadOfUndefined("join")
    ensures r.Ok? ==> r.value.olid == Olid(doc.key)
    ensures r.Ok? ==> r.value.title == doc.title && r.value.coverEditionKey == doc.coverEditionKey
    ensures r.Ok? ==> Ok(r.value.author) == Author(doc.authorName)
    ensures r.Ok? ==> r.value.publishYear == PublishYear(doc.firstPublishYear)
  {
    var author :- Author(doc.authorName);
    Ok(SearchResult(Olid(doc.key), doc.title, author, PublishYear(doc.firstPublishYear), doc.coverEditionKey))
  }

  /**
   The search route: `Ok` holds the results it sends or renders; `Err` is the
   exception the `catch` block passes to `next`, in which case no result list
   is sent at all.
   */
  function Search(docs: seq<Doc>): (r: Result<seq<SearchResult>>)
    ensures r.Ok? <==> forall i :: 0 <= i < |docs| ==> docs[i].authorName.Some?
    ensures r.Err? ==> r.error == ReadOfUndefined("join")
    ensures r.Ok? ==> |r.value| == |docs|
    ensures r.Ok? ==> forall i :: 0 <= i < |docs| ==> Ok(r.value[i]) == SearchResultOf(docs[i])
  {
    MapAll(SearchResultOf, docs)
  }

  /** Every document of `docs` has `author_name`. */
  predicate AllHaveAuthors(docs: seq<Doc>)
  {
    forall i :: 0 <= i < |docs| ==> docs[i].authorName.Some?
  }

  /** Two runs of documents back to back all have `author_name` exactly when each run does. */
  lemma AllHaveAuthorsOfConcat(front: seq<Doc>, back: seq<Doc>)
    ensures AllHaveAuthors(front + back) <==> AllHaveAuthors(front) && AllHaveAuthors(back)
  {
    var all := front + back;
    if AllHaveAuthors(all) {
      forall i | 0 <= i < |front| ensures front[i].authorName.Some? {
        assert all[i] == front[i];
      }
      forall i | 0 <= i < |back| ensures back[i].authorName.Some? {
        assert all[|front| + i] == back[i];
      }
    }
    if AllHaveAuthors(front) && AllHaveAuthors(back) {
      forall i | 0 <= i < |all| ensures all[i].authorName.Some? {
        if i >= |front| {
          assert all[i] == back[i - |front|];
        }
      }
    }
  }

  /**
   Searching two runs of documents back to back succeeds exactly when both
   searches succeed, and then gives the two result lists back to back.
   */
  lemma SearchOfConcat(front: seq<Doc>, back: seq<Doc>)
    ensures Search(front + back).Ok? <==> Search(front).Ok? && Search(back).Ok?
    ensures Search(front + back).Ok? ==> Search(front + back).value == Search(front).value + Search(back).value
  {
    AllHaveAuthorsOfConcat(front, back);
    var all := front + back;
    if Search(all).Ok? {
      var r, f, b := Search(all).value, Search(front).value, Search(back).value;
      forall i | 0 <= i < |all| ensures r[i] == (f + b)[i] {
        if i < |front| {
          assert all[i] == front[i];
        } else {
          assert all[i] == back[i - |front|];
        }
      }
    }
  }
}

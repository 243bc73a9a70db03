/**
 How the three record-building sites (the detail page and the add-book route
 in routes/books.js, the search in routes/oli.js) relate: they share the
 `olid`, `title`, `author`, `publish_year` and `cover_edition_key` rules, and
 differ only in `description`, `links` and the stored status.
 */
module Agreement {
  import opened Js
  import opened OpenLibrary
  import opened Books
  import opened Oli

  /** The five properties of a detail record that a search result also carries. */
  function SearchPart(record: DetailRecord): SearchResult
  {
    SearchResult(record.olid, record.title, record.author, record.publishYear, record.coverEditionKey)
  }

  /** The five properties of an add-book record that a search result also carries. */
  function SearchPartOfAdd(record: AddRecord): SearchResult
  {
    SearchResult(record.olid, record.title, record.author, record.publishYear, record.coverEditionKey)
  }

  /** For one document, each site gives the same shared properties whenever it builds a record. */
  lemma SharedFieldsAgree(doc: Doc, details: WorkDetails, stored: Option<string>)
    ensures SearchResultOf(doc).Err? ==> DetailRecordOf(doc, details, stored).Err?
    ensures SearchResultOf(doc).Err? ==> AddRecordOf(doc, details).Err?
    ensures DetailRecordOf(doc, details, stored).Ok? ==>
              SearchResultOf(doc) == Ok(SearchPart(DetailRecordOf(doc, details, stored).value))
    ensures AddRecordOf(doc, details).Ok? ==>
              SearchResultOf(doc) == Ok(SearchPartOfAdd(AddRecordOf(doc, details).value))
  {
  }

  /**
   When the search succeeds on the same documents and the work has a
   description, the detail page renders a record whose shared properties are
   those of the first search result.
   */
  lemma DetailPageMatchesSearch(docs: seq<Doc>, details: WorkDetails, stored: Option<string>)
    requires Search(docs).Ok? && |docs| > 0 && !details.description.Absent?
    ensures DetailPage(docs, details, stored).Ok? && DetailPage(docs, details, stored).value.Some?
    ensures SearchPart(DetailPage(docs, details, stored).value.value) == Search(docs).value[0]
  {
    SharedFieldsAgree(docs[0], details, stored);
  }

  /**
   The inserted row and the detail page agree on everything the search
   supplies and on the links; the page shows the stored status, the row
   starts at `"not_started"`.
   */
  lemma InsertRowMatchesDetailPage(docs: seq<Doc>, details: WorkDetails, stored: Option<string>, now: int)
    requires InsertRow(docs, details, now).Ok?
    ensures DetailPage(docs, details, stored).Ok? && DetailPage(docs, details, stored).value.Some?
    ensures var row := InsertRow(docs, details, now).value;
            var page := DetailPage(docs, details, stored).value.value;
            row.id == page.olid && row.title == page.title && row.author == page.author
            && row.coverEditionKey == page.coverEditionKey && row.publishYear == page.publishYear
            && row.links == page.links && row.status == NotStarted
  {
  }

  /**
   The two description rules of routes/books.js disagree on every non-empty
   plain string other than the default text (the detail page shows the
   string, the row stores the default) and on every object with a non-empty
   `value` (the page keeps the object, the row stores the `value`).
   */
  lemma DescriptionRulesDiffer(description: Desc)
    ensures description.Text? && description.text != "" ==>
              DetailDescription(description) == Ok(description) && AddDescription(description) == Ok(NoDescription)
    ensures description.Object? && description.value.Some? && description.value.value != "" ==>
              DetailDescription(description) == Ok(description)
              && AddDescription(description) == Ok(description.value.value)
    ensures description.Absent? ==> DetailDescription(description).Err? && AddDescription(description).Err?
  {
  }

  /** Example: adding "Dune" by Frank Herbert stores it as not started. */
  lemma AddDuneScenario(now: int)
    ensures var doc := Doc("/works/OL1234W", Some("Dune"), Some(["Frank Herbert"]), Some(1965), Some("OL1M"));
            var details := WorkDetails(Object(Some("A desert planet.")), None);
            InsertRow([doc], details, now)
              == Ok(BookRow("OL1234W", Some("Dune"), "Frank Herbert", Some("OL1M"), Num(1965),
                            "A desert planet.", [], now, NotStarted))
  {
    OlidOfWorkKey("OL1234W");
  }

  /** Example: once the stored status is "reading", the detail page shows the book as in the list and reading. */
  lemma ReadingScenario(doc: Doc, details: WorkDetails)
    requires DetailRecordOf(doc, details, Some("reading")).Ok?
    ensures DetailRecordOf(doc, details, Some("reading")).value.status == "reading"
    ensures Truthy(DetailRecordOf(doc, details, Some("reading")).value.inMyList)
  {
  }
}

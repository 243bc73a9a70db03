# Book-record normalisation of a personal book collection

The application is a small Express/Postgres web app. The user searches the
Open Library catalog, saves books, and tracks reading status. Its only
logic beyond routing, SQL and HTTP calls is how it turns Open Library
responses into flat book records. This project models that step in Dafny,
as pure functions, and proves what it does:

- `GET /books/:id` (`routes/books.js`) maps every search document to a detail record.
  The record combines the document, the work's details and the stored reading status.
  The page renders the first record.
- `POST /books/:olid` (`routes/books.js`) maps the documents to add-book records.
  The first record becomes the row inserted with status `"not_started"`.
- `GET /oli/search` (`routes/oli.js`) maps every document to a five-property search result.
  An exception is handed to the framework's error handler.

Modules:

- `Js` (`js.dfy`) covers the JavaScript semantics the callbacks rely on:
  - truthiness and `||`;
  - one-argument `substring`;
  - `join(", ")`, with a left-to-right reference definition;
  - `map` with a callback that may throw.
  A throw is `Err(ReadOfUndefined(p))`, the TypeError for reading property `p` of `undefined`.
- `OpenLibrary` (`open_library.dfy`) holds the input shapes, the `olid`, `author` and
  `publish_year` rules shared by all three sites, and the `links` projection shared by the two
  routes in `routes/books.js`.
- `Books` (`books.dfy`) and `Oli` (`oli.dfy`) hold the callbacks and routes of each source file.
- `Agreement` (`agreement.dfy`) relates the three sites.

What the code does at the edges:

- The description is never split three ways into object, string and absent:
  - The detail page keeps any truthy description whole, so an object is shown, not its `value`.
  - The add-book route reads `description.value`, so a plain string always stores the default.
  - Both routes throw when the description is missing.
- A missing `author_name` throws on every route.
- A search document that fails anywhere in `docs` makes the whole map throw.
- The detail route does not answer 404 when no document is found.
  It renders `oliBook[0]`, which is `undefined`; the model gives `Ok(None)`.
- The add-book route with no document throws when it reads `book.olid`.

## Model

| member | source | states |
|---|---|---|
| Js.Truthy | routes/books.js:26 | the falsy values are exactly `false`, `0` and `""`; every other value is truthy |
| Js.Or | routes/books.js:31 | `a \|\| b` is `a` when `a` is truthy and `b` otherwise, so it is truthy whenever the fallback is |
| Js.Substring | routes/books.js:29 | `s.substring(start)` is what follows the first `start` characters, or `""` when `s` is shorter |
| Js.Join | routes/books.js:31 | `join(", ")` of the empty list is `""`; its other properties are the lemmas below |
| Js.JoinStartsWithFirst | routes/books.js:57 | a non-empty join starts with the first name |
| Js.JoinEndsWithLast | routes/oli.js:14 | a non-empty join ends with the last name |
| Js.JoinLength | routes/books.js:31 | the join's length is the names' total length plus 2 for each neighbouring pair; `[]` joins to `""` |
| Js.JoinEmptyIff | routes/books.js:31 | the join is `""` exactly for an empty list or a list holding one empty name |
| Js.JoinAppend | routes/books.js:31 | appending a name appends `", "` and that name |
| Js.JoinConcat | routes/books.js:31 | joining two non-empty lists end to end keeps both, in order, with one separator between |
| Js.JoinMatchesReference | routes/books.js:31 | the join equals the left-to-right accumulation of the names |
| Js.MapAll | routes/books.js:28-41 | a throwing `map` succeeds iff every callback does; it then gives one result per element in order; otherwise the error is that of the first throwing element |
| OpenLibrary.Olid | routes/books.js:29 | `olid` is the key without its first 7 characters, `""` for a shorter key |
| OpenLibrary.OlidOfWorkKey | routes/books.js:55 | the key `"/works/" + X` gives olid `X` |
| OpenLibrary.Author | routes/books.js:31 | a missing `author_name` throws reading `join`; an empty join gives `"Unknown"`; otherwise the names are joined left to right with `", "` |
| OpenLibrary.SingleAuthor | routes/books.js:57 | one author's name is the author, unless it is empty |
| OpenLibrary.AuthorsInOrder | routes/oli.js:14 | several authors give the first name, then `", "`, then the rest joined in order |
| OpenLibrary.PublishYear | routes/books.js:32 | `publish_year` is the first-publish year when present and non-zero, else `"N/A"`; it is always truthy |
| OpenLibrary.ProjectLinks | routes/books.js:35-38 | one link per input link, in order, each keeping exactly its `title` and `url` |
| OpenLibrary.Links | routes/books.js:61-64 | missing links give `[]`; otherwise the projection keeps length, order, `title` and `url` |
| Books.InMyList | routes/books.js:25 | no stored row gives `false`; a row gives its status string; truthy iff that status is non-empty |
| Books.Status | routes/books.js:26 | `"not_started"` with no row or an empty stored status; otherwise the stored status; never empty |
| Books.StatusFollowsInMyList | routes/books.js:25-26 | a truthy `inMyList` is the status shown; a falsy one shows `"not_started"` |
| Books.DetailDescription | routes/books.js:34 | an object description or a non-empty string is returned whole; `""` gives the default text; a missing one throws reading `value` |
| Books.DetailRecordOf | routes/books.js:28-41 | a missing `author_name` throws first, then a missing description; a built record carries the shared field rules, the links, `inMyList` and status |
| Books.DetailRecords | routes/books.js:28 | the detail route's map succeeds iff every document has `author_name` and, when there are documents, the description exists; it then gives one record per document, in order |
| Books.DetailPage | routes/books.js:28-44 | the page renders iff every document has `author_name` and, when there are documents, the description exists; it shows the first document's record, or `undefined` if there are none; the error is that of the first document's record, else the `join` one |
| Books.AddDescription | routes/books.js:60 | a plain string always gives the default; an object gives its non-empty `value`, else the default; a missing description throws reading `value` |
| Books.AddRecordOf | routes/books.js:54-65 | same failure order and shared fields as the detail record, with the add-route description and no status |
| Books.InsertRow | routes/books.js:54-69 | with no document, reading `olid` throws; otherwise a failure is the `value` error when the first document has `author_name` and there is no description, and the `join` error in every other case; on success the row is the first record's fields in column order, the given clock reading and `"not_started"` |
| Oli.SearchResultOf | routes/oli.js:11-17 | a result carries exactly `olid`, `title`, `author`, `publish_year` and `cover_edition_key`; `title` and cover key pass through; a missing `author_name` throws |
| Oli.Search | routes/oli.js:8-29 | succeeds iff every document has `author_name`; then one result per document, in order; otherwise only the error reaches `next` |
| Oli.AllHaveAuthorsOfConcat | routes/oli.js:14 | two runs of documents back to back all have `author_name` exactly when each run does |
| Oli.SearchOfConcat | routes/oli.js:11 | searching two runs of documents back to back succeeds iff both searches succeed, and then gives their result lists back to back |
| Agreement.SharedFieldsAgree | routes/oli.js:12-16 | for one document, a detail or add record exists only if the search result does, and they carry the same five shared properties |
| Agreement.DetailPageMatchesSearch | routes/books.js:28-44 | when the search succeeds and a description exists, the detail page shows the first search result's shared properties |
| Agreement.InsertRowMatchesDetailPage | routes/books.js:54-69 | an inserted row agrees with the detail page on id, title, author, cover key, year and links, and starts at `"not_started"` |
| Agreement.DescriptionRulesDiffer | routes/books.js:34 | for a non-empty plain string the detail page shows the string and the row stores the default text, so the two rules disagree on every such string other than the default text itself; for an object with a non-empty `value` the page keeps the object and the row stores the `value`; both throw on a missing description |
| Agreement.AddDuneScenario | routes/books.js:54-69 | adding work `/works/OL1234W` "Dune" by "Frank Herbert" inserts id `OL1234W`, author "Frank Herbert", status `"not_started"` |
| Agreement.ReadingScenario | routes/books.js:25-40 | with stored status `"reading"` the detail record shows status `"reading"` and a truthy `inMyList` |

## Left out

- `client/open-library-client.js` is not part of this model.
  - Its functions are HTTP GETs against openlibrary.org.
  - The search documents and work details appear as function parameters.
  - `fetchBookCovers` ignores its argument and fetches a fixed URL (line 4).
- `routes/index.js` and every `db.query` are not part of this model. They are SQL over a database that is not shown.
  - The stored status is an `Option<string>` parameter: `Some(s)` when `rowCount > 0`.
  - A row whose status is SQL `NULL` is not modelled.
- `new Date()` is not modelled; the clock reading is a parameter of `InsertRow`.
- Not modelled: `res.render`, `res.redirect`, `res.json`, `console.log`, the `ajax` JSON-versus-render branch
  and Express route matching. These are framework behaviour.
- The stub handlers at `routes/books.js:91-123` are not modelled. They ignore their input and send fixed text.
- `GET /books/` renders a fixed empty list and is not modelled either.
- Only `false`, `0` and `""` are modelled as falsy. Years are integers, so `NaN` and fractional years are not modelled.
- Every `key` is a string. A document without `key`, or a `null` or missing `links` element, would throw; neither is modelled.
- Strings are sequences of Dafny characters, not UTF-16 code units; `substring(7)` counts characters.

# books-angular: session, login form and infinite-scroll catalog in Dafny

This project models the behavioural core of a small Angular single-page
application: a login form with client-side validation, a session service
that keeps the logged-in user in local storage, a catalog service that holds
the latest page of books fetched from a REST API, and a book-list component
that accumulates pages as the user scrolls.

Modules, one per source file or shared concern:

- `Models` (`models.dfy`): the records (user, book, page metadata, response
  envelope), HTTP outcomes and errors, requests and toasts.
- `Effects` (`effects.dfy`): `Toastr`, `Router` and `LocalStorage` as
  shared objects that record what was asked of them.
- `Urls` (`urls.dfy`): the URLs the catalog builds by concatenation,
  including the decimal rendering of page numbers and identifiers, with
  parsers that read them back.
- `Catalog` (`catalog.dfy`): `BooksService`, with the latest response as a
  field and its five HTTP operations.
- `BookList` (`book_list.dfy`): the component's state (`books`, `meta`,
  `isLoading`, `pageIndex`) specified as a `ListState` value with one
  function per event, the `BookListComponent` class proved to follow them,
  and lemmas about whole sequences of events.
- `Auth` (`auth.dfy`): `AuthService`, its restore-from-storage, login and
  logout, and the choice of error message.
- `Login` (`login.dfy`): the password rule as a matcher that follows the
  regular expression's structure, proved equal to a plain statement of the
  rule; the validators; and `LoginComponent`.

Asynchrony is made explicit. An HTTP request's eventual outcome is a
parameter (`HttpResult`), a stream emission is a call to the subscriber's
handler, and a request the book list makes of the catalog is returned as a
`PageRequest` value. `JSON.stringify`/`JSON.parse` are an opaque `Codec`
pair; `Auth.Lawful` states what they guarantee of each other.

Behaviour of the code that the model keeps as written:

- The in-flight flag of the book list is set by a load-more fetch and
  cleared only by the stream's `finalize`, which runs on teardown. So after
  one load-more fetch, no later scroll fetches anything
  (`BookList.InFlightLatches`, `BookList.AtMostOneRequest`).
- The page index is incremented on every scroll, even when the guard
  suppresses the fetch. A scroll before the first page arrives therefore
  makes the first real load-more ask for page 3 (`BookList.EarlyScrollSkipsPage`).
- "First page" is decided by whether the list is still undefined, not by the
  page number. The replayed initial `{data: []}` is that first emission, and
  the real first page is appended to it (`BookList.StartupReplayThenFirstPage`).
- Nothing bounds the accumulated list by `totalItems`, and nothing removes
  duplicates.

## Model

| member | source | states |
|---|---|---|
| `Urls.NatToDecimal` | src/app/books/shared/services/books.service.ts:29 | a page number renders as a non-empty run of decimal digits with no leading zero |
| `Urls.IntToString` | src/app/books/shared/services/books.service.ts:29 | an integer renders as digits, with a minus sign only for negative numbers |
| `Urls.DecimalRoundTrip` | src/app/books/shared/services/books.service.ts:29 | the digits read back to the number they render |
| `Urls.IntToStringRoundTrip` | src/app/books/shared/services/books.service.ts:29 | any integer's rendering parses back to that integer, so distinct pages and ids render differently |
| `Urls.AllBooksUrlRoundTrip` | src/app/books/shared/services/books.service.ts:13-32 | `AllBooksUrl` builds a page URL as `apiUrl/books?page=<page>`, followed by `&genre=<genre>` exactly when the genre is truthy; it carries that page and that genre and nothing else |
| `Urls.AllBooksUrlInjective` | src/app/books/shared/services/books.service.ts:29-32 | two page URLs are equal iff they ask for the same page with the same truthy genre, so genre `''` and no genre give the same URL |
| `Urls.BookUrlRoundTrip` | src/app/books/shared/services/books.service.ts:51 | `BookUrl`, the by-id, update and delete URL `apiUrl/books/<id>`, carries exactly the id |
| `Urls.CollectionUrlDistinct` | src/app/books/shared/services/books.service.ts:70 | `CollectionUrl`, the create URL `apiUrl/books`, is neither a by-id URL nor a page URL |
| `Catalog.InitialResponse` | src/app/books/shared/services/books.service.ts:16-18 | the catalog's initial value has no books and no metadata |
| `Catalog.BooksService.constructor` | src/app/books/shared/services/books.service.ts:16-18 | the service starts with `{data: []}` as its latest value |
| `Catalog.BooksService.GetAllBooks` | src/app/books/shared/services/books.service.ts:28-44 | a GET for the page URL; success replaces the latest value wholesale with no toast; failure keeps it and shows exactly one error toast |
| `Catalog.BooksService.GetBookById` | src/app/books/shared/services/books.service.ts:50-63 | a GET of `apiUrl/books/<id>`; the result passes through, failure shows an error toast, the catalog state is unchanged |
| `Catalog.BooksService.CreateBook` | src/app/books/shared/services/books.service.ts:69-82 | a POST of the book to `apiUrl/books`; one success or error toast; the catalog state is unchanged |
| `Catalog.BooksService.UpdateBook` | src/app/books/shared/services/books.service.ts:89-102 | a PUT of the book to `apiUrl/books/<id>`; one success or error toast; the catalog state is unchanged |
| `Catalog.BooksService.DeleteBook` | src/app/books/shared/services/books.service.ts:108-121 | a DELETE of `apiUrl/books/<id>`; one success or error toast; the catalog state is unchanged |
| `BookList.BookListComponent.constructor` | src/app/books/book-list/book-list.component.ts:17-30 | `books` and `meta` undefined, not loading, page index 1 |
| `BookList.FirstEmissionSets` | src/app/books/book-list/book-list.component.ts:58-64 | an emission while `books` is undefined sets it to exactly the response's data and leaves `meta` unchanged |
| `BookList.LaterEmissionAppends` | src/app/books/book-list/book-list.component.ts:58-61 | an emission while `books` is defined keeps the old list as a prefix, appends the data in order with no dedup (lengths add up) and sets `meta` to the response's |
| `BookList.LoadMoreGuard` | src/app/books/book-list/book-list.component.ts:73-86 | for `BookList.LoadMore`: a scroll always increments the page index; it fetches iff the end-of-data guard and the in-flight flag both allow it, then asks for the new page with genre `''` and sets the flag |
| `BookList.NoMetaMeansEndOfData` | src/app/books/book-list/book-list.component.ts:75-77 | with `meta` undefined the guard `BookList.EndOfData` reads `0 >= 0`, so nothing is fetched |
| `BookList.GuardExamples` | src/app/books/book-list/book-list.component.ts:75-77 | with 25 items in pages of 10, pages 1 and 2 allow a fetch and page 3 does not |
| `BookList.ZeroPageSizeFallsBack` | src/app/books/book-list/book-list.component.ts:76 | a zero `itemsPerPage` is replaced by 1 through `||` |
| `BookList.InFlightLatches` | src/app/books/book-list/book-list.component.ts:49-86 | once a fetch is in flight, no sequence of emissions and scrolls clears the flag or issues another request |
| `BookList.AtMostOneRequest` | src/app/books/book-list/book-list.component.ts:73-86 | any sequence of events issues at most one load-more request |
| `BookList.PageIndexCountsScrolls` | src/app/books/book-list/book-list.component.ts:73-74 | after any sequence of events the page index has grown by exactly the number of scrolls |
| `BookList.ListOnlyGrows` | src/app/books/book-list/book-list.component.ts:58-64 | once defined, the list stays defined and keeps everything it showed as a prefix |
| `BookList.StartupReplayThenFirstPage` | src/app/books/book-list/book-list.component.ts:45-89 | the replayed `{data: []}` then page 1 leave the list equal to page 1's data and `meta` equal to its metadata |
| `BookList.EarlyScrollSkipsPage` | src/app/books/book-list/book-list.component.ts:73-86 | a scroll before page 1 arrives makes the next load-more request page 3, never page 2 |
| `BookList.BookListComponent.NgOnInit` | src/app/books/book-list/book-list.component.ts:45-89 | subscribing delivers the catalog's current value as an emission, then page `pageIndex` is requested with genre `''` |
| `BookList.BookListComponent.OnNext` | src/app/books/book-list/book-list.component.ts:56-65 | the component's fields follow `BookList.Emitted` (set on first emission, append after), whose properties are `FirstEmissionSets` and `LaterEmissionAppends` |
| `BookList.BookListComponent.OnLoadMore` | src/app/books/book-list/book-list.component.ts:73-86 | the component's fields and the issued request follow `BookList.LoadMore`, whose guard `BookList.EndOfData` is characterised by `LoadMoreGuard` |
| `BookList.BookListComponent.NgOnDestroy` | src/app/books/book-list/book-list.component.ts:49-53 | teardown runs `finalize`, the only place the in-flight flag is cleared |
| `BookList.Deliver` | src/app/books/shared/services/books.service.ts:34-38 | a successful page replaces the catalog value, is emitted to the component and shows no toast; a failed one changes neither and shows exactly one "Error while retrieving books" toast |
| `BookList.MountAndLoadFirstPage` | src/app/books/book-list/book-list.component.ts:45-89 | mounting on a fresh catalog and serving page 1 leaves the list equal to page 1's data, `meta` its metadata, page index 1, and shows no toast |
| `Auth.AuthService.constructor` | src/app/auth/shared/services/auth.service.ts:30-41 | the user starts null and is set to `Auth.Restored` of the store: restored only from a non-empty stored `currentUser` value that parses; failures leave it null |
| `Auth.LoginErrorMessage` | src/app/auth/shared/services/auth.service.ts:66-72 | the error toast is the server's `error.meta.message` when present and non-empty, the fixed fallback otherwise, and never empty |
| `Auth.RestoreAfterLogin` | src/app/auth/shared/services/auth.service.ts:58-62 | after a successful login, restoring from the store gives back exactly the logged-in user |
| `Auth.RestoreAfterLogout` | src/app/auth/shared/services/auth.service.ts:80-84 | after logout, restoring from the store gives no user |
| `Auth.RestoreFailuresGiveNoUser` | src/app/auth/shared/services/auth.service.ts:35-40 | a missing, empty or unparsable stored value restores no user, with no error |
| `Auth.AuthService.Login` | src/app/auth/shared/services/auth.service.ts:47-75 | a POST to the login URL; success sets the user to `result.data`, shows the success toast, stores its serialisation and navigates to `''`; failure changes neither user nor store and shows the chosen error toast |
| `Auth.AuthService.Logout` | src/app/auth/shared/services/auth.service.ts:80-84 | the user becomes null, only the `currentUser` key is removed, and navigation to `auth/login` is requested |
| `Auth.LogoutTwice` | src/app/auth/shared/services/auth.service.ts:80-84 | two logouts leave user and store as one does |
| `Auth.LoginThenReload` | src/app/auth/shared/services/auth.service.ts:30-62 | a service constructed on the storage after a successful login restores the logged-in user |
| `Login.PlusToEndIff` | src/app/auth/login/login.component.ts:118 | `[A-Za-z\d@$!%*?&]+$` from the start holds iff the string is non-empty and every character is in the class |
| `Login.LookaheadIff` | src/app/auth/login/login.component.ts:118 | on such a string, each lookahead `(?=.*[k])` holds iff a character of class k occurs |
| `Login.RegexMatchesRule` | src/app/auth/login/login.component.ts:116-120 | the regular expression, modelled by `Login.PasswordRegexTest`, accepts a password iff it is non-empty, has an A-Z, a 0-9 and one of `@$!%*?&`, and has only `[A-Za-z0-9@$!%*?&]` characters |
| `Login.LineBreakRejected` | src/app/auth/login/login.component.ts:117-118 | a password containing a line terminator is rejected |
| `Login.UsernameError` | src/app/auth/login/login.component.ts:95-101 | the username error is "Username is required" exactly when the username is empty, `''` otherwise |
| `Login.PasswordError` | src/app/auth/login/login.component.ts:108-127 | an empty password gets "Password is required" before the strength check; a non-empty one gets `''` iff it is strong, the strength message otherwise |
| `Login.SubmitAllowedIff` | src/app/auth/login/login.component.ts:139-143 | the form is submitted iff the username is non-empty and the password is strong |
| `Login.DefaultCredentials` | src/app/auth/login/login.component.ts:46-49 | `admin` / `Admin@123` pass both validators; `weak` gets the strength message |
| `Login.LoginComponent.constructor` | src/app/auth/login/login.component.ts:42-66 | the form starts with `admin` / `Admin@123`, no errors, not loading, password hidden |
| `Login.LoginComponent.TogglePasswordVisibility` | src/app/auth/login/login.component.ts:86-88 | the visibility flag is negated and nothing else changes, so two toggles restore it |
| `Login.LoginComponent.ValidateUsername` | src/app/auth/login/login.component.ts:95-101 | writes the username error as `UsernameError` and no other field |
| `Login.LoginComponent.ValidatePassword` | src/app/auth/login/login.component.ts:108-127 | writes the password error as `PasswordError` and no other field |
| `Login.LoginComponent.Login` | src/app/auth/login/login.component.ts:136-149 | validates both fields; with an error it sends nothing and leaves the loading flag; otherwise it sets the flag and sends the form's credentials |
| `Login.LoginComponent.LoginSettled` | src/app/auth/login/login.component.ts:150-157 | when the request settles the auth service's effects happen, success also navigates to `''`, and `finalize` clears the loading flag either way |
| `Login.Submit` | src/app/auth/login/login.component.ts:136-158 | the form's data are unchanged and both errors are written; a form that was invalid when submitted never reaches the auth service (session, store, toasts, navigation, flag untouched); a valid one ends not loading, with session, store, toast and navigation following the outcome |
| `Login.SubmitDefaultForm` | src/app/auth/login/login.component.ts:46-49 | submitting the pre-filled `admin` / `Admin@123` form with a successful outcome logs the returned user in, with no field errors and the loading flag cleared |

## Left out

- HTTP transport, RxJS subscription mechanics and delivery order: outcomes are parameters and emissions are explicit calls. Responses that arrive out of order are concurrency and are not modelled.
- Events delivered after `ngOnDestroy` has unsubscribed are not modelled.
- `onScroll` and `isScrolledToBottom` read window and document geometry, which may be fractional. The model treats "scrolled to bottom" as an input event.
- `JSON.stringify` and `JSON.parse` are an opaque `Codec`. The model's parse yields a user, `null`, or a failure. The source would also publish any other JSON value that parses (a number, say) as the current user.
- `localStorage.getItem` is modelled as never throwing. A storage that throws would also be swallowed by the constructor's `try`, leaving the user null.
- JavaScript numbers are integers here. The model does not render non-integer pages, `NaN`, or the exponent notation used from 1e21 on.
- The genre is concatenated without URL-encoding, as in the source. The model does not interpret the resulting query string beyond its own parser.
- `console.log` calls and `event.preventDefault()` have no modelled effect.
- `Book` fields other than the identifier are an opaque key/value record. The file src/app/shared/models/Books.ts is not part of this model.
- The login component's subscription has no error callback, so the runtime reports an unhandled error on failure. That report is not modelled.
- The 401 redirect in the error interceptor, the input-border directive, the header component, and the module and routing files are framework glue and are not modelled.

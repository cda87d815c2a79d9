/** `BooksService`: the catalog's latest-response state (the value its
    `BehaviorSubject` replays) and the five HTTP operations. Each operation
    takes the way its request eventually settles as a parameter and returns
    the request it issued. */
module Catalog {
  import opened Models
  import opened Urls
  import opened Effects

  /** The value the stream starts with, before any page has arrived. */
  function InitialResponse(): (r: Response)
    ensures r.data == [] && r.meta.None?
  {
    Response([], None)
  }

  class BooksService {
    /** The latest response envelope, replayed to every new subscriber. */
    var latest: Response
    const toastr: Toastr

    constructor (toastr: Toastr)
      ensures latest == InitialResponse()
      ensures this.toastr == toastr
    {
      latest := Response([], None);
      this.toastr := toastr;
    }

    /** `getAllBooks(page, genre)`: a GET for the page URL; a response
        replaces the latest value wholesale, an error leaves it as it was and
        shows one error notification. */
    method GetAllBooks(page: int, genre: Option<string>, outcome: HttpResult<Response>) returns (request: Request<Book>)
      modifies this, toastr
      ensures request == Request(Get, AllBooksUrl(page, genre), None)
      ensures outcome.Ok? ==> latest == outcome.body && toastr.shown == old(toastr.shown)
      ensures outcome.Failed? ==> latest == old(latest)
      ensures outcome.Failed? ==> toastr.shown == old(toastr.shown) + [Toast(Error, "Error while retrieving books", "Error")]
    {
      var url := PagePrefix + IntToString(page);
      if GenreGiven(genre) {
        url := url + GenreSeparator + genre.value;
      }
      request := Request(Get, url, None);
      match outcome
      case Ok(response) =>
        latest := response;
      case Failed(_) =>
        toastr.Error("Error while retrieving books", "Error");
    }

    /** `getBookById(id)`: a GET for the book's URL; the result passes
        through unchanged, an error also shows a notification. */
    method GetBookById(id: int, outcome: HttpResult<Book>) returns (request: Request<Book>, result: HttpResult<Book>)
      modifies toastr
      ensures request == Request(Get, BookUrl(id), None) && result == outcome
      ensures latest == old(latest)
      ensures toastr.shown == old(toastr.shown) + (if outcome.Ok? then [] else [Toast(Error, "Error while retrieving the book", "Error")])
    {
      request := Request(Get, ItemPrefix + IntToString(id), None);
      result := outcome;
      if outcome.Failed? {
        toastr.Error("Error while retrieving the book", "Error");
      }
    }

    /** `createBook(bookData)`: a POST of the book to the collection URL. */
    method CreateBook<T>(book: Book, outcome: HttpResult<T>) returns (request: Request<Book>, result: HttpResult<T>)
      modifies toastr
      ensures request == Request(Post, CollectionUrl(), Some(book)) && result == outcome
      ensures latest == old(latest)
      ensures toastr.shown == old(toastr.shown) + [Notice(outcome, "Book created successfully!", "Error while creating the book")]
    {
      request := Request(Post, ApiUrl + "/books", Some(book));
      result := outcome;
      if outcome.Ok? {
        toastr.Success("Book created successfully!", "Success");
      } else {
        toastr.Error("Error while creating the book", "Error");
      }
    }

    /** `updateBook(id, bookData)`: a PUT of the book to the book's URL. */
    method UpdateBook<T>(id: int, book: Book, outcome: HttpResult<T>) returns (request: Request<Book>, result: HttpResult<T>)
      modifies toastr
      ensures request == Request(Put, BookUrl(id), Some(book)) && result == outcome
      ensures latest == old(latest)
      ensures toastr.shown == old(toastr.shown) + [Notice(outcome, "Book updated successfully!", "Error while updating the book")]
    {
      request := Request(Put, ItemPrefix + IntToString(id), Some(book));
      result := outcome;
      if outcome.Ok? {
        toastr.Success("Book updated successfully!", "Success");
      } else {
        toastr.Error("Error while updating the book", "Error");
      }
    }

    /** `deleteBook(id)`: a DELETE of the book's URL. */
    method DeleteBook<T>(id: int, outcome: HttpResult<T>) returns (request: Request<Book>, result: HttpResult<T>)
      modifies toastr
      ensures request == Request(Delete, BookUrl(id), None) && result == outcome
      ensures latest == old(latest)
      ensures toastr.shown == old(toastr.shown) + [Notice(outcome, "Book removed successfully!", "Error while removing the book")]
    {
      request := Request(Delete, ItemPrefix + IntToString(id), None);
      result := outcome;
      if outcome.Ok? {
        toastr.Success("Book removed successfully!", "Success");
      } else {
        toastr.Error("Error while removing the book", "Error");
      }
    }
  }

  /** The notification a create, update or delete shows: a success toast
      titled "Success" when the request succeeds, an error toast titled
      "Error" when it fails. */
  function Notice<T>(outcome: HttpResult<T>, success: string, failure: string): Toast {
    if outcome.Ok? then Toast(Success, success, "Success") else Toast(Error, failure, "Error")
  }
}

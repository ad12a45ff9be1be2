/**
 * The reading-list store: the sequence `books`, with `addBook`, a merging
 * `updateBook`, `deleteBook`, and `updateProgress`, which also decides the
 * reading status from the page reached.
 */
module Books {
  import opened Wrappers
  import Seqs
  import Collection

  datatype Status = ToRead | Reading | Completed | Abandoned

  /** A book. Dates are millisecond timestamps; page counts are whole numbers. */
  datatype Book = Book(
    id: string,
    isbn: Option<string>,
    title: string,
    author: string,
    coverUrl: Option<string>,
    totalPages: int,
    currentPage: int,
    status: Status,
    rating: Option<int>,
    notes: Option<string>,
    startDate: Option<int>,
    finishDate: Option<int>,
    createdAt: int,
    updatedAt: int)

  /** `Omit<Book, 'id' | 'createdAt' | 'updatedAt'>`: what `addBook` is given. */
  datatype BookDraft = BookDraft(
    isbn: Option<string>,
    title: string,
    author: string,
    coverUrl: Option<string>,
    totalPages: int,
    currentPage: int,
    status: Status,
    rating: Option<int>,
    notes: Option<string>,
    startDate: Option<int>,
    finishDate: Option<int>)

  /**
   * `Partial<Book>`: `None` leaves a property as it is; for an optional
   * property `Some(None)` is an explicit `undefined`, which clears it.
   */
  datatype BookPatch = BookPatch(
    id: Option<string>,
    isbn: Option<Option<string>>,
    title: Option<string>,
    author: Option<string>,
    coverUrl: Option<Option<string>>,
    totalPages: Option<int>,
    currentPage: Option<int>,
    status: Option<Status>,
    rating: Option<Option<int>>,
    notes: Option<Option<string>>,
    startDate: Option<Option<int>>,
    finishDate: Option<Option<int>>,
    createdAt: Option<int>,
    updatedAt: Option<int>)

  const NoChanges: BookPatch :=
    BookPatch(None, None, None, None, None, None, None, None, None, None, None, None, None, None)

  function BookId(b: Book): string {
    b.id
  }

  /** `{...draft, id, createdAt: now, updatedAt: now}`. */
  function Create(d: BookDraft, id: string, now: int): Book {
    Book(id, d.isbn, d.title, d.author, d.coverUrl, d.totalPages, d.currentPage, d.status,
         d.rating, d.notes, d.startDate, d.finishDate, now, now)
  }

  /** The caller-supplied part of a book. */
  function DraftOf(b: Book): BookDraft {
    BookDraft(b.isbn, b.title, b.author, b.coverUrl, b.totalPages, b.currentPage, b.status,
              b.rating, b.notes, b.startDate, b.finishDate)
  }

  /** `{...b, ...p, updatedAt: now}`. */
  function Merge(b: Book, p: BookPatch, now: int): Book {
    Book(p.id.GetOr(b.id), p.isbn.GetOr(b.isbn), p.title.GetOr(b.title),
         p.author.GetOr(b.author), p.coverUrl.GetOr(b.coverUrl),
         p.totalPages.GetOr(b.totalPages), p.currentPage.GetOr(b.currentPage),
         p.status.GetOr(b.status), p.rating.GetOr(b.rating), p.notes.GetOr(b.notes),
         p.startDate.GetOr(b.startDate), p.finishDate.GetOr(b.finishDate),
         p.createdAt.GetOr(b.createdAt), now)
  }

  function MergeWith(p: BookPatch, now: int): Book -> Book {
    b => Merge(b, p, now)
  }

  /**
   * The book after `updateProgress(id, page)`: finished once the page reaches
   * the total, otherwise being read, whatever the status was before.
   */
  function Progressed(b: Book, page: int, now: int): Book {
    var done := page >= b.totalPages;
    b.(currentPage := page,
       status := if done then Completed else Reading,
       finishDate := if done then Some(now) else b.finishDate,
       updatedAt := now)
  }

  function ProgressWith(page: int, now: int): Book -> Book {
    b => Progressed(b, page, now)
  }

  function Added(books: seq<Book>, d: BookDraft, id: string, now: int): seq<Book> {
    books + [Create(d, id, now)]
  }

  function Updated(books: seq<Book>, id: string, p: BookPatch, now: int): seq<Book> {
    Collection.Replace(books, BookId, id, MergeWith(p, now))
  }

  function Deleted(books: seq<Book>, id: string): seq<Book> {
    Collection.Remove(books, BookId, id)
  }

  function ProgressUpdated(books: seq<Book>, id: string, page: int, now: int): seq<Book> {
    Collection.Replace(books, BookId, id, ProgressWith(page, now))
  }

  class BooksStore {
    var books: seq<Book>

    constructor (initial: seq<Book>)
      ensures books == initial
    {
      books := initial;
    }

    method AddBook(draft: BookDraft, freshId: string, now: int)
      requires Collection.IsFresh(books, BookId, freshId)
      modifies this
      ensures books == Added(old(books), draft, freshId, now)
    {
      books := Added(books, draft, freshId, now);
    }

    method UpdateBook(id: string, updates: BookPatch, now: int)
      modifies this
      ensures books == Updated(old(books), id, updates, now)
    {
      books := Updated(books, id, updates, now);
    }

    method DeleteBook(id: string)
      modifies this
      ensures books == Deleted(old(books), id)
    {
      books := Deleted(books, id);
    }

    method UpdateProgress(id: string, currentPage: int, now: int)
      modifies this
      ensures books == ProgressUpdated(old(books), id, currentPage, now)
    {
      books := ProgressUpdated(books, id, currentPage, now);
    }
  }

  /**
   * `addBook` appends one book carrying the draft, the fresh id and the clock
   * as both timestamps; a query by the fresh id finds exactly it.
   */
  lemma AddBookAppends(books: seq<Book>, d: BookDraft, id: string, now: int)
    requires Collection.IsFresh(books, BookId, id)
    ensures var r := Added(books, d, id, now);
      && |r| == |books| + 1
      && r[..|books|] == books
      && DraftOf(r[|books|]) == d
      && r[|books|].id == id && r[|books|].createdAt == now && r[|books|].updatedAt == now
      && Collection.Find(r, BookId, id) == [r[|books|]]
      && (Collection.UniqueIds(books, BookId) ==> Collection.UniqueIds(r, BookId))
  {
    Collection.AppendFresh(books, BookId, Create(d, id, now));
    assert (books + [Create(d, id, now)])[..|books|] == books;
  }

  /**
   * `updateBook` merges the patch into the books with the id and stamps
   * `now`; the others are untouched and an absent id changes nothing.
   */
  lemma UpdateBookEffect(books: seq<Book>, id: string, p: BookPatch, now: int)
    ensures var r := Updated(books, id, p, now);
      && |r| == |books|
      && (forall i :: 0 <= i < |books| && books[i].id != id ==> r[i] == books[i])
      && (forall i :: 0 <= i < |books| && books[i].id == id ==>
            r[i] == Merge(books[i], p, now) && r[i].updatedAt == now)
      && (Collection.IsFresh(books, BookId, id) ==> r == books)
      && (p.id.None? && Collection.UniqueIds(books, BookId) ==> Collection.UniqueIds(r, BookId))
  {
    Collection.ReplaceEffect(books, BookId, id, MergeWith(p, now));
    if p.id.None? && Collection.UniqueIds(books, BookId) {
      Collection.ReplaceKeepsUnique(books, BookId, id, MergeWith(p, now));
    }
  }

  /** An empty patch only refreshes `updatedAt`; the same patch twice is the patch once. */
  lemma MergeLaws(b: Book, p: BookPatch, n1: int, n2: int)
    ensures Merge(b, NoChanges, n2) == b.(updatedAt := n2)
    ensures Merge(Merge(b, p, n1), p, n2) == Merge(b, p, n2)
  {
  }

  /** `deleteBook` removes exactly the books with the id and keeps the rest. */
  lemma DeleteBookEffect(books: seq<Book>, id: string)
    ensures var r := Deleted(books, id);
      && Collection.IsFresh(r, BookId, id)
      && (forall b :: b in books && b.id != id ==> b in r)
      && (forall b :: b in r ==> b in books)
      && |r| + |Collection.Find(books, BookId, id)| == |books|
      && (Collection.UniqueIds(books, BookId) ==> Collection.UniqueIds(r, BookId))
  {
    Collection.RemoveEffect(books, BookId, id);
    if Collection.UniqueIds(books, BookId) {
      Collection.FilterKeepsUnique(books, BookId, Seqs.Not(Collection.WithId(BookId, id)));
    }
  }

  /**
   * `updateProgress` records the page on the books with the id; the status is
   * `Completed` exactly when the page reaches the total, and `Reading`
   * otherwise; the finish date is the clock on completion and is kept
   * otherwise; nothing but page, status, finish date and `updatedAt` changes.
   */
  lemma UpdateProgressEffect(books: seq<Book>, id: string, page: int, now: int)
    ensures var r := ProgressUpdated(books, id, page, now);
      && |r| == |books|
      && (forall i :: 0 <= i < |books| && books[i].id != id ==> r[i] == books[i])
      && (forall i :: 0 <= i < |books| && books[i].id == id ==>
            && r[i].currentPage == page
            && (r[i].status == Completed <==> page >= books[i].totalPages)
            && (r[i].status != Completed ==> r[i].status == Reading)
            && r[i].finishDate == (if page >= books[i].totalPages then Some(now) else books[i].finishDate)
            && r[i].updatedAt == now
            && DraftOf(r[i]).(currentPage := books[i].currentPage, status := books[i].status,
                              finishDate := books[i].finishDate) == DraftOf(books[i])
            && r[i].id == books[i].id && r[i].createdAt == books[i].createdAt)
      && (Collection.IsFresh(books, BookId, id) ==> r == books)
  {
    Collection.ReplaceEffect(books, BookId, id, ProgressWith(page, now));
  }

  /**
   * Progress below the total reopens a finished or abandoned book as being
   * read, and a finished book keeps its old finish date.
   */
  lemma ProgressReopens(b: Book, page: int, now: int)
    requires page < b.totalPages
    requires b.status == Completed || b.status == Abandoned
    ensures Progressed(b, page, now).status == Reading
    ensures Progressed(b, page, now).finishDate == b.finishDate
  {
  }

  /** `updateProgress` is an update: the same as `updateBook` with the patch it derives. */
  lemma ProgressIsUpdate(b: Book, page: int, now: int)
    ensures Progressed(b, page, now) ==
      Merge(b, NoChanges.(currentPage := Some(page),
                          status := Some(if page >= b.totalPages then Completed else Reading),
                          finishDate := Some(if page >= b.totalPages then Some(now) else b.finishDate)), now)
  {
  }

  /** Recording the same page again changes only the timestamps it sets. */
  lemma ProgressTwice(b: Book, page: int, n1: int, n2: int)
    ensures Progressed(Progressed(b, page, n1), page, n2) == Progressed(b, page, n2)
  {
  }
}

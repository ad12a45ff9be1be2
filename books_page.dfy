/**
 * What the books page derives from the store: the visible books (search and
 * status filter, then status rank and recency), the reading statistics, the
 * progress bar, the clamped page input, the add form, and the two menu
 * actions that update a book.
 */
module BooksPage {
  import opened Wrappers
  import Seqs
  import Text
  import Books

  /** The value of the status filter for each status. */
  function StatusName(s: Books.Status): string {
    match s
    case ToRead => "to-read"
    case Reading => "reading"
    case Completed => "completed"
    case Abandoned => "abandoned"
  }

  /** `{ reading: 0, "to-read": 1, completed: 2, abandoned: 3 }`. */
  function StatusRank(s: Books.Status): int {
    match s
    case Reading => 0
    case ToRead => 1
    case Completed => 2
    case Abandoned => 3
  }

  predicate MatchesSearch(b: Books.Book, query: string) {
    Text.IncludesIgnoringCase(b.title, query) || Text.IncludesIgnoringCase(b.author, query)
  }

  /** The filter callback of `filteredBooks`. */
  function Shown(query: string, status: string): Books.Book -> bool {
    b => MatchesSearch(b, query) && (status == "all" || status == StatusName(b.status))
  }

  /** The sort callback: by status rank, then the most recently updated first. */
  function CompareBooks(a: Books.Book, b: Books.Book): int {
    if StatusRank(a.status) != StatusRank(b.status) then StatusRank(a.status) - StatusRank(b.status)
    else b.updatedAt - a.updatedAt
  }

  function BookOrder(): (Books.Book, Books.Book) -> int {
    (a, b) => CompareBooks(a, b)
  }

  /** `filteredBooks`. */
  function FilteredBooks(books: seq<Books.Book>, query: string, status: string): seq<Books.Book> {
    Seqs.SortBy(Seqs.Filter(books, Shown(query, status)), BookOrder())
  }

  function HasStatus(s: Books.Status): Books.Book -> bool {
    (b: Books.Book) => b.status == s
  }

  /** `readingCount`. */
  function ReadingCount(books: seq<Books.Book>): nat {
    |Seqs.Filter(books, HasStatus(Books.Reading))|
  }

  /** `completedCount`. */
  function CompletedCount(books: seq<Books.Book>): nat {
    |Seqs.Filter(books, HasStatus(Books.Completed))|
  }

  /** The pages a book contributes to the total read: all of them once it is finished. */
  function PagesOf(b: Books.Book): real {
    if b.status == Books.Completed then b.totalPages as real else b.currentPage as real
  }

  function TotalPagesOf(b: Books.Book): real {
    b.totalPages as real
  }

  /** `totalPages`, the pages read across the library. */
  function PagesRead(books: seq<Books.Book>): real {
    Seqs.Sum(books, PagesOf)
  }

  /** The progress bar: the share of pages read, 0 for a book without pages. */
  function ProgressPercent(b: Books.Book): real {
    if b.totalPages > 0 then (b.currentPage as real / b.totalPages as real) * 100.0 else 0.0
  }

  /**
   * `Math.min(parseInt(input) || 0, totalPages)`: `parsed` is `None` when the
   * input is not a number.
   */
  function ClampedPage(parsed: Option<int>, totalPages: int): int {
    var page := parsed.GetOr(0);
    if page < totalPages then page else totalPages
  }

  /**
   * `handleAddBook`: nothing unless title and author are non-blank; otherwise
   * a book to read, at page 0, with empty optional inputs left absent.
   */
  function BookFromForm(title: string, author: string, totalPages: Option<int>, isbn: string, notes: string): Option<Books.BookDraft> {
    if Text.IsBlank(title) || Text.IsBlank(author) then None
    else Some(Books.BookDraft(Text.OrNone(isbn), title, author, None, totalPages.GetOr(0), 0,
                              Books.ToRead, None, Text.OrNone(notes), None, None))
  }

  /** The "Mark Complete" action: completed, at the last page, finished now. */
  function MarkComplete(b: Books.Book, now: int): Books.BookPatch {
    Books.NoChanges.(status := Some(Books.Completed), currentPage := Some(b.totalPages),
                     finishDate := Some(Some(now)))
  }

  /** The "Start Reading" action. */
  const StartReading: Books.BookPatch := Books.NoChanges.(status := Some(Books.Reading))

  /** Reading, then to read, then completed, then abandoned. */
  lemma StatusRankOrder()
    ensures StatusRank(Books.Reading) < StatusRank(Books.ToRead) < StatusRank(Books.Completed)
            < StatusRank(Books.Abandoned)
    ensures forall s, t :: StatusRank(s) == StatusRank(t) ==> s == t
  {
  }

  /** The book comparator is a consistent order, so the sorted list is well defined. */
  lemma BookOrderConsistent()
    ensures Seqs.Consistent(BookOrder())
  {
    forall a, b, c | BookOrder()(a, b) <= 0 && BookOrder()(b, c) <= 0
      ensures BookOrder()(a, c) <= 0
    {
      assert CompareBooks(a, b) <= 0 && CompareBooks(b, c) <= 0;
    }
  }

  /**
   * A book is listed exactly when it is in the store, its title or author
   * contains the query, and the status filter admits it.
   */
  lemma FilteredBooksMembers(books: seq<Books.Book>, query: string, status: string, b: Books.Book)
    ensures b in FilteredBooks(books, query, status) <==>
      b in books && MatchesSearch(b, query) && (status == "all" || status == StatusName(b.status))
  {
    var keep := Shown(query, status);
    Seqs.SortByMembers(Seqs.Filter(books, keep), BookOrder(), b);
    if b in books && keep(b) {
      Seqs.FilterKeeps(books, keep, b);
    }
  }

  /**
   * The list is ordered: a book never precedes one of lower status rank, and
   * within a rank a book never precedes a more recently updated one.
   */
  lemma FilteredBooksOrdered(books: seq<Books.Book>, query: string, status: string)
    ensures var r := FilteredBooks(books, query, status);
      forall i, j :: 0 <= i < j < |r| ==>
        && StatusRank(r[i].status) <= StatusRank(r[j].status)
        && (r[i].status == r[j].status ==> r[i].updatedAt >= r[j].updatedAt)
  {
    BookOrderConsistent();
    Seqs.SortBySorted(Seqs.Filter(books, Shown(query, status)), BookOrder());
    var r := FilteredBooks(books, query, status);
    forall i, j | 0 <= i < j < |r|
      ensures StatusRank(r[i].status) <= StatusRank(r[j].status)
      ensures r[i].status == r[j].status ==> r[i].updatedAt >= r[j].updatedAt
    {
      assert BookOrder()(r[i], r[j]) <= 0;
    }
  }

  /** No book is counted both as being read and as finished. */
  lemma {:induction false} StatsBounded(books: seq<Books.Book>)
    ensures ReadingCount(books) + CompletedCount(books) <= |books|
  {
    if books != [] {
      StatsBounded(books[1..]);
    }
  }

  /**
   * With page counts that are not negative and a current page never past the
   * end, the pages read lie between zero and the pages of the whole library.
   */
  lemma PagesReadBounded(books: seq<Books.Book>)
    requires forall b :: b in books ==> 0 <= b.currentPage <= b.totalPages
    ensures 0.0 <= PagesRead(books) <= Seqs.Sum(books, TotalPagesOf)
  {
    Seqs.SumNonNegative(books, PagesOf);
    Seqs.SumMonotone(books, PagesOf, TotalPagesOf);
  }

  /** Every finished book adds all of its pages, whatever its current page says. */
  lemma PagesReadOfCompleted(b: Books.Book, rest: seq<Books.Book>)
    requires b.status == Books.Completed
    ensures PagesRead([b] + rest) == b.totalPages as real + PagesRead(rest)
  {
    assert ([b] + rest)[1..] == rest;
  }

  /**
   * The progress bar is 0 for a book without pages, and otherwise between 0
   * and 100 while the page is within the book, reaching 100 exactly at the
   * last page.
   */
  lemma ProgressPercentBounds(b: Books.Book)
    ensures b.totalPages <= 0 ==> ProgressPercent(b) == 0.0
    ensures 0 < b.totalPages && 0 <= b.currentPage <= b.totalPages ==>
      0.0 <= ProgressPercent(b) <= 100.0
    ensures 0 < b.totalPages ==> (ProgressPercent(b) == 100.0 <==> b.currentPage == b.totalPages)
  {
    if 0 < b.totalPages {
      var ratio := b.currentPage as real / b.totalPages as real;
      assert ratio * b.totalPages as real == b.currentPage as real;
      if 0 <= b.currentPage <= b.totalPages {
        assert ratio <= 1.0;
      }
    }
  }

  /**
   * The page input never passes the last page: it is the parsed number (0
   * for no number) cut off at the total, and the book it is recorded on is
   * finished exactly when the input reaches the total.
   */
  lemma ClampedProgress(b: Books.Book, parsed: Option<int>, now: int)
    ensures ClampedPage(parsed, b.totalPages) <= b.totalPages
    ensures parsed.GetOr(0) <= b.totalPages ==> ClampedPage(parsed, b.totalPages) == parsed.GetOr(0)
    ensures var r := Books.Progressed(b, ClampedPage(parsed, b.totalPages), now);
      && r.currentPage <= b.totalPages
      && (r.status == Books.Completed <==> parsed.GetOr(0) >= b.totalPages)
  {
  }

  /**
   * The add form: nothing when the title or the author is blank; otherwise a
   * draft to read at page 0 with the parsed total (0 for no number).
   */
  lemma BookFromFormShape(title: string, author: string, totalPages: Option<int>, isbn: string, notes: string)
    ensures var r := BookFromForm(title, author, totalPages, isbn, notes);
      && (r.None? <==> Text.IsBlank(title) || Text.IsBlank(author))
      && (r.Some? ==>
            && r.value.title == title && r.value.author == author
            && r.value.status == Books.ToRead && r.value.currentPage == 0
            && r.value.totalPages == totalPages.GetOr(0)
            && (r.value.isbn.None? <==> isbn == "") && (isbn != "" ==> r.value.isbn == Some(isbn))
            && (r.value.notes.None? <==> notes == "") && (notes != "" ==> r.value.notes == Some(notes))
            && r.value.coverUrl.None? && r.value.rating.None?
            && r.value.startDate.None? && r.value.finishDate.None?)
  {
  }

  /**
   * "Mark Complete" is the same update as recording the last page with
   * `updateProgress`.
   */
  lemma MarkCompleteIsLastPage(b: Books.Book, now: int)
    ensures Books.Merge(b, MarkComplete(b, now), now) == Books.Progressed(b, b.totalPages, now)
    ensures Books.Merge(b, MarkComplete(b, now), now).status == Books.Completed
  {
  }

  /** "Start Reading" only changes the status (and the update time). */
  lemma StartReadingEffect(b: Books.Book, now: int)
    ensures Books.Merge(b, StartReading, now) == b.(status := Books.Reading, updatedAt := now)
  {
  }
}

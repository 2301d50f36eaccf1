/**
  Paging backwards through the log: the server's history query and the client
  loop that follows its cursors while the log keeps growing.
  */
module History {
  import opened Common
  import opened Messages

  const PAGE_SIZE: nat := 10

  /**
    The opaque cursor of a request: absent, a decoded sequence boundary, or text
    that does not decode.  An undecodable cursor is treated like an absent one.
    */
  datatype Cursor = Absent | Boundary(sequence: int) | Undecodable

  /** JavaScript's slice(-k). */
  function LastOf(log: seq<Message>, k: nat): seq<Message> {
    if |log| <= k then log else log[|log| - k..]
  }

  function Before(log: seq<Message>, boundary: int): seq<Message> {
    if log == [] then []
    else if log[0].sequence < boundary then [log[0]] + Before(log[1..], boundary)
    else Before(log[1..], boundary)
  }

  datatype HistoryPage = HistoryPage(messages: seq<Message>, cursor: Cursor, hasMore: bool, total: nat)

  function GetMessageHistory(log: seq<Message>, cursor: Cursor): HistoryPage {
    var page := match cursor
      case Boundary(s) => LastOf(Before(log, s), PAGE_SIZE)
      case _ => LastOf(log, PAGE_SIZE);
    var hasMore := page != [] && page[0].sequence > 1;
    HistoryPage(page, if hasMore then Boundary(page[0].sequence) else Absent, hasMore, |log|)
  }

  lemma {:induction false} BeforeIsPrefix(log: seq<Message>, lo: nat, boundary: int)
    requires forall i :: 0 <= i < |log| ==> log[i].sequence == lo + i + 1
    ensures Before(log, boundary) == log[..Max(0, Min(boundary - lo - 1, |log|))]
  {
    if log != [] {
      BeforeIsPrefix(log[1..], lo + 1, boundary);
      if lo + 1 < boundary {
        var k := Max(0, Min(boundary - lo - 2, |log| - 1));
        assert log[..k + 1] == [log[0]] + log[1..][..k];
      }
    }
  }

  /** Where the page that ends just before position `end` starts. */
  function PageStart(end: nat): nat {
    if end <= PAGE_SIZE then 0 else end - PAGE_SIZE
  }

  /** One request, whatever its cursor: the page is the slice of up to ten messages that ends at the boundary. */
  lemma PageIsSlice(log: seq<Message>, cursor: Cursor)
    requires GaplessLog(log)
    ensures var end := if cursor.Boundary? then Max(0, Min(cursor.sequence - 1, |log|)) else |log|;
            var page := GetMessageHistory(log, cursor);
            && page.messages == log[PageStart(end)..end]
            && |page.messages| == Min(10, end) && page.total == |log|
            && page.hasMore == (PageStart(end) > 0)
            && page.cursor == (if PageStart(end) > 0 then Boundary(PageStart(end) + 1) else Absent)
  {
    if cursor.Boundary? {
      BeforeIsPrefix(log, 0, cursor.sequence);
    }
  }

  /** The same for a boundary inside the log, as the cursors of pages are. */
  lemma PageBefore(log: seq<Message>, cursor: Cursor)
    requires GaplessLog(log)
    requires cursor.Boundary? ==> 1 <= cursor.sequence <= |log| + 1
    ensures var end := if cursor.Boundary? then cursor.sequence - 1 else |log|;
            var page := GetMessageHistory(log, cursor);
            && page.messages == log[PageStart(end)..end]
            && page.hasMore == (PageStart(end) > 0)
            && page.cursor == (if PageStart(end) > 0 then Boundary(PageStart(end) + 1) else Absent)
  {
    PageIsSlice(log, cursor);
  }

  /** The log a server shows at successive requests: append-only and gapless. */
  ghost predicate Growing(logAt: nat -> seq<Message>) {
    && (forall i: nat :: GaplessLog(logAt(i)))
    && (forall i: nat :: logAt(0) <= logAt(i))
  }

  function Tiled(pages: seq<seq<Message>>): seq<Message> {
    if pages == [] then [] else Tiled(pages[1..]) + pages[0]
  }

  lemma {:induction false} TiledAppend(pages: seq<seq<Message>>, older: seq<Message>)
    ensures Tiled(pages + [older]) == older + Tiled(pages)
  {
    if pages != [] {
      TiledAppend(pages[1..], older);
      assert (pages + [older])[1..] == pages[1..] + [older];
    }
  }

  /** One step of the walk: the older page prolongs what is already tiled. */
  lemma OlderPageTiles(goal: seq<Message>, log: seq<Message>, done: nat, pages: seq<seq<Message>>)
    requires GaplessLog(log) && goal <= log && 0 < done <= |goal|
    requires Tiled(pages) == goal[done..]
    ensures var page := GetMessageHistory(log, Boundary(done + 1));
            && page.messages == goal[PageStart(done)..done]
            && Tiled(pages + [page.messages]) == goal[PageStart(done)..]
            && page.hasMore == (PageStart(done) > 0)
            && page.cursor == (if PageStart(done) > 0 then Boundary(PageStart(done) + 1) else Absent)
  {
    PageBefore(log, Boundary(done + 1));
    var older := goal[PageStart(done)..done];
    assert log[PageStart(done)..done] == older;
    TiledAppend(pages, older);
    assert goal[PageStart(done)..] == older + goal[done..];
  }

  /**
    Follows history cursors from the newest page, `logAt(i)` being the log at the
    i-th request.  However much is appended in between, the walk ends and its
    pages, oldest last, tile exactly the log of the first request.
    */
  method PageOlderHistory(logAt: nat -> seq<Message>) returns (pages: seq<seq<Message>>)
    requires Growing(logAt)
    ensures Tiled(pages) == logAt(0)
    ensures forall p | p in pages :: |p| <= PAGE_SIZE
    ensures 10 * (|pages| - 1) <= |logAt(0)|
  {
    ghost var goal := logAt(0);
    var first := GetMessageHistory(logAt(0), Absent);
    PageBefore(logAt(0), Absent);
    pages := [first.messages];
    var next := first.cursor;
    var seen: set<int> := {};
    var requests := 1;
    ghost var done := PageStart(|goal|);
    assert goal[..|goal|] == goal;
    TiledAppend([], first.messages);
    while next.Boundary?
      invariant 0 <= done <= |goal|
      invariant next == if done > 0 then Boundary(done + 1) else Absent
      invariant Tiled(pages) == goal[done..]
      invariant forall s | s in seen :: s > done + 1
      invariant forall p | p in pages :: |p| <= PAGE_SIZE
      invariant 10 * (|pages| - 1) <= |goal| - done
      invariant done > 0 ==> 10 * |pages| == |goal| - done
      decreases done
    {
      if next.sequence in seen {
        break;
      }
      seen := seen + {next.sequence};
      var page := GetMessageHistory(logAt(requests), next);
      OlderPageTiles(goal, logAt(requests), done, pages);
      requests := requests + 1;
      pages := pages + [page.messages];
      next := page.cursor;
      done := PageStart(done);
      if !page.hasMore {
        break;
      }
    }
    assert goal[0..] == goal;
  }
}

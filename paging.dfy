/**
 * The paging loop of `fetch_parking_data` (scripts/utils.py): the record
 * count from the probe request is cut into windows of `BatchSize` indices,
 * each window is requested once, and the rows of the pages that came back are
 * concatenated in window order. The HTTP exchange for a window is the
 * parameter `respond`: `None` stands for a non-200 status or a body without
 * `GetParkingInfo.row`.
 */
module Paging {

  import opened Wrappers

  const BatchSize: int := 1000

  /** A request for the 1-based, inclusive index range `start..end`. */
  datatype Window = Window(start: int, end: int)

  /** The windows `range(start, total + 1, BatchSize)` produces, each capped at `total`. */
  function WindowsFrom(start: int, total: int): seq<Window>
    decreases total - start + 1
  {
    if start > total then []
    else [Window(start, Min(start + BatchSize - 1, total))] + WindowsFrom(start + BatchSize, total)
  }

  function Min(a: int, b: int): int {
    if a <= b then a else b
  }

  /** The whole paging plan for `total` records. */
  function Windows(total: int): seq<Window> {
    WindowsFrom(1, total)
  }

  /** The rows a page contributes: all of them, or none when the page failed. */
  function PageRows<R>(response: Option<seq<R>>): seq<R> {
    match response
    case Some(rows) => rows
    case None => []
  }

  /** The rows of the successful pages among `ws`, concatenated in window order. */
  function Gathered<R>(ws: seq<Window>, respond: Window -> Option<seq<R>>): seq<R>
    decreases |ws|
  {
    if ws == [] then [] else PageRows(respond(ws[0])) + Gathered(ws[1..], respond)
  }

  /**
   * `fetch_parking_data` after the probe: one request per window, failures
   * skipped, the rows of every other page appended in order.
   */
  method FetchAll<R>(totalCount: int, respond: Window -> Option<seq<R>>) returns (allRows: seq<R>)
    ensures allRows == Gathered(Windows(totalCount), respond)
  {
    allRows := [];
    var start := 1;
    while start <= totalCount
      invariant allRows + Gathered(WindowsFrom(start, totalCount), respond)
             == Gathered(Windows(totalCount), respond)
      decreases totalCount - start + 1
    {
      var end := Min(start + BatchSize - 1, totalCount);
      var response := respond(Window(start, end));
      match response {
        case Some(rows) =>
          allRows := allRows + rows;
        case None =>
      }
      start := start + BatchSize;
    }
  }

  /** The shape of the plan from any starting index: contiguous windows of at most `BatchSize` indices ending at `total`. */
  lemma {:induction false} WindowsFromShape(start: int, total: int)
    ensures var ws := WindowsFrom(start, total);
      && (start > total <==> ws == [])
      && (forall i :: 0 <= i < |ws| ==> start <= ws[i].start <= ws[i].end <= total)
      && (forall i :: 0 <= i < |ws| ==> ws[i].end - ws[i].start < BatchSize)
      && (ws != [] ==> ws[0].start == start && ws[|ws| - 1].end == total)
      && (forall i :: 0 <= i < |ws| - 1 ==> ws[i + 1].start == ws[i].end + 1)
    decreases total - start + 1
  {
    if start <= total {
      WindowsFromShape(start + BatchSize, total);
    }
  }

  /**
   * The windows tile `1..totalCount` exactly: they are in increasing order,
   * pairwise disjoint, none longer than `BatchSize`, and an index is covered
   * iff it is between 1 and `totalCount`. No window at all when the count is 0.
   */
  lemma WindowsTile(totalCount: int)
    ensures var ws := Windows(totalCount);
      && (totalCount <= 0 <==> ws == [])
      && (forall i :: 0 <= i < |ws| ==> 1 <= ws[i].start <= ws[i].end <= totalCount)
      && (forall i :: 0 <= i < |ws| ==> ws[i].end - ws[i].start + 1 <= BatchSize)
      && (forall i, j :: 0 <= i < j < |ws| ==> ws[i].end < ws[j].start)
      && (forall k :: 1 <= k <= totalCount <==> Covered(ws, k))
  {
    var ws := Windows(totalCount);
    WindowsFromShape(1, totalCount);
    forall i, j | 0 <= i < j < |ws| ensures ws[i].end < ws[j].start {
      ContiguousIncreasing(ws, i, j);
    }
    forall k | 1 <= k <= totalCount ensures Covered(ws, k) {
      var i := Covering(ws, k, 1, totalCount);
    }
  }

  /** Some window of `ws` names index `k`. */
  ghost predicate Covered(ws: seq<Window>, k: int) {
    exists i :: 0 <= i < |ws| && ws[i].start <= k <= ws[i].end
  }

  /** In a contiguous plan every later window starts after every earlier one ends. */
  lemma {:induction false} ContiguousIncreasing(ws: seq<Window>, i: int, j: int)
    requires forall m :: 0 <= m < |ws| ==> ws[m].start <= ws[m].end
    requires forall m :: 0 <= m < |ws| - 1 ==> ws[m + 1].start == ws[m].end + 1
    requires 0 <= i < j < |ws|
    ensures ws[i].end < ws[j].start
    decreases j - i
  {
    if j > i + 1 {
      ContiguousIncreasing(ws, i, j - 1);
    }
  }

  /** The window of a contiguous plan from `lo` to `hi` that covers `k`. */
  lemma {:induction false} Covering(ws: seq<Window>, k: int, lo: int, hi: int) returns (i: int)
    requires ws != [] && ws[0].start == lo && ws[|ws| - 1].end == hi
    requires forall m :: 0 <= m < |ws| - 1 ==> ws[m + 1].start == ws[m].end + 1
    requires lo <= k <= hi
    ensures 0 <= i < |ws| && ws[i].start <= k <= ws[i].end
    decreases |ws|
  {
    if k <= ws[0].end {
      i := 0;
    } else {
      var j := Covering(ws[1..], k, ws[0].end + 1, hi);
      i := j + 1;
    }
  }

  /** `ceil(count / BatchSize)` requests are made for the `count` indices from `start` on. */
  lemma {:induction false} WindowCount(start: int, total: int)
    ensures |WindowsFrom(start, total)| == if start > total then 0 else (total - start) / BatchSize + 1
    decreases total - start + 1
  {
    if start <= total {
      WindowCount(start + BatchSize, total);
    }
  }

  /** The rows of consecutive groups of windows are concatenated. */
  lemma {:induction false} GatheredAppend<R>(a: seq<Window>, b: seq<Window>, respond: Window -> Option<seq<R>>)
    ensures Gathered(a + b, respond) == Gathered(a, respond) + Gathered(b, respond)
    decreases |a|
  {
    if a == [] {
      assert a + b == b;
    } else {
      assert (a + b)[1..] == a[1..] + b;
      GatheredAppend(a[1..], b, respond);
    }
  }

  /**
   * A failed page adds no rows and does not stop the run: the result is what
   * the windows before it and the windows after it bring.
   */
  lemma FailedPageSkipped<R>(before: seq<Window>, w: Window, after: seq<Window>, respond: Window -> Option<seq<R>>)
    requires respond(w).None?
    ensures Gathered(before + [w] + after, respond) == Gathered(before, respond) + Gathered(after, respond)
  {
    GatheredAppend(before + [w], after, respond);
    GatheredAppend(before, [w], respond);
  }

  /**
   * With every page answered in full, the result is exactly the pages' rows
   * in order, and nothing else.
   */
  lemma {:induction false} GatheredSizeWhenAllSucceed<R>(ws: seq<Window>, respond: Window -> Option<seq<R>>)
    requires forall i :: 0 <= i < |ws| ==> respond(ws[i]).Some? && |respond(ws[i]).value| == ws[i].end - ws[i].start + 1
    ensures |Gathered(ws, respond)| == SizeOf(ws)
    decreases |ws|
  {
    if ws != [] {
      GatheredSizeWhenAllSucceed(ws[1..], respond);
    }
  }

  /** The number of indices the windows name. */
  function SizeOf(ws: seq<Window>): int
    decreases |ws|
  {
    if ws == [] then 0 else (ws[0].end - ws[0].start + 1) + SizeOf(ws[1..])
  }

  /** The plan names every index of `start..total` once. */
  lemma {:induction false} SizeOfWindows(start: int, total: int)
    ensures SizeOf(WindowsFrom(start, total)) == if start > total then 0 else total - start + 1
    decreases total - start + 1
  {
    if start <= total {
      SizeOfWindows(start + BatchSize, total);
    }
  }

  /** When no page fails and each brings its whole window, all `totalCount` records arrive. */
  lemma AllPagesSucceed<R>(totalCount: nat, respond: Window -> Option<seq<R>>)
    requires forall w :: w in Windows(totalCount) ==> respond(w).Some? && |respond(w).value| == w.end - w.start + 1
    ensures |Gathered(Windows(totalCount), respond)| == totalCount
  {
    GatheredSizeWhenAllSucceed(Windows(totalCount), respond);
    SizeOfWindows(1, totalCount);
  }
}

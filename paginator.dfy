/**
  The list paginator of core.py `generate_anki_cards`: the list id taken
  from the URL path, the folder-path name climbed through parent lists, and
  pages 2..totalPage fetched in order.
 */
module Paginator {

  import opened Errors
  import opened Strings
  import opened Remote
  import opened WordIds
  import opened ProgressLog

  const BadListId := "词单id有误"
  const IndexOutOfRange := Raised("IndexError", "list index out of range")

  /** The first non-empty part counted from the end (`next(... reversed ...)`), or "". */
  function LastNonEmpty(parts: seq<string>): (r: string)
    ensures r == "" <==> forall i :: 0 <= i < |parts| ==> parts[i] == ""
    ensures r != "" ==> r in parts
  {
    if parts == [] then ""
    else if parts[|parts| - 1] != "" then parts[|parts| - 1]
    else
      var init := parts[..|parts| - 1];
      assert forall i :: 0 <= i < |init| ==> init[i] == parts[i];
      LastNonEmpty(init)
  }

  /** The part chosen is the last non-empty one: every part after it is empty. */
  lemma {:induction false} LastNonEmptyIsLast(parts: seq<string>)
    ensures var r := LastNonEmpty(parts);
            r != "" ==> exists i :: 0 <= i < |parts| && parts[i] == r && forall j :: i < j < |parts| ==> parts[j] == ""
  {
    if parts != [] && parts[|parts| - 1] == "" {
      var init := parts[..|parts| - 1];
      var r := LastNonEmpty(init);
      LastNonEmptyIsLast(init);
      if r != "" {
        var i :| 0 <= i < |init| && init[i] == r && forall j :: i < j < |init| ==> init[j] == "";
        assert parts[i] == r;
        assert forall j :: i < j < |parts| ==> parts[j] == "" by {
          forall j | i < j < |parts|
            ensures parts[j] == ""
          {
            if j < |init| {
              assert parts[j] == init[j];
            }
          }
        }
      }
    } else if parts != [] {
      assert parts[|parts| - 1] == LastNonEmpty(parts);
    }
  }

  /** `extract_last_segment`, given the URL's path component: its last non-empty `/`-separated segment. */
  function ExtractLastSegment(path: string): (segment: string)
    ensures '/' !in segment
  {
    SplitPartsExclude(path, '/');
    LastNonEmpty(Split(path, '/'))
  }

  /** The segment is empty exactly when the path holds nothing but slashes (the empty path included). */
  lemma LastSegmentEmptyIff(path: string)
    ensures ExtractLastSegment(path) == "" <==> forall i :: 0 <= i < |path| ==> path[i] == '/'
  {
    SplitAllEmpty(path, '/');
  }

  /** A trailing slash does not change the segment: `.../abc123/` names the same list as `.../abc123`. */
  lemma LastSegmentTrailingSlash(path: string)
    ensures ExtractLastSegment(path + "/") == ExtractLastSegment(path)
  {
    SplitAppend(path, "", '/');
    assert path + ['/'] + "" == path + "/";
    var parts := Split(path, '/');
    assert (parts + [""])[..|parts|] == parts;
  }

  /** The segment after the last slash is the list id, when it is non-empty. */
  lemma LastSegmentAfterSlash(prefix: string, segment: string)
    requires segment != "" && '/' !in segment
    ensures ExtractLastSegment(prefix + "/" + segment) == segment
  {
    SplitAppend(prefix, segment, '/');
    SplitNoSeparator(segment, '/');
    assert prefix + ['/'] + segment == prefix + "/" + segment;
  }

  /** A path without slashes is its own segment. */
  lemma LastSegmentPlain(segment: string)
    requires '/' !in segment
    ensures ExtractLastSegment(segment) == segment
  {
    SplitNoSeparator(segment, '/');
  }

  /** An entry of the sidebar list (`result["1000"]`): the list itself first, then its parent if it has one. */
  datatype SidebarEntry = SidebarEntry(title: string, objectId: string)

  /** The part of a list-page answer the pipeline reads. */
  datatype ListPage = ListPage(entries: seq<ListEntry>, sidebar: seq<SidebarEntry>, totalPage: int, size: int)

  /** A computation that ends with a value or an exception, or is cut off by its fuel. */
  datatype Partial<T> = Done(value: T) | Failed(error: Error) | OutOfFuel

  function Prepend(titles: seq<string>, c: Partial<seq<string>>): Partial<seq<string>>
  {
    match c
    case Done(ts) => Done(titles + ts)
    case Failed(e) => Failed(e)
    case OutOfFuel => OutOfFuel
  }

  lemma PrependNil(c: Partial<seq<string>>)
    ensures Prepend([], c) == c
  {
    if c.Done? {
      assert [] + c.value == c.value;
    }
  }

  lemma PrependPrepend(a: seq<string>, b: seq<string>, c: Partial<seq<string>>)
    ensures Prepend(a, Prepend(b, c)) == Prepend(a + b, c)
  {
    if c.Done? {
      assert a + (b + c.value) == (a + b) + c.value;
    }
  }

  /**
    The titles of the ancestors above list `id`, parent first, obtained by
    requesting each list in turn (`parents(id)` answers for list `id`) until
    an answer holds a single sidebar entry. At most `fuel` requests are made.
   */
  function Ancestors(parents: string -> Response<ListPage>, id: string, fuel: nat): Partial<seq<string>>
    decreases fuel
  {
    if fuel == 0 then OutOfFuel
    else
      match GetData(parents(id))
      case Err(e) => Failed(e)
      case Ok(page) =>
        if |page.sidebar| == 1 then Done([])
        else if |page.sidebar| == 0 then Failed(IndexOutOfRange)
        else Prepend([page.sidebar[1].title], Ancestors(parents, page.sidebar[1].objectId, fuel - 1))
  }

  /** More fuel never changes a climb that already ended. */
  lemma {:induction false} AncestorsFuel(parents: string -> Response<ListPage>, id: string, fuel: nat, more: nat)
    requires !Ancestors(parents, id, fuel).OutOfFuel?
    ensures Ancestors(parents, id, fuel + more) == Ancestors(parents, id, fuel)
    decreases fuel
  {
    match GetData(parents(id))
    case Err(_) =>
    case Ok(page) =>
      if |page.sidebar| > 1 {
        var next := page.sidebar[1].objectId;
        assert !Ancestors(parents, next, fuel - 1).OutOfFuel?;
        AncestorsFuel(parents, next, fuel - 1, more);
      }
  }

  function Hyphenated(titles: seq<string>): (r: seq<string>)
    ensures |r| == |titles|
    ensures forall i :: 0 <= i < |r| ==> r[i] == Replace(titles[i], ' ', '-')
  {
    if titles == [] then [] else [Replace(titles[0], ' ', '-')] + Hyphenated(titles[1..])
  }

  function Reverse(s: seq<string>): (r: seq<string>)
    ensures |r| == |s|
    ensures forall i :: 0 <= i < |s| ==> r[i] == s[|s| - 1 - i]
  {
    if s == [] then [] else Reverse(s[1..]) + [s[0]]
  }

  /**
    The list's display name from the first page's sidebar: its own title
    verbatim when it has no parent; otherwise the titles from the root down
    to the list itself, spaces turned into hyphens, joined with `::`.
   */
  function ListNameOf(sidebar: seq<SidebarEntry>, parents: string -> Response<ListPage>, fuel: nat): Partial<string>
  {
    if |sidebar| == 0 then Failed(IndexOutOfRange)
    else if |sidebar| == 1 then Done(sidebar[0].title)
    else
      match Ancestors(parents, sidebar[1].objectId, fuel)
      case Done(above) => Done(Join(Hyphenated(Reverse([sidebar[0].title, sidebar[1].title] + above)), "::"))
      case Failed(e) => Failed(e)
      case OutOfFuel => OutOfFuel
  }

  /** The name-building part of `generate_anki_cards`: the `while True` climb, the in-place reverse, the hyphens, the join. */
  method ListName(sidebar: seq<SidebarEntry>, parents: string -> Response<ListPage>, fuel: nat)
    returns (name: Partial<string>)
    ensures name == ListNameOf(sidebar, parents, fuel)
  {
    if |sidebar| == 0 {
      return Failed(IndexOutOfRange);
    }
    var names := [sidebar[0].title];
    if |sidebar| > 1 {
      names := names + [sidebar[1].title];
      var parentId := sidebar[1].objectId;
      ghost var root := sidebar[1].objectId;
      ghost var above: seq<string> := [];
      var left := fuel;
      var reachedRoot := false;
      PrependNil(Ancestors(parents, root, fuel));
      while left > 0
        invariant names == [sidebar[0].title, sidebar[1].title] + above
        invariant !reachedRoot ==> Ancestors(parents, root, fuel) == Prepend(above, Ancestors(parents, parentId, left))
        invariant reachedRoot ==> Ancestors(parents, root, fuel) == Done(above)
        decreases left, !reachedRoot
      {
        var detail := GetData(parents(parentId));
        if detail.Err? {
          return Failed(detail.error);
        }
        if |detail.value.sidebar| == 1 {
          assert Ancestors(parents, parentId, left) == Done([]);
          assert above + [] == above;
          reachedRoot := true;
          break;
        }
        if |detail.value.sidebar| == 0 {
          return Failed(IndexOutOfRange);
        }
        var title := detail.value.sidebar[1].title;
        PrependPrepend(above, [title], Ancestors(parents, detail.value.sidebar[1].objectId, left - 1));
        names := names + [title];
        above := above + [title];
        parentId := detail.value.sidebar[1].objectId;
        left := left - 1;
      }
      if !reachedRoot {
        return OutOfFuel;
      }
      names := Reverse(names);
      names := Hyphenated(names);
    }
    name := Done(Join(names, "::"));
  }

  /** Two levels: a list under a root list is named `root::list`, spaces hyphenated. */
  lemma NestedListNameExample(parents: string -> Response<ListPage>, own: string, parentTitle: string, parentId: string)
    requires GetData(parents(parentId)).Ok? && |GetData(parents(parentId)).value.sidebar| == 1
    ensures ListNameOf([SidebarEntry(own, "x"), SidebarEntry(parentTitle, parentId)], parents, 1)
            == Done(Replace(parentTitle, ' ', '-') + "::" + Replace(own, ' ', '-'))
  {
    assert Ancestors(parents, parentId, 1) == Done([]);
    var titles := [own, parentTitle] + [];
    assert titles == [own, parentTitle];
    var rev := Reverse(titles);
    assert rev == [parentTitle, own];
    var hy := Hyphenated(rev);
    assert hy == [Replace(parentTitle, ' ', '-'), Replace(own, ' ', '-')];
    assert hy[1..] == [Replace(own, ' ', '-')];
    assert Join(hy, "::") == hy[0] + "::" + Join(hy[1..], "::");
  }

  /** No segment of a nested list's name contains a space. */
  lemma NestedNameHasNoSpaces(sidebar: seq<SidebarEntry>, parents: string -> Response<ListPage>, fuel: nat)
    requires |sidebar| > 1 && ListNameOf(sidebar, parents, fuel).Done?
    ensures ' ' !in ListNameOf(sidebar, parents, fuel).value
  {
    var above := Ancestors(parents, sidebar[1].objectId, fuel).value;
    var hy := Hyphenated(Reverse([sidebar[0].title, sidebar[1].title] + above));
    forall i | 0 <= i < |hy| ensures ' ' !in hy[i] {
      var t := Reverse([sidebar[0].title, sidebar[1].title] + above)[i];
      assert hy[i] == Replace(t, ' ', '-');
      assert forall k :: 0 <= k < |hy[i]| ==> hy[i][k] != ' ';
    }
    JoinKeepsOut(hy, "::", ' ');
  }

  lemma {:induction false} JoinKeepsOut(parts: seq<string>, sep: string, c: char)
    requires c !in sep && forall i :: 0 <= i < |parts| ==> c !in parts[i]
    ensures c !in Join(parts, sep)
  {
    if |parts| > 1 {
      JoinKeepsOut(parts[1..], sep, c);
    }
  }

  /** The progress line before page `i` of `total` is requested. */
  function PageMessage(i: int, total: int): string
  {
    "正在获取单词列表第" + IntToString(i) + "页(共" + IntToString(total) + "页)..."
  }

  /** Progress lines reported so far, and the entries gathered or the exception raised. */
  datatype Fetch = Fetch(progress: seq<string>, result: Result<seq<ListEntry>>)

  /**
    Pages 2..k of a list with `total` pages (`pages(i)` answers page `i`):
    each page is announced, then requested; the first failing request ends
    the loop.
   */
  function PagesUpTo(pages: int -> Response<ListPage>, total: int, k: int): Fetch
    decreases k
  {
    if k < 2 then Fetch([], Ok([]))
    else
      var prev := PagesUpTo(pages, total, k - 1);
      if prev.result.Err? then prev
      else
        var progress := prev.progress + [PageMessage(k, total)];
        match GetData(pages(k))
        case Err(e) => Fetch(progress, Err(e))
        case Ok(page) => Fetch(progress, Ok(prev.result.value + page.entries))
  }

  /** The lines announcing pages 2 .. n + 1 of `total`, in order. */
  function PageLines(total: int, n: nat): (lines: seq<string>)
    ensures |lines| == n
  {
    if n == 0 then [] else PageLines(total, n - 1) + [PageMessage(n + 1, total)]
  }

  /** Line i of the page lines announces page i + 2. */
  lemma {:induction false} PageLinesAt(total: int, n: nat)
    ensures forall i :: 0 <= i < n ==> PageLines(total, n)[i] == PageMessage(i + 2, total)
  {
    if n > 0 {
      PageLinesAt(total, n - 1);
      var prev := PageLines(total, n - 1);
      assert forall i :: 0 <= i < n - 1 ==> PageLines(total, n)[i] == prev[i];
    }
  }

  /**
    The lines of the page loop announce pages 2, 3, ... in order, one per
    page requested: all k - 1 of them when every request answered, fewer
    when one raised.
   */
  lemma {:induction false} PagesAnnounced(pages: int -> Response<ListPage>, total: int, k: int)
    ensures var f := PagesUpTo(pages, total, k);
            && |f.progress| <= (if k < 2 then 0 else k - 1)
            && (k >= 2 && f.result.Ok? ==> |f.progress| == k - 1)
            && f.progress == PageLines(total, |f.progress|)
    decreases k
  {
    if k >= 2 {
      PagesAnnounced(pages, total, k - 1);
    }
  }

  /** All the pages after the first: pages 2..totalPage (none when totalPage < 2). */
  function RemainingPages(pages: int -> Response<ListPage>, total: int): Fetch
  {
    PagesUpTo(pages, total, total)
  }

  /** Once a page request failed, later pages are neither announced nor requested. */
  lemma {:induction false} PagesStopAtFailure(pages: int -> Response<ListPage>, total: int, k: int, m: int)
    requires 2 <= k <= m <= total
    requires PagesUpTo(pages, total, k).result.Err?
    ensures PagesUpTo(pages, total, m) == PagesUpTo(pages, total, k)
    decreases m - k
  {
    if k < m {
      PagesStopAtFailure(pages, total, k, m - 1);
    }
  }

  /** When every page answers, the entries are those of pages 2..total in page order. */
  lemma {:induction false} PagesInOrder(pages: int -> Response<ListPage>, total: int, k: int)
    requires k >= 2 ==> k <= total
    requires forall i :: 2 <= i <= k ==> GetData(pages(i)).Ok?
    ensures PagesUpTo(pages, total, k).result.Ok?
    ensures k >= 2 ==> PagesUpTo(pages, total, k).result.value ==
                       PagesUpTo(pages, total, k - 1).result.value + pages(k).payload.entries
    decreases k
  {
    if k >= 2 {
      PagesInOrder(pages, total, k - 1);
    }
  }

  /** One more page after pages that all answered: it is announced, then its entries extend the list or its error ends the fetch. */
  lemma PagesStep(pages: int -> Response<ListPage>, total: int, k: int)
    requires 2 <= k <= total && PagesUpTo(pages, total, k - 1).result.Ok?
    ensures PagesUpTo(pages, total, k).progress == PagesUpTo(pages, total, k - 1).progress + [PageMessage(k, total)]
    ensures PagesUpTo(pages, total, k).result ==
            match GetData(pages(k))
            case Err(e) => Err(e)
            case Ok(page) => Ok(PagesUpTo(pages, total, k - 1).result.value + page.entries)
  {
  }

  /** One turn of the page loop, as the store and the fetch see it. */
  lemma PageLoopStep(start: Logs, taskId: string, pages: int -> Response<ListPage>, total: int, k: int)
    requires 2 <= k <= total && PagesUpTo(pages, total, k - 1).result.Ok?
    ensures Appended(Appended(start, taskId, PagesUpTo(pages, total, k - 1).progress), taskId, [PageMessage(k, total)])
            == Appended(start, taskId, PagesUpTo(pages, total, k).progress)
    ensures GetData(pages(k)).Err? ==>
              RemainingPages(pages, total) == PagesUpTo(pages, total, k) &&
              PagesUpTo(pages, total, k).result == Err(GetData(pages(k)).error)
    ensures GetData(pages(k)).Ok? ==>
              PagesUpTo(pages, total, k).result ==
              Ok(PagesUpTo(pages, total, k - 1).result.value + GetData(pages(k)).value.entries)
  {
    PagesStep(pages, total, k);
    AppendedTwice(start, taskId, PagesUpTo(pages, total, k - 1).progress, [PageMessage(k, total)]);
    if GetData(pages(k)).Err? {
      PagesStopAtFailure(pages, total, k, total);
    }
  }

  /** Turn `k` of the page loop: report page k, request it, and return its entries or its exception. */
  method FetchPage(store: ProgressStore, taskId: string, pages: int -> Response<ListPage>, total: int, k: int,
                   ghost start: Logs)
    returns (entries: Result<seq<ListEntry>>)
    requires 2 <= k <= total && PagesUpTo(pages, total, k - 1).result.Ok?
    requires store.logs == Appended(start, taskId, PagesUpTo(pages, total, k - 1).progress)
    modifies store
    ensures store.logs == Appended(start, taskId, PagesUpTo(pages, total, k).progress)
    ensures entries.Ok? ==>
              PagesUpTo(pages, total, k).result == Ok(PagesUpTo(pages, total, k - 1).result.value + entries.value)
    ensures entries.Err? ==>
              RemainingPages(pages, total) == PagesUpTo(pages, total, k) &&
              PagesUpTo(pages, total, k).result == Err(entries.error)
  {
    PageLoopStep(start, taskId, pages, total, k);
    store.Update(taskId, PageMessage(k, total));
    var wordList := GetData(pages(k));
    if wordList.Err? {
      return Err(wordList.error);
    }
    entries := Ok(wordList.value.entries);
  }

  /** The entries of the first page followed by those of the remaining pages, or the exception that stopped the fetch. */
  function AfterFirst(first: seq<ListEntry>, rest: Result<seq<ListEntry>>): Result<seq<ListEntry>>
  {
    match rest
    case Ok(entries) => Ok(first + entries)
    case Err(e) => Err(e)
  }

  /**
    The page loop of `generate_anki_cards`: for each page 2..total, report
    it, request it, and extend the entries gathered so far.
   */
  method FetchRemainingPages(store: ProgressStore, taskId: string, pages: int -> Response<ListPage>, total: int,
                             first: seq<ListEntry>)
    returns (all: Result<seq<ListEntry>>)
    modifies store
    ensures store.logs == Appended(old(store.logs), taskId, RemainingPages(pages, total).progress)
    ensures all == AfterFirst(first, RemainingPages(pages, total).result)
  {
    var wordListAll := first;
    var i := 2;
    ghost var start := store.logs;
    ghost var fetched := PagesUpTo(pages, total, 1);
    while i <= total
      invariant 2 <= i && (i >= 3 ==> i - 1 <= total)
      invariant fetched == PagesUpTo(pages, total, i - 1) && fetched.result.Ok?
      invariant wordListAll == first + fetched.result.value
      invariant store.logs == Appended(start, taskId, fetched.progress)
      decreases total - i
    {
      var entries := FetchPage(store, taskId, pages, total, i, start);
      if entries.Err? {
        return Err(entries.error);
      }
      wordListAll := wordListAll + entries.value;
      fetched := PagesUpTo(pages, total, i);
      i := i + 1;
    }
    assert fetched == RemainingPages(pages, total) by {
      if total >= 2 {
        assert i - 1 == total;
      }
    }
    all := Ok(wordListAll);
  }
}

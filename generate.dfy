/**
  The background task of core.py `generate_anki_cards`: from a word-list
  URL path to a written deck, every stage reported to the task's progress
  log, and the first exception turned into one `Failed: <class>:<message>`
  line.

  The service, the audio downloads and the archive write are inputs
  (`Env`): `lists(id, i)` answers the list-page request for list `id` and
  page `i`, `words(w)` answers the requests made for word `w`, and `write`
  is the exception writing the package raises, if any. The parent-list climb
  makes at most `climbFuel` requests; a run that would need more is
  `Unfinished` (the source keeps climbing for as long as the service keeps
  answering with parents).
 */
module Generate {

  import opened Errors
  import opened Strings
  import opened Remote
  import opened WordIds
  import opened Voice
  import opened Card
  import opened ProgressLog
  import opened Paginator

  datatype Env = Env(
    lists: (string, int) -> Response<ListPage>,
    climbFuel: nat,
    words: string -> WordEnv,
    write: Option<Error>)

  /** The pages of one list, by page number. */
  function Pages(env: Env, listId: string): int -> Response<ListPage>
  {
    i => env.lists(listId, i)
  }

  /** The first page of any list, by list id: what the parent climb requests. */
  function Parents(env: Env): string -> Response<ListPage>
  {
    id => env.lists(id, 1)
  }

  const FirstPageMessage := "正在获取单词列表第1页..."
  const ParsingMessage := "单词列表获取完成，正在解析单词id..."
  const CardsMessage := "正在获取单词语音及生成单词卡片(耗时较久，请耐心等待)..."
  const SuccessMessage := "SUCCESS"

  /** The line before card `n` of `total` is generated. */
  function CardMessage(n: nat, total: nat): string
  {
    "正在生成第" + NatToString(n) + "/" + NatToString(total) + "张单词卡片"
  }

  /** The line reporting an audio file that downloaded empty. */
  function VoiceFailedMessage(file: string): string
  {
    "语音下载失败:" + file
  }

  /** A line that ends a run: the success line or a failure line. */
  predicate IsTerminal(m: string)
  {
    m == SuccessMessage || (|m| >= 8 && m[..8] == "Failed: ")
  }

  /** A progress line: it starts with one of the three characters every intermediate status starts with. */
  predicate Progressing(m: string)
  {
    |m| > 0 && (m[0] == '正' || m[0] == '单' || m[0] == '语')
  }

  lemma ProgressingNotTerminal(m: string)
    requires Progressing(m)
    ensures !IsTerminal(m)
  {
    assert |m| >= 8 ==> m[..8][0] == m[0];
    assert SuccessMessage[0] == 'S' && "Failed: "[0] == 'F';
  }

  /** Every intermediate line the run reports is a progress line, never a terminal one. */
  lemma {:induction false} MessageHeads(i: int, total: int, n: nat, cards: nat, file: string)
    ensures Progressing(FirstPageMessage) && Progressing(ParsingMessage) && Progressing(CardsMessage)
    ensures Progressing(PageMessage(i, total))
    ensures Progressing(CardMessage(n, cards))
    ensures Progressing(VoiceFailedMessage(file))
  {
    assert PageMessage(i, total)[0] == "正在获取单词列表第"[0];
    assert CardMessage(n, cards)[0] == "正在生成第"[0];
    assert VoiceFailedMessage(file)[0] == "语音下载失败:"[0];
  }

  /** The terminal lines are terminal. */
  lemma TerminalLines(e: Error)
    ensures IsTerminal(SuccessMessage) && IsTerminal(FailureLine(e))
  {
    assert FailureLine(e)[..8] == "Failed: ";
  }

  // ---------------------------------------------------------------------
  // Stage 1: the list id, the first page, the name, the other pages, the ids
  // ---------------------------------------------------------------------

  /** The list as the card stage needs it: its display name and its distinct word ids. */
  datatype Listing = Listing(name: string, ids: seq<string>)

  /** The lines reported while the list is collected, and the listing or what stopped it. */
  datatype Collection = Collection(progress: seq<string>, listing: Partial<Listing>)

  /**
    Collecting list `listId`: announce and fetch page 1, build the name,
    fetch the other pages, announce the parsing, extract and deduplicate the
    word ids, and check them against the list's size.
   */
  function Collect(listId: string, env: Env): (c: Collection)
    ensures |c.progress| >= 1 && c.progress[0] == FirstPageMessage
    ensures c.listing.Done? ==> c.progress[|c.progress| - 1] == ParsingMessage
  {
    var opening := [FirstPageMessage];
    match GetData(env.lists(listId, 1))
    case Err(e) => Collection(opening, Failed(e))
    case Ok(page) =>
      match ListNameOf(page.sidebar, Parents(env), env.climbFuel)
      case Failed(e) => Collection(opening, Failed(e))
      case OutOfFuel => Collection(opening, OutOfFuel)
      case Done(name) =>
        var rest := RemainingPages(Pages(env, listId), page.totalPage);
        match rest.result
        case Err(e) => Collection(opening + rest.progress, Failed(e))
        case Ok(more) =>
          var progress := opening + rest.progress + [ParsingMessage];
          match ValidateIds(Dedup(WordIdsOf(page.entries + more)), page.size)
          case Err(e) => Collection(progress, Failed(e))
          case Ok(ids) => Collection(progress, Done(Listing(name, ids)))
  }

  /** A collected listing holds distinct ids, at least one and no fewer than the list's declared size. */
  lemma CollectedIds(listId: string, env: Env)
    requires Collect(listId, env).listing.Done?
    ensures var page := env.lists(listId, 1).payload;
            var ids := Collect(listId, env).listing.value.ids;
            && GetData(env.lists(listId, 1)).Ok?
            && |ids| > 0 && |ids| >= page.size && Distinct(ids)
            && forall x :: x in ids <==>
                 x in WordIdsOf(page.entries + RemainingPages(Pages(env, listId), page.totalPage).result.value)
  {
  }

  /** The progress lines of collecting are all progress lines. */
  lemma CollectProgressing(listId: string, env: Env)
    ensures forall i :: 0 <= i < |Collect(listId, env).progress| ==> Progressing(Collect(listId, env).progress[i])
  {
    var c := Collect(listId, env);
    MessageHeads(0, 0, 0, 0, "");
    match GetData(env.lists(listId, 1))
    case Err(_) =>
    case Ok(page) =>
      var rest := RemainingPages(Pages(env, listId), page.totalPage);
      PagesAnnounced(Pages(env, listId), page.totalPage, page.totalPage);
      PageLinesAt(page.totalPage, |rest.progress|);
      forall i | 0 <= i < |rest.progress|
        ensures Progressing(rest.progress[i])
      {
        MessageHeads(i + 2, page.totalPage, 0, 0, "");
      }
  }

  // ---------------------------------------------------------------------
  // Stage 2: one card per word id
  // ---------------------------------------------------------------------

  /** The lines reported and notes added by the card loop, and the exception that stopped it, if any. */
  datatype CardsRun = CardsRun(progress: seq<string>, notes: seq<Note>, failure: Option<Error>)

  /** Building the card of one word id, for the list named `name`. */
  function Maker(name: string, words: string -> WordEnv): string -> Result<CardResult>
  {
    w => WordCard(w, name, words(w))
  }

  /**
    The first `k` turns of the card loop over `ids`, `make(w)` building the
    card of word `w`: each turn announces card n of |ids|, builds it (adding
    its note to the deck), and reports a soft audio failure; the first
    exception ends the loop.
   */
  function CardsUpTo(ids: seq<string>, make: string -> Result<CardResult>, k: nat): CardsRun
    requires k <= |ids|
    decreases k
  {
    if k == 0 then CardsRun([], [], None)
    else
      var prev := CardsUpTo(ids, make, k - 1);
      if prev.failure.Some? then prev
      else
        var announced := prev.progress + [CardMessage(k, |ids|)];
        match make(ids[k - 1])
        case Err(e) => CardsRun(announced, prev.notes, Some(e))
        case Ok(card) =>
          CardsRun(announced + (if card.failedVoice != "" then [VoiceFailedMessage(card.failedVoice)] else []),
                   prev.notes + [card.note], None)
  }

  function AllCards(ids: seq<string>, make: string -> Result<CardResult>): CardsRun
  {
    CardsUpTo(ids, make, |ids|)
  }

  /**
    The deck gains the notes of the first cards, in id order: all `k` of
    them when no card failed, and otherwise those before the card whose
    exception stopped the loop.
   */
  lemma {:induction false} CardsNotes(ids: seq<string>, make: string -> Result<CardResult>, k: nat)
    requires k <= |ids|
    ensures var c := CardsUpTo(ids, make, k);
            && |c.notes| <= k
            && (forall i :: 0 <= i < |c.notes| ==> make(ids[i]).Ok? && c.notes[i] == make(ids[i]).value.note)
            && (c.failure.None? ==> |c.notes| == k)
            && (c.failure.Some? ==> |c.notes| < k && make(ids[|c.notes|]) == Err(c.failure.value))
    decreases k
  {
    if k > 0 {
      CardsNotes(ids, make, k - 1);
    }
  }

  /** Once a card failed, no later card is announced or built. */
  lemma {:induction false} CardsStopAtFailure(ids: seq<string>, make: string -> Result<CardResult>, k: nat, m: nat)
    requires k <= m <= |ids|
    requires CardsUpTo(ids, make, k).failure.Some?
    ensures CardsUpTo(ids, make, m) == CardsUpTo(ids, make, k)
    decreases m - k
  {
    if k < m {
      CardsStopAtFailure(ids, make, k, m - 1);
    }
  }

  /** Each line of the card loop is a progress line. */
  lemma {:induction false} CardsProgressing(ids: seq<string>, make: string -> Result<CardResult>, k: nat)
    requires k <= |ids|
    ensures forall i :: 0 <= i < |CardsUpTo(ids, make, k).progress| ==> Progressing(CardsUpTo(ids, make, k).progress[i])
    decreases k
  {
    if k > 0 {
      CardsProgressing(ids, make, k - 1);
      var card := make(ids[k - 1]);
      MessageHeads(0, 0, k, |ids|, if card.Ok? then card.value.failedVoice else "");
    }
  }

  /** One turn of the card loop after turns that all succeeded. */
  lemma CardsStep(ids: seq<string>, make: string -> Result<CardResult>, k: nat)
    requires k < |ids| && CardsUpTo(ids, make, k).failure.None?
    ensures var prev := CardsUpTo(ids, make, k);
            var next := CardsUpTo(ids, make, k + 1);
            var announced := prev.progress + [CardMessage(k + 1, |ids|)];
            && (make(ids[k]).Err? ==> next == CardsRun(announced, prev.notes, Some(make(ids[k]).error))
                                      && AllCards(ids, make) == next)
            && (make(ids[k]).Ok? ==>
                  var card := make(ids[k]).value;
                  && next.notes == prev.notes + [card.note]
                  && next.failure.None?
                  && next.progress == announced + (if card.failedVoice != "" then [VoiceFailedMessage(card.failedVoice)] else []))
  {
    if make(ids[k]).Err? {
      CardsStopAtFailure(ids, make, k + 1, |ids|);
    }
  }

  /** The card loop of `generate_anki_cards`. */
  method GenerateCards(store: ProgressStore, deck: Deck, taskId: string, ids: seq<string>, name: string,
                       words: string -> WordEnv)
    returns (failure: Option<Error>)
    modifies store, deck
    ensures store.logs == Appended(old(store.logs), taskId, AllCards(ids, Maker(name, words)).progress)
    ensures deck.notes == old(deck.notes) + AllCards(ids, Maker(name, words)).notes
    ensures failure == AllCards(ids, Maker(name, words)).failure
  {
    ghost var start := store.logs;
    ghost var deckStart := deck.notes;
    for n := 0 to |ids|
      invariant CardsUpTo(ids, Maker(name, words), n).failure.None?
      invariant store.logs == Appended(start, taskId, CardsUpTo(ids, Maker(name, words), n).progress)
      invariant deck.notes == deckStart + CardsUpTo(ids, Maker(name, words), n).notes
    {
      failure := CardTurn(store, deck, taskId, ids, name, words, n, start, deckStart);
      if failure.Some? {
        return;
      }
    }
    failure := None;
  }

  /** `generate_word_card` for one word of the list, as the card loop sees it. */
  method MakeCard(deck: Deck, name: string, words: string -> WordEnv, word: string) returns (r: Result<string>)
    modifies deck
    ensures Maker(name, words)(word).Ok? ==>
              r == Ok(Maker(name, words)(word).value.failedVoice) &&
              deck.notes == old(deck.notes) + [Maker(name, words)(word).value.note]
    ensures Maker(name, words)(word).Err? ==>
              r == Err(Maker(name, words)(word).error) && deck.notes == old(deck.notes)
  {
    assert Maker(name, words)(word) == WordCard(word, name, words(word));
    var saved;
    r, saved := GenerateWordCard(deck, word, name, words(word));
  }

  /** Turn `n` of the card loop: announce the card, build it, report an empty audio download. */
  method CardTurn(store: ProgressStore, deck: Deck, taskId: string, ids: seq<string>, name: string,
                  words: string -> WordEnv, n: nat, ghost start: Logs, ghost deckStart: seq<Note>)
    returns (failure: Option<Error>)
    requires n < |ids| && CardsUpTo(ids, Maker(name, words), n).failure.None?
    requires store.logs == Appended(start, taskId, CardsUpTo(ids, Maker(name, words), n).progress)
    requires deck.notes == deckStart + CardsUpTo(ids, Maker(name, words), n).notes
    modifies store, deck
    ensures store.logs == Appended(start, taskId, CardsUpTo(ids, Maker(name, words), n + 1).progress)
    ensures deck.notes == deckStart + CardsUpTo(ids, Maker(name, words), n + 1).notes
    ensures failure == CardsUpTo(ids, Maker(name, words), n + 1).failure
    ensures failure.Some? ==> AllCards(ids, Maker(name, words)) == CardsUpTo(ids, Maker(name, words), n + 1)
  {
    ghost var make := Maker(name, words);
    ghost var prev := CardsUpTo(ids, make, n);
    CardsStep(ids, make, n);
    var word := ids[n];
    store.Update(taskId, CardMessage(n + 1, |ids|));
    ghost var announced := prev.progress + [CardMessage(n + 1, |ids|)];
    AppendedTwice(start, taskId, prev.progress, [CardMessage(n + 1, |ids|)]);
    var r := MakeCard(deck, name, words, word);
    if r.Err? {
      return Some(r.error);
    }
    if r.value != "" {
      store.Update(taskId, VoiceFailedMessage(r.value));
      AppendedTwice(start, taskId, announced, [VoiceFailedMessage(r.value)]);
    } else {
      assert announced + [] == announced;
    }
    failure := None;
  }

  // ---------------------------------------------------------------------
  // The whole task
  // ---------------------------------------------------------------------

  /** How a run ends: the package written, an exception caught, or a parent climb longer than the fuel. */
  datatype Status = Success | Failure(error: Error) | Unfinished

  /** The progress lines of a run before its terminal line, the notes it added to the deck, and how it ended. */
  datatype RunOutcome = RunOutcome(progress: seq<string>, notes: seq<Note>, status: Status)

  /** The line a run ends with: SUCCESS, the failure line, or none for an unfinished run. */
  function Terminal(s: Status): seq<string>
  {
    match s
    case Success => [SuccessMessage]
    case Failure(e) => [FailureLine(e)]
    case Unfinished => []
  }

  /** Everything the run appends to its task's log. */
  function Messages(o: RunOutcome): seq<string>
  {
    o.progress + Terminal(o.status)
  }

  /** `generate_anki_cards` on the path of a word-list URL. */
  function Run(path: string, env: Env): RunOutcome
  {
    var listId := ExtractLastSegment(path);
    if listId == "" then RunOutcome([], [], Failure(DataError(BadListId)))
    else
      var c := Collect(listId, env);
      match c.listing
      case Failed(e) => RunOutcome(c.progress, [], Failure(e))
      case OutOfFuel => RunOutcome(c.progress, [], Unfinished)
      case Done(l) =>
        var cards := AllCards(l.ids, Maker(l.name, env.words));
        var progress := c.progress + [CardsMessage] + cards.progress;
        if cards.failure.Some? then RunOutcome(progress, cards.notes, Failure(cards.failure.value))
        else if env.write.Some? then RunOutcome(progress, cards.notes, Failure(env.write.value))
        else RunOutcome(progress, cards.notes, Success)
  }

  /** The collecting half of the task. */
  method CollectWords(store: ProgressStore, taskId: string, listId: string, env: Env) returns (listing: Partial<Listing>)
    modifies store
    ensures store.logs == Appended(old(store.logs), taskId, Collect(listId, env).progress)
    ensures listing == Collect(listId, env).listing
  {
    ghost var start := store.logs;
    store.Update(taskId, FirstPageMessage);
    var firstPage := GetData(env.lists(listId, 1));
    if firstPage.Err? {
      return Failed(firstPage.error);
    }
    var page := firstPage.value;
    var name := ListName(page.sidebar, Parents(env), env.climbFuel);
    if name.Failed? {
      return Failed(name.error);
    }
    if name.OutOfFuel? {
      return OutOfFuel;
    }
    var all := FetchRemainingPages(store, taskId, Pages(env, listId), page.totalPage, page.entries);
    ghost var rest := RemainingPages(Pages(env, listId), page.totalPage);
    AppendedTwice(start, taskId, [FirstPageMessage], rest.progress);
    if all.Err? {
      return Failed(all.error);
    }
    store.Update(taskId, ParsingMessage);
    AppendedTwice(start, taskId, [FirstPageMessage] + rest.progress, [ParsingMessage]);
    var wordIds := GetWordId(all.value);
    WordIdsAppend(page.entries, rest.result.value);
    var checked := ValidateIds(Dedup(wordIds), page.size);
    if checked.Err? {
      return Failed(checked.error);
    }
    listing := Done(Listing(name.value, checked.value));
  }

  /**
    `generate_anki_cards`: the whole task, logging under `taskId` and adding
    notes to the shared deck. `archive` is the content of the written
    package (every note of the shared deck), or None when no package is
    written.
   */
  method GenerateAnkiCards(store: ProgressStore, deck: Deck, path: string, taskId: string, env: Env)
    returns (archive: Option<seq<Note>>)
    modifies store, deck
    ensures store.logs == Appended(old(store.logs), taskId, Messages(Run(path, env)))
    ensures deck.notes == old(deck.notes) + Run(path, env).notes
    ensures archive.Some? <==> Run(path, env).status.Success?
    ensures archive.Some? ==> archive.value == deck.notes
  {
    ghost var start := store.logs;
    var listId := ExtractLastSegment(path);
    if listId == "" {
      store.Update(taskId, FailureLine(DataError(BadListId)));
      assert Messages(Run(path, env)) == [FailureLine(DataError(BadListId))];
      return None;
    }
    var listing := CollectWords(store, taskId, listId, env);
    ghost var c := Collect(listId, env);
    if listing.OutOfFuel? {
      assert Messages(Run(path, env)) == c.progress + [];
      assert c.progress + [] == c.progress;
      return None;
    }
    if listing.Failed? {
      store.Update(taskId, FailureLine(listing.error));
      AppendedTwice(start, taskId, c.progress, [FailureLine(listing.error)]);
      return None;
    }
    var l := listing.value;
    store.Update(taskId, CardsMessage);
    AppendedTwice(start, taskId, c.progress, [CardsMessage]);
    var failure := GenerateCards(store, deck, taskId, l.ids, l.name, env.words);
    ghost var cards := AllCards(l.ids, Maker(l.name, env.words));
    AppendedTwice(start, taskId, c.progress + [CardsMessage], cards.progress);
    ghost var progress := c.progress + [CardsMessage] + cards.progress;
    if failure.Some? {
      store.Update(taskId, FailureLine(failure.value));
      AppendedTwice(start, taskId, progress, [FailureLine(failure.value)]);
      return None;
    }
    if env.write.Some? {
      store.Update(taskId, FailureLine(env.write.value));
      AppendedTwice(start, taskId, progress, [FailureLine(env.write.value)]);
      return None;
    }
    archive := Some(deck.notes);
    store.Update(taskId, SuccessMessage);
    AppendedTwice(start, taskId, progress, [SuccessMessage]);
  }

  // ---------------------------------------------------------------------
  // What a run promises
  // ---------------------------------------------------------------------

  /**
    A run that ends reports exactly one terminal line, as its last line;
    an unfinished run reports none.
   */
  lemma OneTerminalLineLast(path: string, env: Env)
    ensures var m := Messages(Run(path, env));
            && (Run(path, env).status.Unfinished? ==> forall i :: 0 <= i < |m| ==> !IsTerminal(m[i]))
            && (!Run(path, env).status.Unfinished? ==>
                  |m| >= 1 && IsTerminal(m[|m| - 1]) && forall i :: 0 <= i < |m| - 1 ==> !IsTerminal(m[i]))
  {
    var o := Run(path, env);
    var m := Messages(o);
    ProgressLines(path, env);
    forall i | 0 <= i < |o.progress|
      ensures !IsTerminal(m[i])
    {
      assert m[i] == o.progress[i];
      ProgressingNotTerminal(o.progress[i]);
    }
    if o.status.Failure? {
      TerminalLines(o.status.error);
    } else {
      TerminalLines(DataError(""));
    }
  }

  predicate AllProgressing(lines: seq<string>)
  {
    forall i :: 0 <= i < |lines| ==> Progressing(lines[i])
  }

  lemma ConcatProgressing(a: seq<string>, b: seq<string>)
    requires AllProgressing(a) && AllProgressing(b)
    ensures AllProgressing(a + b)
  {
    forall i | 0 <= i < |a + b|
      ensures Progressing((a + b)[i])
    {
      if i >= |a| {
        assert (a + b)[i] == b[i - |a|];
      }
    }
  }

  /** Every line a run reports before its terminal line is a progress line. */
  lemma ProgressLines(path: string, env: Env)
    ensures AllProgressing(Run(path, env).progress)
  {
    var listId := ExtractLastSegment(path);
    if listId != "" {
      var c := Collect(listId, env);
      CollectProgressing(listId, env);
      if c.listing.Done? {
        var l := c.listing.value;
        CardsProgressing(l.ids, Maker(l.name, env.words), |l.ids|);
        var cards := AllCards(l.ids, Maker(l.name, env.words));
        MessageHeads(0, 0, 0, 0, "");
        ConcatProgressing(c.progress, [CardsMessage]);
        ConcatProgressing(c.progress + [CardsMessage], cards.progress);
        assert Run(path, env).progress == c.progress + [CardsMessage] + cards.progress;
      } else {
        assert Run(path, env).progress == c.progress;
      }
    }
  }

  /**
    A run succeeds exactly when the list is collected, every one of its
    word ids yields a card and the package is written; it then adds one
    note per distinct word id, in id order.
   */
  lemma SuccessIff(path: string, env: Env)
    ensures var listId := ExtractLastSegment(path);
            var c := Collect(listId, env);
            Run(path, env).status.Success? <==>
              listId != "" && c.listing.Done? &&
              (forall i :: 0 <= i < |c.listing.value.ids| ==>
                 WordCard(c.listing.value.ids[i], c.listing.value.name, env.words(c.listing.value.ids[i])).Ok?) &&
              env.write.None?
    ensures Run(path, env).status.Success? ==>
              var l := Collect(ExtractLastSegment(path), env).listing.value;
              |Run(path, env).notes| == |l.ids| &&
              forall i :: 0 <= i < |l.ids| ==> Run(path, env).notes[i] == WordCard(l.ids[i], l.name, env.words(l.ids[i])).value.note
  {
    var listId := ExtractLastSegment(path);
    var c := Collect(listId, env);
    if listId != "" && c.listing.Done? {
      var l := c.listing.value;
      var cards := AllCards(l.ids, Maker(l.name, env.words));
      CardsNotes(l.ids, Maker(l.name, env.words), |l.ids|);
      if cards.failure.Some? {
        var j := |cards.notes|;
        assert WordCard(l.ids[j], l.name, env.words(l.ids[j])).Err?;
      }
    }
  }

  /** A run that fails before the card stage adds nothing to the deck. */
  lemma NoNotesBeforeCards(path: string, env: Env)
    requires ExtractLastSegment(path) == "" || !Collect(ExtractLastSegment(path), env).listing.Done?
    ensures Run(path, env).notes == []
  {
  }

  /** A URL path without a list id fails at once, with the data error naming the bad id. */
  lemma EmptyListId(path: string, env: Env)
    requires forall i :: 0 <= i < |path| ==> path[i] == '/'
    ensures Messages(Run(path, env)) == ["Failed: exception.DataError:" + BadListId]
    ensures Run(path, env).notes == []
  {
    LastSegmentEmptyIff(path);
    assert Messages(Run(path, env)) == [FailureLine(DataError(BadListId))];
    DataErrorLine(BadListId);
  }

  /** The failure line of an application data error. */
  lemma DataErrorLine(msg: string)
    ensures FailureLine(DataError(msg)) == "Failed: exception.DataError:" + msg
  {
    assert "Failed: " + "exception.DataError" + ":" == "Failed: exception.DataError:";
  }

  /**
    A list that is collected but holds fewer distinct words than its
    declared size (the service hides words from anonymous callers) ends
    with the access-restricted failure after the parsing line.
   */
  lemma RestrictedList(path: string, env: Env)
    requires ExtractLastSegment(path) != ""
    requires var listId := ExtractLastSegment(path);
             var first := GetData(env.lists(listId, 1));
             && first.Ok?
             && ListNameOf(first.value.sidebar, Parents(env), env.climbFuel).Done?
             && RemainingPages(Pages(env, listId), first.value.totalPage).result.Ok?
             && var ids := Dedup(WordIdsOf(first.value.entries +
                                RemainingPages(Pages(env, listId), first.value.totalPage).result.value));
                0 < |ids| < first.value.size
    ensures var m := Messages(Run(path, env));
            |m| >= 2 && m[|m| - 2] == ParsingMessage && m[|m| - 1] == "Failed: exception.DataError:" + Restricted
  {
    var listId := ExtractLastSegment(path);
    var c := Collect(listId, env);
    assert c.listing == Failed(DataError(Restricted));
    assert c.progress[|c.progress| - 1] == ParsingMessage;
    var m := Messages(Run(path, env));
    assert m == c.progress + [FailureLine(DataError(Restricted))];
    DataErrorLine(Restricted);
  }
}

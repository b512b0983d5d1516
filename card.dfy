/**
  The card builder (core.py `generate_word_card`): the definition HTML, the
  eleven note fields, the tags, and the shared deck the note is added to.
 */
module Card {

  import opened Errors
  import opened Strings
  import opened Kana
  import opened Remote
  import opened Voice

  /** One definition fragment (an item of the detail's `"104"` list). */
  datatype Fragment = Fragment(relaId: string, lang: string, title: string)

  /**
    An element of the detail's `result` list, as decoded JSON: an object
    (the headword record, with its string-valued keys) or any other value.
   */
  datatype ResultItem =
    | Record(fields: map<string, string>)
    | JsonString(text: string)
    | JsonNumber(integral: bool)
    | JsonBool
    | JsonNull
    | JsonList

  /** The TypeError message of indexing a value that is not an object with a string key. */
  function NotSubscriptable(v: ResultItem): string
    requires !v.Record?
  {
    match v
    case JsonString(_) => "string indices must be integers, not 'str'"
    case JsonNumber(integral) => (if integral then "'int'" else "'float'") + " object is not subscriptable"
    case JsonBool => "'bool' object is not subscriptable"
    case JsonNull => "'NoneType' object is not subscriptable"
    case JsonList => "list indices must be integers or slices, not str"
  }

  /** `record[key]`: the value, or KeyError naming the key. */
  function Lookup(fields: map<string, string>, key: string): Result<string>
  {
    if key in fields then Ok(fields[key]) else Err(Raised("KeyError", "'" + key + "'"))
  }

  /** The word detail payload: the `result` list and the definition fragments. */
  datatype WordDetail = WordDetail(result: seq<ResultItem>, definitions: seq<Fragment>)

  /** A flash card: its ordered fields and its tags. */
  datatype Note = Note(fields: seq<string>, tags: seq<string>)

  const Japanese := "ja"
  const Provenance := "moji2anki"
  const NoteFieldCount := 11

  /** The bullet that opens a new sense, wrapped for Japanese text. */
  function Bullet(d: Fragment): string
  {
    if d.lang == Japanese then "<span class=\"jptext\">・" + d.title + "</span>" else "・" + d.title
  }

  /** A Japanese gloss on the current sense. */
  function Gloss(d: Fragment): string
  {
    "<span class=\"jptext\">(" + d.title + ")</span>"
  }

  /** What one loop step appends, given the running relation id before the step. */
  function Piece(rel: string, d: Fragment): string
  {
    (if rel != d.relaId then (if rel != "" then "<br>" else "") + Bullet(d) else "")
    + (if d.lang == Japanese && d.relaId == rel then Gloss(d) else "")
  }

  /**
    A left-to-right rendering in which each element's piece depends on the
    key of the element before it (`rel` before the first).
   */
  function Scan<T>(piece: (string, T) -> string, key: T -> string, rel: string, xs: seq<T>): string
    decreases |xs|
  {
    if xs == [] then "" else piece(rel, xs[0]) + Scan(piece, key, key(xs[0]), xs[1..])
  }

  /** The key left after a run of elements. */
  function LastKey<T>(key: T -> string, rel: string, xs: seq<T>): string
  {
    if xs == [] then rel else key(xs[|xs| - 1])
  }

  lemma ScanCons<T>(piece: (string, T) -> string, key: T -> string, rel: string, x: T, xs: seq<T>)
    ensures Scan(piece, key, rel, [x] + xs) == piece(rel, x) + Scan(piece, key, key(x), xs)
  {
    assert ([x] + xs)[1..] == xs;
  }

  lemma {:induction false} ScanAppend<T>(piece: (string, T) -> string, key: T -> string, rel: string, a: seq<T>, b: seq<T>)
    ensures Scan(piece, key, rel, a + b) == Scan(piece, key, rel, a) + Scan(piece, key, LastKey(key, rel, a), b)
    decreases |a|
  {
    if a == [] {
      assert a + b == b;
    } else {
      var x, rest := a[0], a[1..];
      assert a == [x] + rest;
      assert a + b == [x] + (rest + b);
      ScanCons(piece, key, rel, x, rest + b);
      ScanCons(piece, key, rel, x, rest);
      ScanAppend(piece, key, key(x), rest, b);
      assert LastKey(key, key(x), rest) == LastKey(key, rel, a);
    }
  }

  function RelaId(d: Fragment): string
  {
    d.relaId
  }

  /** The definition built from `rel` on: each fragment's piece, the running id moving to its relation id. */
  function Render(rel: string, frags: seq<Fragment>): string
  {
    Scan(Piece, RelaId, rel, frags)
  }

  /** The running relation id after a run of fragments. */
  function RunningId(rel: string, frags: seq<Fragment>): string
  {
    LastKey(RelaId, rel, frags)
  }

  /** The definition of a whole detail: the running id starts empty. */
  function Definition(frags: seq<Fragment>): string
  {
    Render("", frags)
  }

  /** Rendering one more fragment appends its piece. */
  lemma RenderSnoc(rel: string, frags: seq<Fragment>, d: Fragment)
    ensures Render(rel, frags + [d]) == Render(rel, frags) + Piece(RunningId(rel, frags), d)
  {
    ScanAppend(Piece, RelaId, rel, frags, [d]);
    assert Scan(Piece, RelaId, RunningId(rel, frags), [d]) == Piece(RunningId(rel, frags), d) + "";
  }

  /** Rendering two runs one after the other: the second starts from the running id the first leaves. */
  lemma RenderAppend(rel: string, a: seq<Fragment>, b: seq<Fragment>)
    ensures Render(rel, a + b) == Render(rel, a) + Render(RunningId(rel, a), b)
  {
    ScanAppend(Piece, RelaId, rel, a, b);
  }

  lemma RenderCons(rel: string, d: Fragment, rest: seq<Fragment>)
    ensures Render(rel, [d] + rest) == Piece(rel, d) + Render(d.relaId, rest)
  {
    ScanCons(Piece, RelaId, rel, d, rest);
  }

  /** The Japanese glosses of a run of fragments, in order; other languages add nothing. */
  function Glosses(frags: seq<Fragment>): string
  {
    if frags == [] then "" else (if frags[0].lang == Japanese then Gloss(frags[0]) else "") + Glosses(frags[1..])
  }

  /**
    One sense: a fragment opening a new relation id, followed by fragments of
    the same id, renders as an optional line break, the bullet, and the
    Japanese glosses of the followers.
   */
  lemma {:induction false} SenseRendering(rel: string, head: Fragment, rest: seq<Fragment>)
    requires head.relaId != rel
    requires forall i :: 0 <= i < |rest| ==> rest[i].relaId == head.relaId
    ensures Render(rel, [head] + rest) == (if rel != "" then "<br>" else "") + Bullet(head) + Glosses(rest)
  {
    assert ([head] + rest)[1..] == rest;
    SameSenseGlosses(head.relaId, rest);
  }

  lemma {:induction false} SameSenseGlosses(rel: string, frags: seq<Fragment>)
    requires forall i :: 0 <= i < |frags| ==> frags[i].relaId == rel
    ensures Render(rel, frags) == Glosses(frags)
  {
    if frags != [] {
      var d := frags[0];
      assert d.relaId == rel;
      assert Piece(rel, d) == (if d.lang == Japanese then Gloss(d) else "");
      SameSenseGlosses(rel, frags[1..]);
    }
  }

  /** The worked example: run / 走る under one sense, then flee. */
  lemma DefinitionExample()
    ensures Definition([Fragment("1", "en", "run"), Fragment("1", "ja", "走る"), Fragment("2", "en", "flee")])
            == "・run" + "<span class=\"jptext\">(走る)</span>" + "<br>・flee"
  {
    var a := Fragment("1", "en", "run");
    var b := Fragment("1", "ja", "走る");
    var c := Fragment("2", "en", "flee");
    RenderAppend("", [a, b], [c]);
    assert [a, b] + [c] == [a, b, c];
    ExampleFirstSense();
    ExampleSecondSense();
  }

  lemma ExampleFirstSense()
    ensures Render("", [Fragment("1", "en", "run"), Fragment("1", "ja", "走る")])
            == "・run" + "<span class=\"jptext\">(走る)</span>"
  {
    var a := Fragment("1", "en", "run");
    var b := Fragment("1", "ja", "走る");
    var bullet := Bullet(a);
    var gloss := Gloss(b);
    assert bullet == "・run";
    assert gloss == "<span class=\"jptext\">(走る)</span>";
    assert Piece("", a) == bullet;
    assert Piece("1", b) == gloss;
    assert [a, b] == [a] + [b] && [b] == [b] + [];
    RenderCons("", a, [b]);
    RenderCons("1", b, []);
    assert Render("1", []) == "";
  }

  lemma ExampleSecondSense()
    ensures Render("1", [Fragment("2", "en", "flee")]) == "<br>・flee"
  {
    var c := Fragment("2", "en", "flee");
    assert [c] + [] == [c];
    SenseRendering("1", c, []);
  }

  /** The loop of `generate_word_card` that builds the definition. */
  method ComposeDefinition(frags: seq<Fragment>) returns (definition: string)
    ensures definition == Definition(frags)
  {
    definition := "";
    var relId := "";
    for i := 0 to |frags|
      invariant definition == Render("", frags[..i])
      invariant relId == RunningId("", frags[..i])
    {
      var d := frags[i];
      definition := AppendFragment(definition, relId, d);
      RenderPrefix(frags, i);
      relId := d.relaId;
    }
    assert frags[..|frags|] == frags;
  }

  /** The definition of one more fragment of the detail, and the running id it leaves. */
  lemma RenderPrefix(frags: seq<Fragment>, i: nat)
    requires i < |frags|
    ensures Render("", frags[..i + 1]) == Render("", frags[..i]) + Piece(RunningId("", frags[..i]), frags[i])
    ensures RunningId("", frags[..i + 1]) == frags[i].relaId
  {
    assert frags[..i + 1] == frags[..i] + [frags[i]];
    RenderSnoc("", frags[..i], frags[i]);
  }

  /** One iteration of that loop: a new sense opens with a bullet, a Japanese fragment of the same sense adds a gloss. */
  method AppendFragment(definition: string, relId: string, d: Fragment) returns (extended: string)
    ensures extended == definition + Piece(relId, d)
  {
    extended := definition;
    if relId != d.relaId {
      if relId != "" {
        extended := extended + "<br>";
      }
      extended := extended + Bullet(d);
    }
    if d.lang == Japanese && d.relaId == relId {
      extended := extended + Gloss(d);
    }
  }

  /** The tags: the upstream tags when the test finds them, then the provenance tag, then the list name if any. */
  function NoteTags(result: seq<ResultItem>, source: string): (r: Result<seq<string>>)
    requires |result| > 0 && result[0].Record?
  {
    var upstream :=
      if JsonString("tags") in result then
        (match Lookup(result[0].fields, "tags")
         case Err(e) => Err(e)
         case Ok(t) => Ok(Split(t, '#')))
      else Ok([]);
    if upstream.Err? then Err(upstream.error)
    else Ok(upstream.value + [Provenance] + (if source != "" then [source] else []))
  }

  /**
    The note of one word. The first element of `result` is read key by key
    in the order of core.py: the accent, the tags (only when the membership
    test finds them), the spelling, the excerpt, then the reading when the
    spelling is not kana. Indexing an empty list raises IndexError, a first
    element that is not an object TypeError, a missing key KeyError.
   */
  function BuildNote(wordId: string, source: string, result: seq<ResultItem>, definition: string): (r: Result<Note>)
    ensures r.Ok? ==> |r.value.fields| == NoteFieldCount
  {
    if |result| == 0 then Err(Raised("IndexError", "list index out of range"))
    else if !result[0].Record? then Err(Raised("TypeError", NotSubscriptable(result[0])))
    else
      var h := result[0].fields;
      match Lookup(h, "accent")
      case Err(e) => Err(e)
      case Ok(accent) =>
        match NoteTags(result, source)
        case Err(e) => Err(e)
        case Ok(tags) =>
          match Lookup(h, "spell")
          case Err(e) => Err(e)
          case Ok(spell) =>
            var allKana := IsKana(spell);
            match Lookup(h, "excerpt")
            case Err(e) => Err(e)
            case Ok(excerpt) =>
              var reading := if allKana then Ok("") else Lookup(h, "pron");
              match reading
              case Err(e) => Err(e)
              case Ok(pron) =>
                Ok(Note([spell + (if !allKana then "[" + pron + "]" else ""),
                         accent,
                         Concat(Bracketed(excerpt)),
                         "",
                         "",
                         definition,
                         "[sound:" + wordId + ".mp3]",
                         if allKana then "" else "1",
                         "",
                         "",
                         ""], tags))
  }

  /**
    When a note is built: exactly when the list is non-empty, its first
    element is an object holding the accent, the spelling and the excerpt,
    the tags when the membership test succeeds, and the reading when the
    spelling is not kana. Each failure raises the error of the first
    access that fails.
   */
  lemma NoteFailures(wordId: string, source: string, result: seq<ResultItem>, definition: string)
    ensures var r := BuildNote(wordId, source, result, definition);
            && (r.Ok? <==> |result| > 0 && result[0].Record? &&
                           var h := result[0].fields;
                           && "accent" in h && "spell" in h && "excerpt" in h
                           && (JsonString("tags") in result ==> "tags" in h)
                           && (!IsKana(h["spell"]) ==> "pron" in h))
            && (|result| == 0 ==> r == Err(Raised("IndexError", "list index out of range")))
            && (|result| > 0 && !result[0].Record? ==> r == Err(Raised("TypeError", NotSubscriptable(result[0]))))
            && (|result| > 0 && result[0].Record? && "accent" !in result[0].fields ==>
                  r == Err(Raised("KeyError", "'accent'")))
            && (|result| > 0 && result[0].Record? && "accent" in result[0].fields &&
                JsonString("tags") in result && "tags" !in result[0].fields ==>
                  r == Err(Raised("KeyError", "'tags'")))
  {
    assert "'" + "accent" + "'" == "'accent'";
    assert "'" + "tags" + "'" == "'tags'";
  }

  /**
    The fields of a built note: the reading is appended to the spelling and
    the flag field set exactly when the spelling is not kana-only; the audio
    reference names the word's mp3; the other blanks stay blank.
   */
  lemma NoteFields(wordId: string, source: string, result: seq<ResultItem>, definition: string)
    requires BuildNote(wordId, source, result, definition).Ok?
    ensures |result| > 0 && result[0].Record?
    ensures var h := result[0].fields;
            var f := BuildNote(wordId, source, result, definition).value.fields;
            && "spell" in h && "accent" in h && "excerpt" in h
            && (f[0] == h["spell"] <==> IsKana(h["spell"]))
            && (f[7] == "" <==> IsKana(h["spell"]))
            && (!IsKana(h["spell"]) ==> "pron" in h && f[0] == h["spell"] + "[" + h["pron"] + "]" && f[7] == "1")
            && f[1] == h["accent"]
            && f[2] == Concat(Bracketed(h["excerpt"]))
            && f[5] == definition
            && f[6] == "[sound:" + wordId + ".mp3]"
            && f[3] == f[4] == f[8] == f[9] == f[10] == ""
  {
    var h := result[0].fields;
    var f := BuildNote(wordId, source, result, definition).value.fields;
    if !IsKana(h["spell"]) {
      assert |f[0]| > |h["spell"]|;
    }
  }

  /** The part of speech keeps the text of each bracketed token, in order, and drops the rest. */
  lemma PartOfSpeechExample()
    ensures Concat(Bracketed("[名][他サ]食べる")) == "名他サ"
  {
    BothTokens();
    var tokens: seq<string> := ["名", "他サ"];
    assert tokens[1..] == ["他サ"];
    assert Concat(["他サ"]) == "他サ" + "";
    assert Concat(tokens) == "名" + "他サ";
  }

  lemma BothTokens()
    ensures Bracketed("[名][他サ]食べる") == ["名", "他サ"]
  {
    SecondToken();
    BracketedFront("名", "[他サ]食べる");
    assert "[" + "名" + "]" + "[他サ]食べる" == "[名][他サ]食べる";
    assert ["名"] + ["他サ"] == ["名", "他サ"];
  }

  lemma SecondToken()
    ensures Bracketed("[他サ]食べる") == ["他サ"]
  {
    BracketedNone("食べる");
    BracketedFront("他サ", "食べる");
    assert "[" + "他サ" + "]" + "食べる" == "[他サ]食べる";
  }

  /**
    The tags of a built note: the `#`-separated upstream tags when the
    membership test finds the string `"tags"` in the list, none otherwise,
    then the provenance tag, then the list name only when it is non-empty.
    The test looks for the string among the list's elements, so a list of
    objects never contributes upstream tags.
   */
  lemma NoteTagsShape(wordId: string, source: string, result: seq<ResultItem>, definition: string)
    requires BuildNote(wordId, source, result, definition).Ok?
    ensures var t := BuildNote(wordId, source, result, definition).value.tags;
            var tail := [Provenance] + (if source != "" then [source] else []);
            && (source == "" ==> |t| >= 1 && t[|t| - 1] == Provenance)
            && (source != "" ==> |t| >= 2 && t[|t| - 2] == Provenance && t[|t| - 1] == source)
            && (JsonString("tags") in result ==>
                  "tags" in result[0].fields && t == Split(result[0].fields["tags"], '#') + tail)
            && (JsonString("tags") !in result ==> t == tail)
            && ((forall i :: 0 <= i < |result| ==> result[i].Record?) ==> t == tail)
  {
    if forall i :: 0 <= i < |result| ==> result[i].Record? {
      assert JsonString("tags") !in result;
    }
  }

  /** The process-wide deck (`card_deck`): the notes added so far, in order. */
  class Deck {
    var notes: seq<Note>

    constructor ()
      ensures notes == []
    {
      notes := [];
    }

    /** `card_deck.add_note`. */
    method AddNote(n: Note)
      modifies this
      ensures notes == old(notes) + [n]
    {
      notes := notes + [n];
    }
  }

  /** The service answers needed to build one word's card. */
  datatype WordEnv = WordEnv(detail: Response<WordDetail>, voice: Response<VoiceInfo>, download: nat -> Attempt)

  /** A built card, and the audio file name to report when the download soft-failed (empty otherwise). */
  datatype CardResult = CardResult(note: Note, failedVoice: string)

  /**
    `generate_word_card` as a value: the detail request, then the audio
    (whose exceptions propagate), then the note.
   */
  function WordCard(wordId: string, source: string, env: WordEnv): Result<CardResult>
  {
    match GetData(env.detail)
    case Err(e) => Err(e)
    case Ok(word) =>
      var voice := WordVoice(wordId, env.voice, env.download);
      if voice.result.Err? then Err(voice.result.error)
      else
        var failed := if !voice.result.value then wordId + ".mp3" else "";
        match BuildNote(wordId, source, word.result, Definition(word.definitions))
        case Err(e) => Err(e)
        case Ok(note) => Ok(CardResult(note, failed))
  }

  /**
    A card is built exactly when the detail request, the audio and the note
    all succeed; its note is the one built from the detail with the composed
    definition, and the audio file is reported exactly when its download
    came back empty. A failed detail request raises before any audio is
    requested.
   */
  lemma WordCardOutcome(wordId: string, source: string, env: WordEnv)
    ensures var r := WordCard(wordId, source, env);
            var detail := GetData(env.detail);
            var voice := WordVoice(wordId, env.voice, env.download).result;
            && (r.Ok? <==> detail.Ok? && voice.Ok? &&
                           BuildNote(wordId, source, detail.value.result, Definition(detail.value.definitions)).Ok?)
            && (r.Ok? ==> Ok(r.value.note) == BuildNote(wordId, source, detail.value.result, Definition(detail.value.definitions)))
            && (r.Ok? ==> (r.value.failedVoice != "" <==> voice == Ok(false)))
            && (r.Ok? && r.value.failedVoice != "" ==> r.value.failedVoice == wordId + ".mp3")
            && (detail.Err? ==> r == Err(detail.error))
            && (detail.Ok? && voice.Err? ==> r == Err(voice.error))
  {
  }

  /** `generate_word_card`: builds the card and adds its note to the shared deck; nothing is added when it raises. */
  method GenerateWordCard(deck: Deck, wordId: string, source: string, env: WordEnv)
    returns (r: Result<string>, saved: Option<SavedFile>)
    modifies deck
    ensures WordCard(wordId, source, env).Ok? ==>
              r == Ok(WordCard(wordId, source, env).value.failedVoice) &&
              deck.notes == old(deck.notes) + [WordCard(wordId, source, env).value.note]
    ensures WordCard(wordId, source, env).Err? ==>
              r == Err(WordCard(wordId, source, env).error) && deck.notes == old(deck.notes)
    ensures GetData(env.detail).Ok? ==> saved == WordVoice(wordId, env.voice, env.download).saved
    ensures GetData(env.detail).Err? ==> saved.None?
  {
    saved := None;
    var failedVoice := "";
    var detail := GetData(env.detail);
    if detail.Err? {
      return Err(detail.error), None;
    }
    var word := detail.value;
    var voiceOk, file, _ := GetWordVoice(wordId, env.voice, env.download);
    saved := file;
    if voiceOk.Err? {
      return Err(voiceOk.error), saved;
    }
    if !voiceOk.value {
      failedVoice := wordId + ".mp3";
    }
    var definition := ComposeDefinition(word.definitions);
    var note := BuildNote(wordId, source, word.result, definition);
    if note.Err? {
      return Err(note.error), saved;
    }
    deck.AddNote(note.value);
    r := Ok(failedVoice);
  }
}

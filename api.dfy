/**
  The HTTP endpoints of main.py, as operations on the progress store, the
  shared deck and the set of files in the deck directory. The task id that
  `create_apkg` draws from `uuid4` is a parameter.
 */
module Api {

  import opened Errors
  import opened ProgressLog
  import opened Card
  import opened Generate

  const TaskCreated := "Task created"
  const FileNotFound := "File not found"
  const ArchiveMediaType := "application/octet-stream"

  /** `os.path.join(dir, name)`: an absolute name replaces the directory; otherwise one `/` separates them. */
  function PathJoin(dir: string, name: string): (p: string)
    ensures |name| > 0 && name[0] == '/' ==> p == name
    ensures !(|name| > 0 && name[0] == '/') ==> |p| >= |name| && p[|p| - |name|..] == name
    ensures !(|name| > 0 && name[0] == '/') ==> |p| >= |dir| && p[..|dir|] == dir
  {
    if |name| > 0 && name[0] == '/' then name
    else if dir == "" || dir[|dir| - 1] == '/' then dir + name
    else dir + "/" + name
  }

  /** The package of a task: `<task id>.apkg` in the deck directory. */
  function ArchiveName(taskId: string): string
  {
    taskId + ".apkg"
  }

  function ArchivePath(deckDir: string, taskId: string): string
  {
    PathJoin(deckDir, ArchiveName(taskId))
  }

  /** What `download_apkg` serves: the file, the name the client saves it under, and its media type. */
  datatype FileReply = FileReply(path: string, filename: string, mediaType: string)

  /** `download_apkg`: the task's package when it exists among `files`, and NotFound otherwise. */
  function DownloadApkg(taskId: string, deckDir: string, files: set<string>): (r: Result<FileReply>)
    ensures r.Ok? <==> ArchivePath(deckDir, taskId) in files
    ensures r.Ok? ==> r.value.path in files && r.value.filename == ArchiveName(taskId) &&
                      r.value.mediaType == ArchiveMediaType
    ensures r.Err? ==> r.error == NotFound(FileNotFound)
  {
    var path := ArchivePath(deckDir, taskId);
    if path in files then Ok(FileReply(path, ArchiveName(taskId), ArchiveMediaType))
    else Err(NotFound(FileNotFound))
  }

  /** The served file is the one in the deck directory named after the task. */
  lemma DownloadServesTaskArchive(taskId: string, deckDir: string, files: set<string>)
    requires DownloadApkg(taskId, deckDir, files).Ok?
    requires taskId == "" || taskId[0] != '/'
    ensures var p := DownloadApkg(taskId, deckDir, files).value.path;
            && p[..|deckDir|] == deckDir
            && |p| >= |taskId| + 5 && p[|p| - |taskId| - 5..] == taskId + ".apkg"
  {
    var name := ArchiveName(taskId);
    assert |name| == |taskId| + 5;
    assert name[0] != '/';
  }

  /** `create_apkg`, up to scheduling the background task: the new task's log starts with "Task created". */
  method CreateApkg(store: ProgressStore, taskId: string) returns (reply: string)
    modifies store
    ensures store.logs == Appended(old(store.logs), taskId, [TaskCreated])
    ensures reply == taskId
  {
    store.Update(taskId, TaskCreated);
    reply := taskId;
  }

  /**
    `create_apkg` followed by its background task run to its end. The
    package, when written, goes to the task's archive path.
   */
  method CreateAndRun(store: ProgressStore, deck: Deck, taskId: string, path: string, deckDir: string, env: Env)
    returns (written: Option<(string, seq<Note>)>)
    requires taskId !in store.logs
    modifies store, deck
    ensures store.Get(taskId) == Ok([TaskCreated] + Messages(Run(path, env)))
    ensures forall t :: t != taskId ==> LogOf(store.logs, t) == LogOf(old(store.logs), t)
    ensures deck.notes == old(deck.notes) + Run(path, env).notes
    ensures written.Some? <==> Run(path, env).status.Success?
    ensures written.Some? ==> written.value == (ArchivePath(deckDir, taskId), deck.notes)
  {
    ghost var start := store.logs;
    ghost var run := Run(path, env);
    ghost var msgs := Messages(run);
    var _ := CreateApkg(store, taskId);
    var archive := GenerateAnkiCards(store, deck, path, taskId, env);
    AppendedTwice(start, taskId, [TaskCreated], msgs);
    AppendedLeavesOthers(start, taskId, [TaskCreated] + msgs);
    assert LogOf(start, taskId) + ([TaskCreated] + msgs) == [TaskCreated] + msgs;
    assert store.logs[taskId] == [TaskCreated] + msgs;
    written := if archive.Some? then Some((ArchivePath(deckDir, taskId), archive.value)) else None;
  }

  /** After a task's package is written, downloading it by task id succeeds. */
  lemma DownloadAfterWrite(taskId: string, deckDir: string, files: set<string>)
    ensures DownloadApkg(taskId, deckDir, files + {ArchivePath(deckDir, taskId)}) ==
            Ok(FileReply(ArchivePath(deckDir, taskId), taskId + ".apkg", ArchiveMediaType))
  {
  }

  /** A task's log, read back while it runs or after, always opens with "Task created". */
  lemma LogOpensWithCreation(path: string, env: Env)
    ensures var log := [TaskCreated] + Messages(Run(path, env));
            |log| >= 1 && log[0] == TaskCreated &&
            (!Run(path, env).status.Unfinished? ==> |log| >= 2 && IsTerminal(log[|log| - 1]))
  {
    OneTerminalLineLast(path, env);
  }
}

/**
  Pronunciation audio (core.py `get_word_voice`): ask the service for a
  signed audio URL, then download it with at most one retry, and save
  non-empty audio as `<word id>.mp3`.

  Each download attempt is an input: `download(k)` is what the k-th GET
  (counting from 0) produced, an exception or some content.
 */
module Voice {

  import opened Errors
  import opened Remote

  /** `max_retries`: one retry, so at most two attempts. */
  const MaxRetries: nat := 1

  datatype Attempt = Raises | Fetched(content: seq<bv8>)

  /** The signed-URL payload (`result.result`). */
  datatype VoiceInfo = VoiceInfo(url: string)

  /** A file written to the audio working directory. */
  datatype SavedFile = SavedFile(name: string, content: seq<bv8>)

  /**
    When every attempt raises, `audio_content` is never bound and the test
    after the loop raises this (the message of current Python versions).
   */
  const UnboundAudio := Raised("UnboundLocalError",
    "cannot access local variable 'audio_content' where it is not associated with a value")

  /** The content of the first successful attempt among attempts `k..MaxRetries`. */
  function FirstDownloadFrom(download: nat -> Attempt, k: nat): (o: Option<seq<bv8>>)
    ensures o.Some? <==> exists j :: k <= j <= MaxRetries && download(j).Fetched?
    ensures o.Some? ==> exists j :: k <= j <= MaxRetries && download(j) == Fetched(o.value) &&
                                  forall i :: k <= i < j ==> download(i).Raises?
    decreases MaxRetries + 1 - k
  {
    if k > MaxRetries then None
    else if download(k).Fetched? then Some(download(k).content)
    else FirstDownloadFrom(download, k + 1)
  }

  /** How many GET requests the loop issues: up to and including the first success, at most two. */
  function AttemptsMade(download: nat -> Attempt): (n: nat)
    ensures 1 <= n <= MaxRetries + 1
    ensures forall i :: 0 <= i < n - 1 ==> download(i).Raises?
    ensures n <= MaxRetries ==> download(n - 1).Fetched?
  {
    if download(0).Fetched? then 1 else 2
  }

  /** What `get_word_voice` returns (or raises), and the file it writes. */
  datatype VoiceOutcome = VoiceOutcome(result: Result<bool>, saved: Option<SavedFile>)

  function WordVoice(wordId: string, resp: Response<VoiceInfo>, download: nat -> Attempt): (v: VoiceOutcome)
    ensures v.result == Ok(false) <==> GetData(resp).Ok? && FirstDownloadFrom(download, 0) == Some([])
    ensures v.result == Ok(true) <==> v.saved.Some?
    ensures v.saved.Some? ==> v.saved.value.name == wordId + ".mp3" && v.saved.value.content != [] &&
                              Some(v.saved.value.content) == FirstDownloadFrom(download, 0)
    ensures GetData(resp).Ok? && FirstDownloadFrom(download, 0).Some? && FirstDownloadFrom(download, 0).value != [] ==>
              v.result == Ok(true) && v.saved == Some(SavedFile(wordId + ".mp3", FirstDownloadFrom(download, 0).value))
    ensures GetData(resp).Ok? && (forall k :: 0 <= k <= MaxRetries ==> download(k).Raises?) ==> v.result == Err(UnboundAudio)
    ensures GetData(resp).Err? ==> v.result == Err(GetData(resp).error) && v.saved.None?
  {
    match GetData(resp)
    case Err(e) => VoiceOutcome(Err(e), None)
    case Ok(_) =>
      match FirstDownloadFrom(download, 0)
      case None => VoiceOutcome(Err(UnboundAudio), None)
      case Some(audio) =>
        if audio == [] then VoiceOutcome(Ok(false), None)
        else VoiceOutcome(Ok(true), Some(SavedFile(wordId + ".mp3", audio)))
  }

  /**
    `get_word_voice`: the retry loop of core.py. `made` counts the download
    attempts issued (none when the signed-URL request already failed).
   */
  method GetWordVoice(wordId: string, resp: Response<VoiceInfo>, download: nat -> Attempt)
    returns (result: Result<bool>, saved: Option<SavedFile>, made: nat)
    ensures VoiceOutcome(result, saved) == WordVoice(wordId, resp, download)
    ensures made == if GetData(resp).Ok? then AttemptsMade(download) else 0
  {
    var info := GetData(resp);
    if info.Err? {
      return Err(info.error), None, 0;
    }
    var attempts: nat := 0;
    var audioContent: Option<seq<bv8>> := None;
    made := 0;
    while attempts <= MaxRetries
      invariant attempts <= MaxRetries + 1
      invariant audioContent.None? ==> made == attempts
      invariant audioContent.None? ==> forall i :: 0 <= i < attempts ==> download(i).Raises?
      invariant audioContent.None? ==> FirstDownloadFrom(download, attempts) == FirstDownloadFrom(download, 0)
      invariant audioContent.Some? ==> audioContent == FirstDownloadFrom(download, 0) && made == AttemptsMade(download)
      decreases MaxRetries + 1 - attempts, audioContent.None?
    {
      made := made + 1;
      var outcome := download(attempts);
      if outcome.Fetched? {
        audioContent := Some(outcome.content);
        break;
      }
      attempts := attempts + 1;
    }
    if audioContent.None? {
      return Err(UnboundAudio), None, made;
    }
    if audioContent.value != [] {
      saved := Some(SavedFile(wordId + ".mp3", audioContent.value));
      result := Ok(true);
    } else {
      saved := None;
      result := Ok(false);
    }
  }

  /** The soft failure: `False` is returned exactly when a download succeeds with empty content. */
  lemma FalseOnlyForEmptyAudio(wordId: string, resp: Response<VoiceInfo>, download: nat -> Attempt)
    requires GetData(resp).Ok?
    ensures WordVoice(wordId, resp, download).result == Ok(false) <==>
            exists k :: 0 <= k <= MaxRetries && download(k) == Fetched([]) &&
                        forall i :: 0 <= i < k ==> download(i).Raises?
  {
    var o := FirstDownloadFrom(download, 0);
    if exists k :: 0 <= k <= MaxRetries && download(k) == Fetched([]) && forall i :: 0 <= i < k ==> download(i).Raises? {
      var k :| 0 <= k <= MaxRetries && download(k) == Fetched([]) && forall i :: 0 <= i < k ==> download(i).Raises?;
      assert o.Some?;
      var j :| 0 <= j <= MaxRetries && download(j) == Fetched(o.value) && forall i :: 0 <= i < j ==> download(i).Raises?;
      assert j == k;
    }
  }
}

/**
 * The daily ingestion run (collect_and_save and the steps it calls): check whether
 * today's point is stored, authenticate, list the playlist and sum its durations in
 * batches of 50, write the point with a merge, and record the outcome in the status
 * document. "Today" and the status timestamp are parameters of the run.
 */
module Ingestion {
  import opened Basics
  import opened Store
  import opened Source
  import Duration

  /** The status field every run reports under. */
  const FinalResult := "final_result"
  /** Videos per `videos().list` request. */
  const BatchSize := 50

  function AlreadySavedMessage(today: string): string { "Dados para " + today + " já salvos." }
  function SavedMessage(today: string): string { "Dados para " + today + " salvos." }
  function CheckErrorMessage(e: string): string { "Erro ao verificar os dados: " + e }
  function AuthErrorMessage(e: string): string { "Erro na autenticação: " + e }
  function FetchErrorMessage(e: string): string { "Erro ao buscar os dados da playlist: " + e }

  // ---------------------------------------------------------------------------
  // upload_status and upload_data

  /** The fields upload_status writes, built in the order of the dict literal (a later key wins). */
  function StatusFields(title: string, text: string, success: bool, now: string): Document
  {
    map[title := TextValue(text)][title + "_timestamp" := TextValue(now)]["success" := BoolValue(success)]
  }

  /** The fields upload_data writes. */
  function DataFields(videoCount: nat, totalMinutes: nat): Document
  {
    map["video_count" := IntValue(videoCount), "total_minutes" := IntValue(totalMinutes)]
  }

  /** The status document after upload_status: merged, or unchanged when the write raised (the error is only logged). */
  function StatusAfter(status: Document, fault: Option<string>, title: string, text: string, success: bool, now: string): Document
  {
    if fault.Some? then status else Merge(status, StatusFields(title, text, success, now))
  }

  /** upload_status changes only the title, its timestamp and the success flag. */
  lemma StatusWriteTouchesOnly(status: Document, title: string, text: string, success: bool, now: string, k: string)
    ensures var after := StatusAfter(status, None, title, text, success, now);
            && after["success"] == BoolValue(success)
            && after[title + "_timestamp"] == TextValue(now)
            && (title != "success" ==> after[title] == TextValue(text))
            && (k != title && k != title + "_timestamp" && k != "success" ==>
                  (k in after <==> k in status) && (k in status ==> after[k] == status[k]))
  {
  }

  method UploadStatus(db: Firestore, title: string, text: string, success: bool, now: string)
    modifies db
    ensures db.playlistData == old(db.playlistData)
    ensures db.status == StatusAfter(old(db.status), db.statusWriteFault, title, text, success, now)
  {
    var written := db.MergeStatus(StatusFields(title, text, success, now));
  }

  /** upload_data: on success it returns the message the run later reports; a failed write is only logged, so no status is written. */
  method UploadData(db: Firestore, today: string, videoCount: nat, totalMinutes: nat) returns (saved: Option<string>)
    modifies db
    ensures saved == if db.dataWriteFault.Some? then None else Some(SavedMessage(today))
    ensures db.status == old(db.status)
    ensures db.playlistData == if saved.None? then old(db.playlistData)
              else old(db.playlistData)[today := Merge(DocumentAt(old(db.playlistData), today), DataFields(videoCount, totalMinutes))]
  {
    var written := db.MergeDay(today, DataFields(videoCount, totalMinutes));
    if written.Fail? {
      saved := None;
    } else {
      saved := Some(SavedMessage(today));
    }
  }

  // ---------------------------------------------------------------------------
  // check_data and authenticate_youtube

  /** What check_data found: proceed, stop because today is stored, or stop because the read raised. */
  datatype Check = NotSaved | AlreadySaved | CheckFailed(reason: string)

  method CheckData(db: Firestore, today: string, now: string) returns (r: Check)
    modifies db
    ensures r == if db.readFault.Some? then CheckFailed(db.readFault.value)
                 else if today in old(db.playlistData) then AlreadySaved
                 else NotSaved
    ensures db.playlistData == old(db.playlistData)
    ensures db.status == match r
              case NotSaved => old(db.status)
              case AlreadySaved => StatusAfter(old(db.status), db.statusWriteFault, FinalResult, AlreadySavedMessage(today), true, now)
              case CheckFailed(e) => StatusAfter(old(db.status), db.statusWriteFault, FinalResult, CheckErrorMessage(e), false, now)
  {
    var lookup := db.DayExists(today);
    match lookup
    case Err(e) =>
      UploadStatus(db, FinalResult, CheckErrorMessage(e), false, now);
      r := CheckFailed(e);
    case Ok(found) =>
      if !found {
        r := NotSaved;
      } else {
        UploadStatus(db, FinalResult, AlreadySavedMessage(today), true, now);
        r := AlreadySaved;
      }
  }

  method AuthenticateYouTube(db: Firestore, yt: YouTube, now: string) returns (ok: bool)
    modifies db, yt
    ensures ok == yt.buildFault.None?
    ensures yt.calls == old(yt.calls) + [BuildCall]
    ensures db.playlistData == old(db.playlistData)
    ensures db.status == if ok then old(db.status)
              else StatusAfter(old(db.status), db.statusWriteFault, FinalResult, AuthErrorMessage(yt.buildFault.value), false, now)
  {
    var built := yt.Build();
    ok := built.Pass?;
    if !ok {
      UploadStatus(db, FinalResult, AuthErrorMessage(built.error), false, now);
    }
  }

  // ---------------------------------------------------------------------------
  // get_data: what a fetch should yield

  /** The video ids of the playlist, page after page; the first page that raised stops the listing. */
  function PlaylistIds(pages: seq<Page>): Result<seq<string>>
  {
    if pages == [] then Ok([])
    else match PlaylistIds(pages[..|pages| - 1])
      case Err(e) => Err(e)
      case Ok(ids) =>
        match pages[|pages| - 1]
        case PageError(e) => Err(e)
        case Page(more) => Ok(ids + more)
  }

  /** Adding to a running total (`total_minutes += ...`): a failure on either side is the failure, first the earlier one. */
  function Plus(sum: Result<nat>, more: Result<nat>): (r: Result<nat>)
    ensures r.Ok? <==> sum.Ok? && more.Ok?
    ensures r.Ok? ==> r.value == sum.value + more.value
    ensures r.Err? ==> r == if sum.Err? then sum else more
  {
    if sum.Err? then sum
    else if more.Err? then more
    else Ok(sum.value + more.value)
  }

  /** The minutes of some durations added up in order; the first malformed one raises and stops the sum. */
  function SumMinutes(durations: seq<string>): Result<nat>
    decreases |durations|, 1
  {
    if durations == [] then Ok(0) else SumMinutesLast(durations)
  }

  /** The sum of all but the last duration, plus the last one. */
  function SumMinutesLast(durations: seq<string>): Result<nat>
    requires durations != []
    decreases |durations|, 0
  {
    Plus(SumMinutes(durations[..|durations| - 1]), Duration.ParseDurationToMinutes(durations[|durations| - 1]))
  }

  /** The pair get_data returns. */
  datatype Counts = Counts(videoCount: nat, totalMinutes: nat)

  /** What get_data yields: the number of listed videos and the minutes of the durations the platform returns for them. */
  function FetchPlaylist(pages: seq<Page>, durations: map<string, string>, videosFault: Option<string>): Result<Counts>
  {
    match PlaylistIds(pages)
    case Err(e) => Err(e)
    case Ok(ids) =>
      if ids == [] then Ok(Counts(0, 0))
      else if videosFault.Some? then Err(videosFault.value)
      else match SumMinutes(Found(ids, durations))
        case Err(e) => Err(e)
        case Ok(total) => Ok(Counts(|ids|, total))
  }

  /** How many listing requests the loop makes: up to and including the first page that raises, or every page. */
  function PagesRead(pages: seq<Page>): (n: nat)
    ensures n <= |pages|
    ensures PlaylistIds(pages).Ok? ==> n == |pages|
  {
    if pages == [] then 0
    else if PlaylistIds(pages[..|pages| - 1]).Err? then PagesRead(pages[..|pages| - 1])
    else |pages|
  }

  /** Once the listing of a prefix of the pages has failed, the whole listing fails the same way and requests no further page. */
  lemma {:induction false} PlaylistIdsFailurePersists(pages: seq<Page>, k: nat)
    requires k <= |pages| && PlaylistIds(pages[..k]).Err?
    ensures PlaylistIds(pages) == PlaylistIds(pages[..k])
    ensures PagesRead(pages) == PagesRead(pages[..k])
    decreases |pages|
  {
    if k < |pages| {
      var init := pages[..|pages| - 1];
      assert init[..k] == pages[..k];
      PlaylistIdsFailurePersists(init, k);
    } else {
      assert pages[..k] == pages;
    }
  }

  lemma PlusAssociative(x: Result<nat>, y: Result<nat>, z: Result<nat>)
    ensures Plus(Plus(x, y), z) == Plus(x, Plus(y, z))
  {
  }

  /** One more duration added to the sum. */
  lemma SumMinutesSnoc(durations: seq<string>, d: string)
    ensures SumMinutes(durations + [d]) == Plus(SumMinutes(durations), Duration.ParseDurationToMinutes(d))
  {
    var ds := durations + [d];
    assert ds[..|ds| - 1] == durations && ds[|ds| - 1] == d;
  }

  /** Summing two lists one after the other is adding their sums. */
  lemma {:induction false} SumMinutesAppend(a: seq<string>, b: seq<string>)
    ensures SumMinutes(a + b) == Plus(SumMinutes(a), SumMinutes(b))
    decreases |b|
  {
    if b == [] {
      assert a + b == a;
      assert SumMinutes(b) == Ok(0);
    } else {
      var init, last := b[..|b| - 1], b[|b| - 1];
      assert a + b == (a + init) + [last] && b == init + [last];
      SumMinutesSnoc(a + init, last);
      SumMinutesSnoc(init, last);
      SumMinutesAppend(a, init);
      PlusAssociative(SumMinutes(a), SumMinutes(init), Duration.ParseDurationToMinutes(last));
    }
  }

  /** The sum fails exactly when some duration does not start with P, and then with the parser's message. */
  lemma {:induction false} SumMinutesFailure(durations: seq<string>)
    ensures SumMinutes(durations).Err?
        <==> exists k :: 0 <= k < |durations| && (durations[k] == "" || durations[k][0] != 'P')
    ensures SumMinutes(durations).Err? ==> SumMinutes(durations).error == Duration.InvalidFormat
    decreases |durations|
  {
    if durations != [] {
      var init, last := durations[..|durations| - 1], durations[|durations| - 1];
      SumMinutesFailure(init);
      if exists k :: 0 <= k < |init| && (init[k] == "" || init[k][0] != 'P') {
        var k :| 0 <= k < |init| && (init[k] == "" || init[k][0] != 'P');
        assert durations[k] == init[k];
      }
      if exists k :: 0 <= k < |durations| && (durations[k] == "" || durations[k][0] != 'P') {
        var k :| 0 <= k < |durations| && (durations[k] == "" || durations[k][0] != 'P');
        if k < |init| {
          assert init[k] == durations[k];
        }
      }
    }
  }

  // ---------------------------------------------------------------------------
  // Batching: `for i in range(0, len(video_ids), 50)` over `video_ids[i:i + 50]`

  function BatchCount(n: nat): nat
  {
    (n + BatchSize - 1) / BatchSize
  }

  function Batch(ids: seq<string>, b: nat): seq<string>
    requires b < BatchCount(|ids|)
  {
    ids[BatchSize * b..Min(BatchSize * b + BatchSize, |ids|)]
  }

  function Batches(ids: seq<string>): seq<seq<string>>
  {
    seq(BatchCount(|ids|), b requires 0 <= b < BatchCount(|ids|) => Batch(ids, b))
  }

  function Flatten(bs: seq<seq<string>>): seq<string>
  {
    if bs == [] then [] else Flatten(bs[..|bs| - 1]) + bs[|bs| - 1]
  }

  lemma {:induction false} BatchesPrefix(ids: seq<string>, k: nat)
    requires k <= BatchCount(|ids|)
    ensures Flatten(Batches(ids)[..k]) == ids[..Min(BatchSize * k, |ids|)]
    decreases k
  {
    if k > 0 {
      var bs := Batches(ids)[..k];
      assert bs[..k - 1] == Batches(ids)[..k - 1];
      BatchesPrefix(ids, k - 1);
      assert ids[..Min(BatchSize * k, |ids|)] == ids[..BatchSize * (k - 1)] + Batch(ids, k - 1);
    }
  }

  /** The batches cover the ids exactly, in order, and each holds between 1 and 50 of them. */
  lemma BatchesPartition(ids: seq<string>)
    ensures Flatten(Batches(ids)) == ids
    ensures forall b :: 0 <= b < |Batches(ids)| ==> 0 < |Batches(ids)[b]| <= BatchSize
  {
    BatchesPrefix(ids, BatchCount(|ids|));
    assert Batches(ids)[..BatchCount(|ids|)] == Batches(ids);
    assert ids[..Min(BatchSize * BatchCount(|ids|), |ids|)] == ids;
  }

  /** The listing requests, one per page. */
  function ListingCalls(n: nat): seq<Call>
  {
    seq(n, p requires 0 <= p < n => PlaylistItemsCall(p))
  }

  /** The first b `videos().list` requests, one per batch. */
  function BatchCalls(ids: seq<string>, b: nat): seq<Call>
    requires b <= BatchCount(|ids|)
  {
    seq(b, k requires 0 <= k < b => VideosCall(Batch(ids, k)))
  }

  /** All the `videos().list` requests for the ids. */
  function VideoCalls(ids: seq<string>): seq<Call>
  {
    BatchCalls(ids, BatchCount(|ids|))
  }

  lemma BatchCallsStep(ids: seq<string>, b: nat)
    requires b < BatchCount(|ids|)
    ensures BatchCalls(ids, b + 1) == BatchCalls(ids, b) + [VideosCall(Batch(ids, b))]
  {
  }

  /** How many batches from the b-th on are requested when no request raises: up to and including the first with a malformed duration, or all of them. */
  function BatchesFrom(ids: seq<string>, durations: map<string, string>, b: nat): (n: nat)
    requires b <= BatchCount(|ids|)
    ensures b <= n <= BatchCount(|ids|)
    decreases BatchCount(|ids|) - b, 1
  {
    if b == BatchCount(|ids|) then b else BatchesAt(ids, durations, b)
  }

  /** The b-th batch is requested; the loop goes on past it only when its durations sum. */
  function BatchesAt(ids: seq<string>, durations: map<string, string>, b: nat): (n: nat)
    requires b < BatchCount(|ids|)
    ensures b < n <= BatchCount(|ids|)
    decreases BatchCount(|ids|) - b, 0
  {
    if SumMinutes(Found(Batch(ids, b), durations)).Err? then b + 1 else BatchesFrom(ids, durations, b + 1)
  }

  /** How many `videos().list` requests the batch loop makes: the first one alone when requests raise. */
  function BatchesRead(ids: seq<string>, durations: map<string, string>, videosFault: Option<string>): (n: nat)
    ensures n <= BatchCount(|ids|)
  {
    if videosFault.Some? then Min(1, BatchCount(|ids|)) else BatchesFrom(ids, durations, 0)
  }

  /** Every request get_data makes: the listing requests it gets through, then the batches it gets through. */
  function FetchCalls(pages: seq<Page>, durations: map<string, string>, videosFault: Option<string>): seq<Call>
  {
    ListingCalls(PagesRead(pages))
    + match PlaylistIds(pages)
      case Err(_) => []
      case Ok(ids) => BatchCalls(ids, BatchesRead(ids, durations, videosFault))
  }

  // ---------------------------------------------------------------------------
  // get_data

  /** The `while request` loop: every video id of the playlist, page by page. */
  method ListVideoIds(yt: YouTube) returns (r: Result<seq<string>>)
    modifies yt
    ensures r == PlaylistIds(yt.pages)
    ensures yt.calls == old(yt.calls) + ListingCalls(PagesRead(yt.pages))
  {
    var ids: seq<string> := [];
    var p := 0;
    while p < |yt.pages|
      invariant p <= |yt.pages|
      invariant PlaylistIds(yt.pages[..p]) == Ok(ids)
      invariant yt.calls == old(yt.calls) + ListingCalls(p)
    {
      var response := yt.ListPlaylistItems(p);
      assert yt.pages[..p + 1][..p] == yt.pages[..p];
      if response.Err? {
        PlaylistIdsFailurePersists(yt.pages, p + 1);
        return Err(response.error);
      }
      ids := ids + response.value;
      assert ListingCalls(p + 1) == ListingCalls(p) + [PlaylistItemsCall(p)];
      p := p + 1;
    }
    assert yt.pages[..p] == yt.pages;
    r := Ok(ids);
  }

  /** One step of the batch loop: the next batch extends the covered prefix of the ids, and its request extends the trace. */
  lemma BatchStep(ids: seq<string>, b: nat, durations: map<string, string>)
    requires b < BatchCount(|ids|)
    ensures BatchSize * b <= |ids|
    ensures Min(BatchSize * (b + 1), |ids|) == Min(BatchSize * b + BatchSize, |ids|)
    ensures Found(ids[..Min(BatchSize * (b + 1), |ids|)], durations)
            == Found(ids[..BatchSize * b], durations) + Found(Batch(ids, b), durations)
  {
    var start, end := BatchSize * b, Min(BatchSize * b + BatchSize, |ids|);
    assert ids[..end] == ids[..start] + Batch(ids, b);
    FoundAppend(ids[..start], Batch(ids, b), durations);
  }

  /** The inner loop: the minutes of one response's durations, added in order. */
  method SumDurations(durations: seq<string>) returns (r: Result<nat>)
    ensures r == SumMinutes(durations)
  {
    var sum := 0;
    var j := 0;
    while j < |durations|
      invariant j <= |durations|
      invariant SumMinutes(durations[..j]) == Ok(sum)
    {
      var minutes := Duration.ParseDurationToMinutes(durations[j]);
      assert durations[..j + 1][..j] == durations[..j];
      if minutes.Err? {
        assert durations[..j + 1] + durations[j + 1..] == durations;
        SumMinutesAppend(durations[..j + 1], durations[j + 1..]);
        return Err(minutes.error);
      }
      sum := sum + minutes.value;
      j := j + 1;
    }
    assert durations[..j] == durations;
    r := Ok(sum);
  }

  /** A failed sum over the durations of a prefix of the ids fails the sum over all of them. */
  lemma FoundFailurePersists(ids: seq<string>, k: nat, durations: map<string, string>)
    requires k <= |ids| && SumMinutes(Found(ids[..k], durations)).Err?
    ensures SumMinutes(Found(ids, durations)) == SumMinutes(Found(ids[..k], durations))
  {
    assert ids == ids[..k] + ids[k..];
    FoundAppend(ids[..k], ids[k..], durations);
    SumMinutesAppend(Found(ids[..k], durations), Found(ids[k..], durations));
  }

  /** The running total after one more batch: the sum over the ids covered so far, or the failure of the whole sum. */
  lemma BatchSum(ids: seq<string>, b: nat, durations: map<string, string>, total: nat, summed: Result<nat>)
    requires b < BatchCount(|ids|)
    requires SumMinutes(Found(ids[..Min(BatchSize * b, |ids|)], durations)) == Ok(total)
    requires summed == SumMinutes(Found(Batch(ids, b), durations))
    ensures summed.Ok? ==> SumMinutes(Found(ids[..Min(BatchSize * (b + 1), |ids|)], durations)) == Ok(total + summed.value)
    ensures summed.Err? ==> SumMinutes(Found(ids, durations)) == summed
    ensures BatchesFrom(ids, durations, b) == if summed.Err? then b + 1 else BatchesFrom(ids, durations, b + 1)
  {
    BatchStep(ids, b, durations);
    SumMinutesAppend(Found(ids[..BatchSize * b], durations), Found(Batch(ids, b), durations));
    if summed.Err? {
      FoundFailurePersists(ids, Min(BatchSize * (b + 1), |ids|), durations);
    }
  }

  /** While the sum over the covered ids holds, every batch so far was summed and the loop requests the same batches from here as from the start. */
  lemma {:induction false} BatchesFromPrefix(ids: seq<string>, durations: map<string, string>, b: nat)
    requires b <= BatchCount(|ids|)
    requires SumMinutes(Found(ids[..Min(BatchSize * b, |ids|)], durations)).Ok?
    ensures BatchesFrom(ids, durations, 0) == BatchesFrom(ids, durations, b)
    decreases b
  {
    if b > 0 {
      var k := b - 1;
      var batch := Found(Batch(ids, k), durations);
      BatchStep(ids, k, durations);
      SumMinutesAppend(Found(ids[..BatchSize * k], durations), batch);
      assert SumMinutes(batch).Ok?;
      assert Min(BatchSize * k, |ids|) == BatchSize * k;
      BatchesFromPrefix(ids, durations, k);
      assert BatchesFrom(ids, durations, k) == BatchesAt(ids, durations, k) == BatchesFrom(ids, durations, b);
    }
  }

  /** A fetch that yields counts has requested every page and every batch, each once and in order. */
  lemma FetchedRequestsEverything(pages: seq<Page>, durations: map<string, string>, videosFault: Option<string>)
    requires FetchPlaylist(pages, durations, videosFault).Ok?
    ensures FetchCalls(pages, durations, videosFault) == ListingCalls(|pages|) + VideoCalls(PlaylistIds(pages).value)
  {
    var ids := PlaylistIds(pages).value;
    if ids != [] {
      assert ids[..Min(BatchSize * BatchCount(|ids|), |ids|)] == ids;
      BatchesFromPrefix(ids, durations, BatchCount(|ids|));
    }
  }

  /** One pass of the batch loop: the request for the b-th batch and the minutes of the durations it returns. */
  method FetchBatch(yt: YouTube, ids: seq<string>, b: nat) returns (summed: Result<nat>)
    requires b < BatchCount(|ids|)
    modifies yt
    ensures yt.calls == old(yt.calls) + [VideosCall(Batch(ids, b))]
    ensures summed == if yt.videosFault.Some? then Err(yt.videosFault.value)
                      else SumMinutes(Found(Batch(ids, b), yt.durations))
  {
    var batch := ids[BatchSize * b..Min(BatchSize * b + BatchSize, |ids|)];
    var response := yt.ListVideos(batch);
    if response.Err? {
      return Err(response.error);
    }
    summed := SumDurations(response.value);
  }

  /** The batch loop: the durations of the ids requested 50 at a time, their minutes added up. */
  method SumBatchMinutes(yt: YouTube, ids: seq<string>) returns (r: Result<nat>)
    modifies yt
    ensures r == if yt.videosFault.Some? && ids != [] then Err(yt.videosFault.value)
                 else SumMinutes(Found(ids, yt.durations))
    ensures yt.calls == old(yt.calls) + BatchCalls(ids, BatchesRead(ids, yt.durations, yt.videosFault))
    ensures r.Ok? ==> BatchesRead(ids, yt.durations, yt.videosFault) == BatchCount(|ids|)
  {
    var total: nat := 0;
    var b := 0;
    while b < BatchCount(|ids|)
      invariant b <= BatchCount(|ids|)
      invariant b > 0 ==> yt.videosFault.None?
      invariant SumMinutes(Found(ids[..Min(BatchSize * b, |ids|)], yt.durations)) == Ok(total)
      invariant yt.calls == old(yt.calls) + BatchCalls(ids, b)
    {
      BatchCallsStep(ids, b);
      var summed := FetchBatch(yt, ids, b);
      if yt.videosFault.Some? {
        return summed;
      }
      BatchSum(ids, b, yt.durations, total, summed);
      if summed.Err? {
        BatchesFromPrefix(ids, yt.durations, b);
        return summed;
      }
      total := total + summed.value;
      b := b + 1;
    }
    assert ids[..Min(BatchSize * b, |ids|)] == ids;
    BatchesFromPrefix(ids, yt.durations, b);
    r := Ok(total);
  }

  /** get_data: the counts, or the failure it reports in the status document. */
  method GetData(db: Firestore, yt: YouTube, now: string) returns (fetched: Result<Counts>)
    modifies db, yt
    ensures fetched == FetchPlaylist(yt.pages, yt.durations, yt.videosFault)
    ensures db.playlistData == old(db.playlistData)
    ensures db.status == if fetched.Ok? then old(db.status)
              else StatusAfter(old(db.status), db.statusWriteFault, FinalResult, FetchErrorMessage(fetched.error), false, now)
    ensures yt.calls == old(yt.calls) + FetchCalls(yt.pages, yt.durations, yt.videosFault)
    ensures fetched.Ok? ==> FetchCalls(yt.pages, yt.durations, yt.videosFault)
                            == ListingCalls(|yt.pages|) + VideoCalls(PlaylistIds(yt.pages).value)
  {
    var listed := ListVideoIds(yt);
    if listed.Err? {
      assert FetchCalls(yt.pages, yt.durations, yt.videosFault) == ListingCalls(PagesRead(yt.pages)) + [];
      UploadStatus(db, FinalResult, FetchErrorMessage(listed.error), false, now);
      return Err(listed.error);
    }
    var ids := listed.value;
    assert FetchCalls(yt.pages, yt.durations, yt.videosFault)
        == ListingCalls(|yt.pages|) + BatchCalls(ids, BatchesRead(ids, yt.durations, yt.videosFault));
    var videoCount := |ids|;
    var totalMinutes := 0;
    if ids != [] {
      var summed := SumBatchMinutes(yt, ids);
      if summed.Err? {
        UploadStatus(db, FinalResult, FetchErrorMessage(summed.error), false, now);
        return Err(summed.error);
      }
      totalMinutes := summed.value;
    }
    fetched := Ok(Counts(videoCount, totalMinutes));
    FetchedRequestsEverything(yt.pages, yt.durations, yt.videosFault);
  }

  // ---------------------------------------------------------------------------
  // collect_and_save

  /** How a run ended. Only Saved makes collect_and_save return a (truthy) message. */
  datatype RunOutcome =
    | AlreadyRecorded
    | CheckError(reason: string)
    | AuthError(reason: string)
    | FetchError(reason: string)
    | NoVideos
    | UploadError(reason: string)
    | Saved(counts: Counts)

  /** The outcome a run must reach, from what the store and the platform do. */
  function ExpectedRun(dayExists: Result<bool>, buildFault: Option<string>, fetched: Result<Counts>, writeFault: Option<string>): RunOutcome
  {
    match dayExists
    case Err(e) => CheckError(e)
    case Ok(true) => AlreadyRecorded
    case Ok(false) => ExpectedFetch(buildFault, fetched, writeFault)
  }

  /** The outcome of a run once the check has found no point for today. */
  function ExpectedFetch(buildFault: Option<string>, fetched: Result<Counts>, writeFault: Option<string>): RunOutcome
  {
    if buildFault.Some? then AuthError(buildFault.value) else ExpectedGet(fetched, writeFault)
  }

  /** The outcome once the client is built: a failed fetch stops the run, otherwise the counts are saved. */
  function ExpectedGet(fetched: Result<Counts>, writeFault: Option<string>): RunOutcome
  {
    match fetched
    case Err(e) => FetchError(e)
    case Ok(counts) => ExpectedSave(counts, writeFault)
  }

  /** The outcome once the counts are fetched: an empty playlist stops the run, otherwise the write decides. */
  function ExpectedSave(counts: Counts, writeFault: Option<string>): RunOutcome
  {
    if counts.videoCount == 0 then NoVideos
    else if writeFault.Some? then UploadError(writeFault.value)
    else Saved(counts)
  }

  /** The final_result text and success flag a run writes, if it writes one: an empty playlist and a failed data write end the run without a status. */
  function ReportedStatus(o: RunOutcome, today: string): Option<(string, bool)>
  {
    match o
    case AlreadyRecorded => Some((AlreadySavedMessage(today), true))
    case CheckError(e) => Some((CheckErrorMessage(e), false))
    case AuthError(e) => Some((AuthErrorMessage(e), false))
    case FetchError(e) => Some((FetchErrorMessage(e), false))
    case NoVideos => None
    case UploadError(_) => None
    case Saved(_) => Some((SavedMessage(today), true))
  }

  /** playlist_data after a run: today's document merged with the counts when the run saved, unchanged otherwise. */
  function DataAfterRun(data: map<string, Document>, o: RunOutcome, today: string): map<string, Document>
  {
    if o.Saved? then data[today := Merge(DocumentAt(data, today), DataFields(o.counts.videoCount, o.counts.totalMinutes))]
    else data
  }

  /** The status document after a run: the reported outcome written, if any. */
  function StatusAfterRun(status: Document, fault: Option<string>, o: RunOutcome, today: string, now: string): Document
  {
    match ReportedStatus(o, today)
    case None => status
    case Some(report) => StatusAfter(status, fault, FinalResult, report.0, report.1, now)
  }

  /** The run after check_data found no point for today: authenticate, fetch, write. */
  method FetchAndSave(db: Firestore, yt: YouTube, today: string, now: string) returns (outcome: RunOutcome)
    modifies db, yt
    ensures outcome == ExpectedFetch(yt.buildFault, FetchPlaylist(yt.pages, yt.durations, yt.videosFault), db.dataWriteFault)
    ensures outcome.AuthError? ==> yt.calls == old(yt.calls) + [BuildCall]
    ensures !outcome.AuthError? ==> yt.calls == old(yt.calls) + [BuildCall] + FetchCalls(yt.pages, yt.durations, yt.videosFault)
    ensures db.playlistData == DataAfterRun(old(db.playlistData), outcome, today)
    ensures db.status == StatusAfterRun(old(db.status), db.statusWriteFault, outcome, today, now)
  {
    var authenticated := AuthenticateYouTube(db, yt, now);
    if !authenticated {
      return AuthError(yt.buildFault.value);
    }
    outcome := GetAndSave(db, yt, today, now);
  }

  /** The run once the client is built: fetch, then write. */
  method GetAndSave(db: Firestore, yt: YouTube, today: string, now: string) returns (outcome: RunOutcome)
    modifies db, yt
    ensures outcome == ExpectedGet(FetchPlaylist(yt.pages, yt.durations, yt.videosFault), db.dataWriteFault)
    ensures yt.calls == old(yt.calls) + FetchCalls(yt.pages, yt.durations, yt.videosFault)
    ensures db.playlistData == DataAfterRun(old(db.playlistData), outcome, today)
    ensures db.status == StatusAfterRun(old(db.status), db.statusWriteFault, outcome, today, now)
  {
    var fetched := GetData(db, yt, now);
    if fetched.Err? {
      return FetchError(fetched.error);
    }
    outcome := SaveCounts(db, today, fetched.value, now);
  }

  /** The end of collect_and_save: stop on an empty playlist, write the point, report it. */
  method SaveCounts(db: Firestore, today: string, counts: Counts, now: string) returns (outcome: RunOutcome)
    modifies db
    ensures outcome == ExpectedSave(counts, db.dataWriteFault)
    ensures db.playlistData == DataAfterRun(old(db.playlistData), outcome, today)
    ensures db.status == StatusAfterRun(old(db.status), db.statusWriteFault, outcome, today, now)
  {
    if counts.videoCount == 0 {
      return NoVideos;
    }
    var saved := UploadData(db, today, counts.videoCount, counts.totalMinutes);
    if saved.None? {
      return UploadError(db.dataWriteFault.value);
    }
    UploadStatus(db, FinalResult, saved.value, true, now);
    outcome := Saved(counts);
  }

  method CollectAndSave(db: Firestore, yt: YouTube, today: string, now: string) returns (outcome: RunOutcome)
    modifies db, yt
    ensures outcome == ExpectedRun(if db.readFault.Some? then Err(db.readFault.value) else Ok(today in old(db.playlistData)),
                                   yt.buildFault, FetchPlaylist(yt.pages, yt.durations, yt.videosFault), db.dataWriteFault)
    ensures outcome.AlreadyRecorded? || outcome.CheckError? ==> yt.calls == old(yt.calls)
    ensures outcome.AuthError? ==> yt.calls == old(yt.calls) + [BuildCall]
    ensures outcome.FetchError? || outcome.NoVideos? || outcome.UploadError? || outcome.Saved? ==>
              yt.calls == old(yt.calls) + [BuildCall] + FetchCalls(yt.pages, yt.durations, yt.videosFault)
    ensures db.playlistData == DataAfterRun(old(db.playlistData), outcome, today)
    ensures db.status == StatusAfterRun(old(db.status), db.statusWriteFault, outcome, today, now)
  {
    var checked := CheckData(db, today, now);
    if checked.AlreadySaved? {
      return AlreadyRecorded;
    } else if checked.CheckFailed? {
      return CheckError(checked.reason);
    }
    outcome := FetchAndSave(db, yt, today, now);
  }

  /** Two runs on the same day: once the first has saved, the second stops at the check, writes nothing to playlist_data and makes no request to the platform. */
  method RunTwice(db: Firestore, yt: YouTube, today: string, now: string, later: string)
    returns (first: RunOutcome, second: RunOutcome, ghost dataAfterFirst: map<string, Document>, ghost callsAfterFirst: seq<Call>)
    modifies db, yt
    ensures first.Saved? && db.readFault.None? ==>
              && second == AlreadyRecorded
              && today in db.playlistData
              && db.playlistData == dataAfterFirst
              && yt.calls == callsAfterFirst
  {
    first := CollectAndSave(db, yt, today, now);
    dataAfterFirst, callsAfterFirst := db.playlistData, yt.calls;
    second := CollectAndSave(db, yt, today, later);
  }
}

/**
 * The video platform as the ingestion job uses it: building the client, listing the
 * playlist page by page, and asking for the durations of up to 50 videos at a time.
 * The playlist is given as the pages the listing returns; a page that raises stands
 * for a failed request. Every request made is recorded in `calls`.
 */
module Source {
  import opened Basics

  /** One response of `playlistItems().list` / `list_next`: the video ids on it, or the exception it raised. */
  datatype Page = Page(videoIds: seq<string>) | PageError(reason: string)

  datatype Call = BuildCall | PlaylistItemsCall(page: nat) | VideosCall(ids: seq<string>)

  /** The `contentDetails.duration` strings `videos().list` returns for some ids: one per id it knows, in request order. */
  function Found(ids: seq<string>, durations: map<string, string>): seq<string>
  {
    if ids == [] then []
    else Found(ids[..|ids| - 1], durations)
         + (if ids[|ids| - 1] in durations then [durations[ids[|ids| - 1]]] else [])
  }

  /** Looking up two runs of ids is looking up their concatenation. */
  lemma {:induction false} FoundAppend(a: seq<string>, b: seq<string>, durations: map<string, string>)
    ensures Found(a + b, durations) == Found(a, durations) + Found(b, durations)
    decreases |b|
  {
    if b == [] {
      assert a + b == a;
    } else {
      var b' := b[..|b| - 1];
      assert (a + b)[..|a + b| - 1] == a + b';
      FoundAppend(a, b', durations);
    }
  }

  class YouTube {
    /** The exception `build(...)` raises, if any. */
    const buildFault: Option<string>
    /** The responses of the playlist listing, in the order list/list_next return them. */
    const pages: seq<Page>
    /** The duration of every video the platform knows. */
    const durations: map<string, string>
    /** The exception `videos().list(...).execute()` raises, if any. */
    const videosFault: Option<string>
    /** Every request made so far. */
    var calls: seq<Call>

    /** The listing always executes its first request, so there is at least one response. */
    constructor (buildFault: Option<string>, pages: seq<Page>, durations: map<string, string>, videosFault: Option<string>)
      requires pages != []
      ensures this.buildFault == buildFault && this.pages == pages
      ensures this.durations == durations && this.videosFault == videosFault
      ensures calls == []
    {
      this.buildFault := buildFault;
      this.pages := pages;
      this.durations := durations;
      this.videosFault := videosFault;
      calls := [];
    }

    /** `build("youtube", "v3", developerKey=...)` */
    method Build() returns (r: Outcome)
      modifies this
      ensures calls == old(calls) + [BuildCall]
      ensures r == if buildFault.Some? then Fail(buildFault.value) else Pass
    {
      calls := calls + [BuildCall];
      r := if buildFault.Some? then Fail(buildFault.value) else Pass;
    }

    /** `request.execute()` for the page-th listing request, returning the video ids on that page. */
    method ListPlaylistItems(page: nat) returns (r: Result<seq<string>>)
      requires page < |pages|
      modifies this
      ensures calls == old(calls) + [PlaylistItemsCall(page)]
      ensures r == match pages[page]
                   case Page(ids) => Ok(ids)
                   case PageError(e) => Err(e)
    {
      calls := calls + [PlaylistItemsCall(page)];
      match pages[page]
      case Page(ids) => r := Ok(ids);
      case PageError(e) => r := Err(e);
    }

    /** `videos().list(part="contentDetails", id=",".join(ids)).execute()`, returning the durations of the items. */
    method ListVideos(ids: seq<string>) returns (r: Result<seq<string>>)
      modifies this
      ensures calls == old(calls) + [VideosCall(ids)]
      ensures r == if videosFault.Some? then Err(videosFault.value) else Ok(Found(ids, durations))
    {
      calls := calls + [VideosCall(ids)];
      r := if videosFault.Some? then Err(videosFault.value) else Ok(Found(ids, durations));
    }
  }
}

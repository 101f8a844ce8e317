/** The video-list hook: three list fetches that share one `creator`
    normalisation and one loading/error lifecycle, and the upload that
    builds a new video record. */
module VideoData {
  import opened Common

  /** The joined `profiles` row of a video's owner. */
  datatype Profile = Profile(username: Option<string>, displayName: Option<string>)

  /** A row of `videos` with its joined profile (`VideoData` plus the join). */
  datatype Video = Video(
    id: string,
    title: string,
    description: Option<string>,
    videoUrl: string,
    thumbnailUrl: Option<string>,
    userId: string,
    creator: Option<string>,
    likeCount: Option<int>,
    commentCount: Option<int>,
    viewCount: Option<int>,
    category: Option<string>,
    tags: Option<seq<string>>,
    createdAt: string,
    isTrending: Option<bool>,
    isFeatured: Option<bool>,
    profiles: Option<Profile>)

  /** Which list query a fetch sends; the store does the filtering,
      ordering and limiting. */
  datatype VideoQuery =
    | Recent(category: Option<string>)    // created_at descending, optionally one category
    | TrendingTop(limit: nat)             // is_trending, view_count descending
    | ByUser(userId: string)              // one owner, created_at descending

  /** The toasts the hook shows. */
  datatype Notice = LoadFailed(description: string) | UploadSucceeded | UploadFailed

  const VideosFailed: string := "Failed to load videos. Please try again."
  const TrendingFailed: string := "Failed to load trending videos. Please try again."
  const UserVideosFailed: string := "Failed to load user videos. Please try again."

  /** The category `fetchVideos` filters on: the one given, unless it is
      absent, empty or `All`. */
  function CategoryConstraint(category: Option<string>): (r: Option<string>)
    ensures r.Some? <==> Truthy(category) && category.value != "All"
    ensures r.Some? ==> r == category
  {
    if Truthy(category) && category.value != "All" then category else None
  }

  /** `profiles?.username || profiles?.display_name || 'Unknown'`. */
  function CreatorName(profile: Option<Profile>): (r: string)
    ensures r != ""
    ensures profile.Some? && Truthy(profile.value.username) ==> r == profile.value.username.value
    ensures profile.Some? && !Truthy(profile.value.username) && Truthy(profile.value.displayName) ==> r == profile.value.displayName.value
    ensures (profile.None? || (!Truthy(profile.value.username) && !Truthy(profile.value.displayName))) ==> r == "Unknown"
  {
    if profile.None? then "Unknown"
    else OrElse(profile.value.username, OrElse(profile.value.displayName, "Unknown"))
  }

  /** `{...video, creator}`: the row with its creator name set. */
  function WithCreator(v: Video): (r: Video)
    ensures r.(creator := v.creator) == v
    ensures r.creator == Some(CreatorName(v.profiles))
  {
    v.(creator := Some(CreatorName(v.profiles)))
  }

  /** The `map` over returned rows: same length and order, each row kept
      except that `creator` is set from its profile. */
  function FormatRows(rows: seq<Video>): (r: seq<Video>)
    ensures |r| == |rows|
    ensures forall i :: 0 <= i < |r| ==> r[i].(creator := rows[i].creator) == rows[i]
    ensures forall i :: 0 <= i < |r| ==> r[i].creator == Some(CreatorName(rows[i].profiles))
  {
    if rows == [] then [] else [WithCreator(rows[0])] + FormatRows(rows[1..])
  }

  /** `data?.map(...) || []`: no data gives no videos. */
  function FormatVideos(data: Option<seq<Video>>): (r: seq<Video>)
    ensures data.None? ==> r == []
    ensures data.Some? ==> r == FormatRows(data.value)
  {
    if data.Some? then FormatRows(data.value) else []
  }

  /** Formatting twice is formatting once: the creator depends only on the
      profile, which formatting keeps. */
  lemma {:induction false} FormatRowsIdempotent(rows: seq<Video>)
    ensures FormatRows(FormatRows(rows)) == FormatRows(rows)
  {
    var once := FormatRows(rows);
    var twice := FormatRows(once);
    assert forall i :: 0 <= i < |once| ==> once[i].profiles == rows[i].profiles by {
      forall i | 0 <= i < |once| ensures once[i].profiles == rows[i].profiles {
        assert once[i].(creator := rows[i].creator).profiles == rows[i].profiles;
      }
    }
    forall i | 0 <= i < |once| ensures twice[i] == once[i] {
      assert twice[i].(creator := once[i].creator) == once[i];
    }
  }

  class VideoStore {
    var videos: seq<Video>
    var loading: bool

    /** Every listed video has a creator name to show. */
    ghost predicate Valid()
      reads this
    {
      forall i :: 0 <= i < |videos| ==> Truthy(videos[i].creator)
    }

    constructor ()
      ensures Valid()
      ensures videos == [] && loading
    {
      videos := [];
      loading := true;
    }

    /** The shared lifecycle: on an error the list stays, on success it is
        the formatted rows and no toast; loading ends false either way.
        `failureText` is the fetch's own error description. */
    method Settle(response: Remote<Option<seq<Video>>>, failureText: string) returns (notice: Option<Notice>)
      requires Valid()
      modifies this
      ensures Valid()
      ensures !loading
      ensures response.Err? ==> videos == old(videos) && notice == Some(LoadFailed(failureText))
      ensures response.Ok? ==> videos == FormatVideos(response.value) && notice == None
    {
      loading := true;
      if response.Err? {
        notice := Some(LoadFailed(failureText));
      } else {
        videos := FormatVideos(response.value);
        notice := None;
      }
      loading := false;
    }

    /** `fetchVideos(category)`: the query sent and the outcome applied. */
    method FetchVideos(category: Option<string>, response: Remote<Option<seq<Video>>>) returns (query: VideoQuery, notice: Option<Notice>)
      requires Valid()
      modifies this
      ensures Valid()
      ensures query == Recent(CategoryConstraint(category))
      ensures !loading
      ensures response.Err? ==> videos == old(videos) && notice == Some(LoadFailed(VideosFailed))
      ensures response.Ok? ==> videos == FormatVideos(response.value) && notice == None
    {
      query := Recent(CategoryConstraint(category));
      notice := Settle(response, VideosFailed);
    }

    /** `fetchTrendingVideos()`. */
    method FetchTrendingVideos(response: Remote<Option<seq<Video>>>) returns (query: VideoQuery, notice: Option<Notice>)
      requires Valid()
      modifies this
      ensures Valid()
      ensures query == TrendingTop(20)
      ensures !loading
      ensures response.Err? ==> videos == old(videos) && notice == Some(LoadFailed(TrendingFailed))
      ensures response.Ok? ==> videos == FormatVideos(response.value) && notice == None
    {
      query := TrendingTop(20);
      notice := Settle(response, TrendingFailed);
    }

    /** `fetchUserVideos(userId)`. */
    method FetchUserVideos(userId: string, response: Remote<Option<seq<Video>>>) returns (query: VideoQuery, notice: Option<Notice>)
      requires Valid()
      modifies this
      ensures Valid()
      ensures query == ByUser(userId)
      ensures !loading
      ensures response.Err? ==> videos == old(videos) && notice == Some(LoadFailed(UserVideosFailed))
      ensures response.Ok? ==> videos == FormatVideos(response.value) && notice == None
    {
      query := ByUser(userId);
      notice := Settle(response, UserVideosFailed);
    }
  }

  /** A failed fetch after a successful one keeps the first list. */
  method FetchThenFail(category: Option<string>, rows: seq<Video>, message: string) returns (videos: seq<Video>, loading: bool)
    ensures videos == FormatRows(rows) && !loading
  {
    var store := new VideoStore();
    var query, notice := store.FetchVideos(category, Ok(Some(rows)));
    query, notice := store.FetchVideos(category, Err(message));
    videos, loading := store.videos, store.loading;
  }

  // ---------------------------------------------------------------------
  // uploadVideo

  /** The file handed to `uploadVideo`, by name. */
  datatype UploadFile = UploadFile(name: string)

  /** The row `uploadVideo` inserts into `videos`. */
  datatype NewVideo = NewVideo(
    userId: string,
    title: string,
    description: Option<string>,
    videoUrl: string,
    thumbnailUrl: string,
    category: string,
    tags: seq<string>,
    viewCount: int,
    likeCount: int,
    commentCount: int,
    isTrending: bool,
    isFeatured: bool)

  const PlaceholderThumbnail := "https://images.unsplash.com/photo-1493225457124-a3eb161ffa5f?w=400&h=600&fit=crop"

  /** The storage key `userId/now-fileName`. */
  function VideoUploadPath(userId: string, now: nat, fileName: string): string
  {
    userId + "/" + NatToString(now) + "-" + fileName
  }

  /** The key reads back into the user, the timestamp and the whole file
      name, whatever `-` or `/` the name holds. */
  lemma VideoUploadPathRoundTrip(userId: string, now: nat, fileName: string)
    requires '/' !in userId
    ensures ParseOwnedKey(VideoUploadPath(userId, now, fileName), '-') == Some((userId, now, fileName))
  {
    assert VideoUploadPath(userId, now, fileName) == OwnedKey(userId, now, '-', fileName);
    OwnedKeyRoundTrip(userId, now, '-', fileName);
  }

  /** The inserted record: trimmed text, the given or default category and
      tags, zero counters and neither trending nor featured. */
  function NewVideoRecord(userId: string, title: string, description: Option<string>, videoUrl: string,
                          category: Option<string>, tags: Option<seq<string>>): (r: NewVideo)
    ensures r.userId == userId && r.videoUrl == videoUrl && r.thumbnailUrl == PlaceholderThumbnail
    ensures r.title == Trim(title) && Trim(r.title) == r.title
    ensures r.description == (if description.Some? then Some(Trim(description.value)) else None)
    ensures r.category != "" && (Truthy(category) ==> r.category == category.value)
    ensures !Truthy(category) ==> r.category == "General"
    ensures r.tags == (if tags.Some? then tags.value else [])
    ensures r.viewCount == 0 && r.likeCount == 0 && r.commentCount == 0
    ensures !r.isTrending && !r.isFeatured
  {
    TrimIdempotent(title);
    NewVideo(userId, Trim(title),
             if description.Some? then Some(Trim(description.value)) else None,
             videoUrl, PlaceholderThumbnail, OrElse(category, "General"),
             if tags.Some? then tags.value else [],
             0, 0, 0, false, false)
  }

  /** Why an upload failed. */
  datatype UploadError = NotLoggedIn | StorageFailed(message: string) | InsertFailed(message: string)

  /** What one `uploadVideo` call did: the storage key written, the row
      inserted, whether the owner's video count was incremented, the
      toast, and what the call returns or throws. */
  datatype UploadTrace = UploadTrace(
    storedAt: Option<string>,
    inserted: Option<NewVideo>,
    countIncremented: bool,
    notice: Option<Notice>,
    outcome: Result<Video, UploadError>)

  /** `uploadVideo`: `now` is `Date.now()`, `storageError` the storage
      upload's error, `publicUrl` what `getPublicUrl` gives for the key and
      `insert` the insert's returned row or error. */
  function UploadVideo(user: Option<User>, file: UploadFile, title: string, description: Option<string>,
                       category: Option<string>, tags: Option<seq<string>>, now: nat,
                       storageError: Option<string>, publicUrl: string, insert: Remote<Video>): (t: UploadTrace)
    ensures user.None? ==> t == UploadTrace(None, None, false, None, Err(NotLoggedIn))
    ensures user.Some? ==> t.storedAt == Some(VideoUploadPath(user.value.id, now, file.name))
    ensures user.Some? && storageError.Some? ==>
      t.inserted.None? && !t.countIncremented && t.outcome == Err(StorageFailed(storageError.value))
    ensures user.Some? && storageError.None? ==>
      t.inserted == Some(NewVideoRecord(user.value.id, title, description, publicUrl, category, tags))
    ensures t.outcome.Ok? <==> user.Some? && storageError.None? && insert.Ok?
    ensures t.outcome.Ok? ==> t.outcome.value == insert.value && t.countIncremented && t.notice == Some(UploadSucceeded)
    ensures user.Some? && storageError.None? && insert.Err? ==>
      !t.countIncremented && t.outcome == Err(InsertFailed(insert.error))
    ensures user.Some? && t.outcome.Err? ==> t.notice == Some(UploadFailed)
  {
    if user.None? then UploadTrace(None, None, false, None, Err(NotLoggedIn))
    else
      var key := VideoUploadPath(user.value.id, now, file.name);
      if storageError.Some? then
        UploadTrace(Some(key), None, false, Some(UploadFailed), Err(StorageFailed(storageError.value)))
      else
        var record := NewVideoRecord(user.value.id, title, description, publicUrl, category, tags);
        if insert.Err? then
          UploadTrace(Some(key), Some(record), false, Some(UploadFailed), Err(InsertFailed(insert.error)))
        else
          UploadTrace(Some(key), Some(record), true, Some(UploadSucceeded), Ok(insert.value))
  }
}

/** The full-screen player of one video: play state, the like toggle with
    its remote like row, the view-count write, and the bookmark toggle. */
module VideoPlayer {
  import opened Common

  /** The `video` prop, the fields the handlers read. */
  datatype VideoProps = VideoProps(id: string, likeCount: Option<int>, commentCount: Option<int>, viewCount: Option<int>)

  /** The change to the `video_likes` table a like click asks for. */
  datatype LikeRequest = InsertLike(userId: string, videoId: string) | DeleteLike(userId: string, videoId: string)

  /** The counter procedure called after the table change succeeds. */
  datatype CounterCall = IncrementLikeCount(videoId: string) | DecrementLikeCount(videoId: string)

  /** `update({view_count}).eq('id', videoId)` on `videos`. */
  datatype ViewUpdate = ViewUpdate(videoId: string, viewCount: int)

  /** `useState(video.like_count || 0)`. */
  function InitialLikeCount(video: VideoProps): (r: int)
    ensures video.likeCount.None? ==> r == 0
    ensures video.likeCount.Some? ==> r == video.likeCount.value
  {
    CountOrZero(video.likeCount)
  }

  /** The view count a view writes: the prop's count (or 0) plus one. */
  function ViewCountWritten(video: VideoProps): (r: int)
    ensures video.viewCount.None? ==> r == 1
    ensures video.viewCount.Some? ==> r == video.viewCount.value + 1
  {
    CountOrZero(video.viewCount) + 1
  }

  class Player {
    const video: VideoProps
    var isPlaying: bool
    var liked: bool
    var bookmarked: bool
    var likeCount: int

    /** The shown count is the prop's count, plus one while this player
        holds a like. */
    ghost predicate Valid()
      reads this
    {
      likeCount == InitialLikeCount(video) + (if liked then 1 else 0)
    }

    constructor (video: VideoProps)
      ensures Valid()
      ensures this.video == video
      ensures !isPlaying && !liked && !bookmarked && likeCount == InitialLikeCount(video)
    {
      this.video := video;
      isPlaying := false;
      liked := false;
      bookmarked := false;
      likeCount := InitialLikeCount(video);
    }

    /** `handleLike`: `failed` is whether the insert or delete reported an
        error. Returns the table change asked for and the counter procedure
        called; `loginRequired` is the toast shown without a user. */
    method Like(user: Option<User>, failed: bool) returns (request: Option<LikeRequest>, counter: Option<CounterCall>, loginRequired: bool)
      requires Valid()
      modifies this
      ensures Valid()
      ensures loginRequired <==> user.None?
      ensures user.None? ==> request.None? && counter.None? && unchanged(this)
      ensures user.Some? ==> request == Some(if old(liked) then DeleteLike(user.value.id, video.id) else InsertLike(user.value.id, video.id))
      ensures user.Some? && !failed ==>
        && liked == !old(liked)
        && likeCount == (if old(liked) then old(likeCount) - 1 else old(likeCount) + 1)
        && counter == Some(if old(liked) then DecrementLikeCount(video.id) else IncrementLikeCount(video.id))
      ensures (user.None? || failed) ==> liked == old(liked) && likeCount == old(likeCount) && counter.None?
      ensures isPlaying == old(isPlaying) && bookmarked == old(bookmarked)
    {
      if user.None? {
        return None, None, true;
      }
      loginRequired := false;
      counter := None;
      if liked {
        request := Some(DeleteLike(user.value.id, video.id));
        if !failed {
          liked := false;
          likeCount := likeCount - 1;
          counter := Some(DecrementLikeCount(video.id));
        }
      } else {
        request := Some(InsertLike(user.value.id, video.id));
        if !failed {
          liked := true;
          likeCount := likeCount + 1;
          counter := Some(IncrementLikeCount(video.id));
        }
      }
    }

    /** The effect on `isActive`: `hasElement` is whether the `<video>`
        element is mounted. Returns the view-count write, if any. */
    method SetActive(isActive: bool, hasElement: bool, user: Option<User>) returns (view: Option<ViewUpdate>)
      modifies this
      ensures isPlaying == (if hasElement then isActive else old(isPlaying))
      ensures view == (if isActive && hasElement && user.Some? then Some(ViewUpdate(video.id, ViewCountWritten(video))) else None)
      ensures liked == old(liked) && likeCount == old(likeCount) && bookmarked == old(bookmarked)
    {
      view := None;
      if isActive && hasElement {
        isPlaying := true;
        if user.Some? {
          view := Some(ViewUpdate(video.id, ViewCountWritten(video)));
        }
      } else if !isActive && hasElement {
        isPlaying := false;
      }
    }

    /** `togglePlay`, the click on the video. */
    method TogglePlay(hasElement: bool)
      modifies this
      ensures isPlaying == (if hasElement then !old(isPlaying) else old(isPlaying))
      ensures liked == old(liked) && likeCount == old(likeCount) && bookmarked == old(bookmarked)
    {
      if hasElement {
        isPlaying := !isPlaying;
      }
    }

    /** The bookmark button. */
    method ToggleBookmark()
      modifies this
      ensures bookmarked == !old(bookmarked)
      ensures isPlaying == old(isPlaying) && liked == old(liked) && likeCount == old(likeCount)
    {
      bookmarked := !bookmarked;
    }
  }

  /** On a fresh player, a like then an unlike that both succeed give back
      the starting count, unliked. */
  method LikeThenUnlike(video: VideoProps, user: User) returns (liked: bool, likeCount: int)
    ensures !liked && likeCount == InitialLikeCount(video)
  {
    var p := new Player(video);
    var request, counter, loginRequired := p.Like(Some(user), false);
    request, counter, loginRequired := p.Like(Some(user), false);
    liked, likeCount := p.liked, p.likeCount;
  }

  /** Like, unlike, like: liked, one above the starting count. */
  method LikeUnlikeLike(video: VideoProps, user: User) returns (liked: bool, likeCount: int)
    ensures liked && likeCount == InitialLikeCount(video) + 1
  {
    var p := new Player(video);
    var request, counter, loginRequired := p.Like(Some(user), false);
    request, counter, loginRequired := p.Like(Some(user), false);
    request, counter, loginRequired := p.Like(Some(user), false);
    liked, likeCount := p.liked, p.likeCount;
  }

  /** Becoming active, inactive and active again writes the same view count
      twice: it is computed from the prop, not from earlier writes. */
  method ActivateTwice(video: VideoProps, user: User) returns (first: Option<ViewUpdate>, second: Option<ViewUpdate>)
    ensures first == second == Some(ViewUpdate(video.id, CountOrZero(video.viewCount) + 1))
  {
    var p := new Player(video);
    first := p.SetActive(true, true, Some(user));
    var none := p.SetActive(false, true, Some(user));
    second := p.SetActive(true, true, Some(user));
  }
}

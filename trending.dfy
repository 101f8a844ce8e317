/** The trending page: one fetch of the top videos, whose failure empties
    the list, and the ranked rows it renders with their display fallbacks. */
module Trending {
  import opened Common

  /** The joined `profiles(username)` of a row. */
  datatype Owner = Owner(username: Option<string>)

  /** A row of the trending query. */
  datatype TrendingRow = TrendingRow(
    id: string,
    title: string,
    duration: Option<string>,
    thumbnailUrl: Option<string>,
    likeCount: Option<int>,
    viewCount: Option<int>,
    profiles: Option<Owner>,
    createdAt: string)

  /** What one card shows. */
  datatype RowView = RowView(rank: nat, title: string, thumbnail: string, duration: string, username: string, views: int, likes: int)

  /** The query sent: the columns ordered by, most significant first, all
      descending, and the row limit. */
  datatype TrendingQuery = TrendingQuery(orderBy: seq<string>, limit: nat)

  /** The three states of the page body. */
  datatype Screen = LoadingScreen | ErrorScreen(message: string) | ListScreen(rows: seq<RowView>)

  const PlaceholderThumbnail: string := "https://images.unsplash.com/photo-1493225457124-a3eb161ffa5f?w=400&h=600&fit=crop"
  const UnknownDuration: string := "--:--"
  const UnknownUser: string := "unknown"
  const FetchFailed: string := "Failed to fetch trending videos"
  const TopQuery: TrendingQuery := TrendingQuery(["like_count", "view_count"], 100)

  /** The username shown after `@`: the joined profile's when it has a
      non-empty one, "unknown" otherwise. */
  function ShownUsername(row: TrendingRow): (r: string)
    ensures r != ""
    ensures row.profiles.Some? && Truthy(row.profiles.value.username) ==> r == row.profiles.value.username.value
    ensures (row.profiles.None? || !Truthy(row.profiles.value.username)) ==> r == UnknownUser
  {
    if row.profiles.Some? then OrElse(row.profiles.value.username, UnknownUser) else UnknownUser
  }

  /** The card of the row at `index` of the list: ranked `index + 1`, each
      missing or empty field replaced by its fallback, counts defaulting
      to 0. */
  function DisplayRow(row: TrendingRow, index: nat): (v: RowView)
    ensures v.rank == index + 1 && v.title == row.title
    ensures v.thumbnail != "" && v.duration != "" && v.username != ""
    ensures v.thumbnail == (if Truthy(row.thumbnailUrl) then row.thumbnailUrl.value else PlaceholderThumbnail)
    ensures v.duration == (if Truthy(row.duration) then row.duration.value else UnknownDuration)
    ensures row.viewCount.None? ==> v.views == 0
    ensures row.viewCount.Some? ==> v.views == row.viewCount.value
    ensures row.likeCount.None? ==> v.likes == 0
    ensures row.likeCount.Some? ==> v.likes == row.likeCount.value
  {
    RowView(index + 1, row.title, OrElse(row.thumbnailUrl, PlaceholderThumbnail), OrElse(row.duration, UnknownDuration),
            ShownUsername(row), CountOrZero(row.viewCount), CountOrZero(row.likeCount))
  }

  /** The list's `map((video, index) => …)`: one card per row, in order,
      ranked 1, 2, …, n. */
  function RowViews(rows: seq<TrendingRow>): (r: seq<RowView>)
    ensures |r| == |rows|
    ensures forall i :: 0 <= i < |rows| ==> r[i] == DisplayRow(rows[i], i)
    ensures forall i :: 0 <= i < |r| ==> r[i].rank == i + 1
  {
    seq(|rows|, i requires 0 <= i < |rows| => DisplayRow(rows[i], i))
  }

  class TrendingPage {
    var trendingVideos: seq<TrendingRow>
    var loading: bool
    var error: Option<string>

    /** An error is only ever the fetch failure, and it comes with an empty
        list. */
    ghost predicate Valid()
      reads this
    {
      error.Some? ==> error.value == FetchFailed && trendingVideos == []
    }

    /** The body the page renders: loading first, then the error, then
        the list. */
    function Screen(): (s: Screen)
      reads this
      ensures s.LoadingScreen? <==> loading
      ensures s.ErrorScreen? <==> !loading && error.Some?
      ensures s.ListScreen? <==> !loading && error.None?
      ensures s.ListScreen? ==> s.rows == RowViews(trendingVideos)
    {
      if loading then LoadingScreen
      else if error.Some? then ErrorScreen(error.value)
      else ListScreen(RowViews(trendingVideos))
    }

    constructor ()
      ensures Valid()
      ensures trendingVideos == [] && loading && error == None
    {
      trendingVideos := [];
      loading := true;
      error := None;
    }

    /** The start of `fetchTrending`, before the query resolves. */
    method BeginFetch()
      requires Valid()
      modifies this
      ensures Valid()
      ensures loading && error == None && trendingVideos == old(trendingVideos)
    {
      loading := true;
      error := None;
    }

    /** The end of `fetchTrending`: `response` is the query's data (null
        or the rows) or its error. It runs on the state `BeginFetch`
        leaves. */
    method CompleteFetch(response: Remote<Option<seq<TrendingRow>>>)
      requires Valid()
      requires loading && error == None
      modifies this
      ensures Valid()
      ensures !loading
      ensures response.Err? ==> error == Some(FetchFailed) && trendingVideos == []
      ensures response.Ok? ==> error == None
      ensures response.Ok? && response.value.Some? ==> trendingVideos == response.value.value
      ensures response.Ok? && response.value.None? ==> trendingVideos == []
    {
      if response.Err? {
        error := Some(FetchFailed);
        trendingVideos := [];
      } else {
        trendingVideos := if response.value.Some? then response.value.value else [];
      }
      loading := false;
    }

    /** `fetchTrending` as a whole. Returns the query sent. */
    method FetchTrending(response: Remote<Option<seq<TrendingRow>>>) returns (query: TrendingQuery)
      requires Valid()
      modifies this
      ensures Valid()
      ensures query == TopQuery
      ensures !loading
      ensures response.Err? ==> error == Some(FetchFailed) && trendingVideos == []
      ensures response.Ok? ==> error == None
      ensures response.Ok? && response.value.Some? ==> trendingVideos == response.value.value
      ensures response.Ok? && response.value.None? ==> trendingVideos == []
    {
      query := TopQuery;
      BeginFetch();
      CompleteFetch(response);
    }
  }

  /** What a freshly mounted page shows once its fetch resolves: the
      failure message, or one card per returned row ranked from 1. */
  method Mount(response: Remote<Option<seq<TrendingRow>>>) returns (before: Screen, after: Screen)
    ensures before == LoadingScreen
    ensures response.Err? ==> after == ErrorScreen(FetchFailed)
    ensures response.Ok? && response.value.None? ==> after == ListScreen([])
    ensures response.Ok? && response.value.Some? ==>
      && after.ListScreen?
      && |after.rows| == |response.value.value|
      && forall i :: 0 <= i < |after.rows| ==> after.rows[i] == DisplayRow(response.value.value[i], i)
  {
    var page := new TrendingPage();
    before := page.Screen();
    var query := page.FetchTrending(response);
    after := page.Screen();
  }
}

/** The records the providers exchange: a search request and a resolved song. */
module Common {

  datatype Option<T> = None | Some(value: T)

  /** How a provider should order its candidates. `OtherOrder` stands for any
      value of the ordering type other than the two named ones. */
  datatype OrderBy = PlatformDefault | MatchedScoreDesc | OtherOrder(code: int)

  /** A search request: free-text keyword, wanted song and artist names, the
      ordering mode and the result cap (0 or less means no cap). */
  datatype SearchSong = SearchSong(
    keyword: string,
    name: string,
    artistsName: string,
    orderBy: OrderBy,
    limit: int,
    quality: string)

  /** A candidate track as the providers return it. The per-backend identity
      map holds string values only (the keys the providers store are strings). */
  datatype Song = Song(
    id: string,
    size: int,
    br: int,
    url: string,
    name: string,
    artist: string,
    albumName: string,
    duration: int,
    source: string,
    platformUniqueKey: map<string, string>,
    matchScore: real)

  /** The zero value of a song: what a provider returns when nothing matched. */
  const EmptySong := Song("", 0, 0, "", "", "", "", 0, "", map[], 0.0)

  /** The sort key of candidate lists: the match score. */
  function ScoreOf(s: Song): real
  {
    s.matchScore
  }
}

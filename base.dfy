/** The provider-independent steps of a search: normalising the request,
    scoring one candidate against it, and ordering and capping the results
    (provider/base/base.go). */
module Base {
  import opened Common
  import opened Text
  import opened Sorting

  // ---------------------------------------------------------------------------
  // Normalising the request
  // ---------------------------------------------------------------------------

  /** PreSearchSong: the keyword, the song name and the artist name are
      upper-cased; nothing else in the request changes. */
  function PreSearchSong(q: SearchSong): (r: SearchSong)
    ensures UpperCased(q.keyword, r.keyword)
    ensures UpperCased(q.name, r.name)
    ensures UpperCased(q.artistsName, r.artistsName)
    ensures r.orderBy == q.orderBy && r.limit == q.limit && r.quality == q.quality
  {
    q.(keyword := ToUpper(q.keyword), name := ToUpper(q.name), artistsName := ToUpper(q.artistsName))
  }

  /** Normalising an already normalised request changes nothing. */
  lemma PreSearchSongIdempotent(q: SearchSong)
    ensures PreSearchSong(PreSearchSong(q)) == PreSearchSong(q)
  {
    ToUpperIdempotent(q.keyword);
    ToUpperIdempotent(q.name);
    ToUpperIdempotent(q.artistsName);
  }

  // ---------------------------------------------------------------------------
  // Scoring one candidate
  // ---------------------------------------------------------------------------

  /** The field label the text matcher is given. */
  datatype MatchField = SongNameField | SingerNameField

  /** The shared fuzzy text matcher (reference, candidate, field). Its
      definition is not part of this model and nothing is assumed about its
      range. */
  type Matcher = (string, string, MatchField) -> real

  /** A score together with the accept/reject decision. */
  datatype Scored = Scored(score: real, accepted: bool)

  /** The marker of an accompaniment (backing track) version. */
  const Accompaniment := "伴奏"
  /** The marker of a concert recording. */
  const Concert := "演唱会"

  /** After upper-casing, the title carries `marker` and the keyword does not. */
  predicate Marked(keyword: string, title: string, marker: string)
  {
    Contains(ToUpper(title), marker) && !Contains(ToUpper(keyword), marker)
  }

  /** The four hard exclusion rules, in the order they are tested. The first
      one compares the raw strings; the other three compare upper-cased ones. */
  predicate Excluded(keyword: string, title: string)
  {
    || (Contains(title, Accompaniment) && !Contains(keyword, Accompaniment))
    || Marked(keyword, title, "DJ")
    || Marked(keyword, title, "COVER")
    || Marked(keyword, title, "MIX")
  }

  /** The factor applied to the title score: 0.6 for a live or concert
      version the keyword did not ask for, else 1. */
  function LiveFactor(keyword: string, title: string): (f: real)
    ensures f == 0.6 || f == 1.0
    ensures f == 0.6 <==> Marked(keyword, title, "LIVE") || Marked(keyword, title, Concert)
  {
    if Marked(keyword, title, "LIVE") then 0.6
    else if Marked(keyword, title, Concert) then 0.6
    else 1.0
  }

  /** The singer string with the separators '&' and '·' both turned into '、'. */
  function NormaliseSingers(singer: string): (r: string)
    ensures |r| == |singer|
    ensures '&' !in r && '·' !in r
    ensures forall i :: 0 <= i < |singer| && singer[i] != '&' && singer[i] != '·' ==> r[i] == singer[i]
    ensures forall i :: 0 <= i < |singer| && (singer[i] == '&' || singer[i] == '·') ==> r[i] == '、'
  {
    ReplaceChar(ReplaceChar(singer, '&', '、'), '·', '、')
  }

  /** The title component of the score: 0 for an empty title. */
  function TitleScore(q: SearchSong, songName: string, matcher: Matcher): real
  {
    if |songName| > 0 then matcher(q.name, songName, SongNameField) * LiveFactor(q.keyword, songName)
    else 0.0
  }

  /** The artist component of the score: 0 for an empty singer name. */
  function ArtistScore(q: SearchSong, singerName: string, matcher: Matcher): real
  {
    if |singerName| > 0 then matcher(q.artistsName, NormaliseSingers(singerName), SingerNameField)
    else 0.0
  }

  /** The bonus for the backend's own ranking, already weighted by 0.1. */
  function PositionBonus(index: int, maxIndex: int): real
    requires maxIndex != 0
  {
    0.1 * (maxIndex - index) as real / maxIndex as real
  }

  /** CalScore: under score ordering, a candidate hit by an exclusion rule is
      rejected with score 0; any other candidate is accepted with the weighted
      sum of its title, artist and position components. Under any other
      ordering every candidate is accepted with score 0. */
  function CalScore(q: SearchSong, songName: string, singerName: string, index: int, maxIndex: int,
                    matcher: Matcher): (r: Scored)
    requires maxIndex != 0
    ensures q.orderBy != MatchedScoreDesc ==> r == Scored(0.0, true)
    ensures q.orderBy == MatchedScoreDesc ==> (r.accepted <==> !Excluded(q.keyword, songName))
    ensures !r.accepted ==> r.score == 0.0
    ensures q.orderBy == MatchedScoreDesc && r.accepted ==>
              r.score == TitleScore(q, songName, matcher) * 0.55 + ArtistScore(q, singerName, matcher) * 0.35
                         + PositionBonus(index, maxIndex)
    ensures q.orderBy == MatchedScoreDesc && r.accepted && |songName| == 0 && |singerName| == 0 ==>
              r.score == PositionBonus(index, maxIndex)
  {
    if q.orderBy == MatchedScoreDesc then
      if Contains(songName, Accompaniment) && !Contains(q.keyword, Accompaniment) then Scored(0.0, false)
      else if Contains(ToUpper(songName), "DJ") && !Contains(ToUpper(q.keyword), "DJ") then Scored(0.0, false)
      else if Contains(ToUpper(songName), "COVER") && !Contains(ToUpper(q.keyword), "COVER") then Scored(0.0, false)
      else if Contains(ToUpper(songName), "MIX") && !Contains(ToUpper(q.keyword), "MIX") then Scored(0.0, false)
      else
        var songNameScore := TitleScore(q, songName, matcher);
        var artistsNameScore := ArtistScore(q, singerName, matcher);
        Scored(songNameScore * 0.55 + artistsNameScore * 0.35 + PositionBonus(index, maxIndex), true)
    else
      Scored(0.0, true)
  }

  /** A title marked as an accompaniment that the keyword does not ask for is
      rejected, whatever the artist and position. */
  lemma AccompanimentRejected(q: SearchSong, songName: string, singerName: string, index: int, maxIndex: int,
                              matcher: Matcher)
    requires maxIndex != 0 && q.orderBy == MatchedScoreDesc
    requires Contains(songName, Accompaniment) && !Contains(q.keyword, Accompaniment)
    ensures CalScore(q, songName, singerName, index, maxIndex, matcher) == Scored(0.0, false)
  {
  }

  /** A title carrying "DJ", "COVER" or "MIX" that the keyword lacks is rejected. */
  lemma MarkerRejected(q: SearchSong, songName: string, singerName: string, index: int, maxIndex: int,
                       matcher: Matcher, marker: string)
    requires maxIndex != 0 && q.orderBy == MatchedScoreDesc
    requires marker == "DJ" || marker == "COVER" || marker == "MIX"
    requires Marked(q.keyword, songName, marker)
    ensures CalScore(q, songName, singerName, index, maxIndex, matcher) == Scored(0.0, false)
  {
  }

  /** An example of the accompaniment rule: keyword "SONG", title "SONG (伴奏)". */
  lemma AccompanimentExample(q: SearchSong, singerName: string, index: int, maxIndex: int, matcher: Matcher)
    requires maxIndex != 0 && q.orderBy == MatchedScoreDesc && q.keyword == "SONG"
    ensures !CalScore(q, "SONG (伴奏)", singerName, index, maxIndex, matcher).accepted
  {
    ContainsIff("SONG (伴奏)", Accompaniment);
    assert OccursAt("SONG (伴奏)", Accompaniment, 6);
    MissingFirstCharacter("SONG", Accompaniment);
    AccompanimentRejected(q, "SONG (伴奏)", singerName, index, maxIndex, matcher);
  }

  /** The live penalty: a live title the keyword does not ask for keeps
      exactly 0.6 of its raw match. */
  lemma LivePenalty(q: SearchSong, songName: string, matcher: Matcher)
    requires |songName| > 0 && Marked(q.keyword, songName, "LIVE")
    ensures TitleScore(q, songName, matcher) == 0.6 * matcher(q.name, songName, SongNameField)
  {
  }

  /** The live and concert penalties never compound: the title score is the
      raw match or 0.6 of it, never 0.36 of it. */
  lemma PenaltyAppliedAtMostOnce(q: SearchSong, songName: string, matcher: Matcher)
    requires |songName| > 0
    ensures var raw := matcher(q.name, songName, SongNameField);
            TitleScore(q, songName, matcher) == raw || TitleScore(q, songName, matcher) == 0.6 * raw
  {
  }

  /** The matcher never sees '&' or '·' in the singer string. */
  lemma SingerSeparatorsNormalised(singer: string)
    ensures !Contains(NormaliseSingers(singer), "&") && !Contains(NormaliseSingers(singer), "·")
  {
    ContainsChar(NormaliseSingers(singer), '&');
    ContainsChar(NormaliseSingers(singer), '·');
  }

  /** An earlier backend position earns a strictly larger bonus. */
  lemma PositionBonusDecreasing(i: int, j: int, maxIndex: int)
    requires maxIndex > 0 && i < j
    ensures PositionBonus(i, maxIndex) > PositionBonus(j, maxIndex)
  {
  }

  /** For the same title and artist, an accepted candidate scores strictly
      higher the earlier the backend ranked it. */
  lemma ScoreDecreasesWithIndex(q: SearchSong, songName: string, singerName: string, i: int, j: int, maxIndex: int,
                                matcher: Matcher)
    requires maxIndex > 0 && i < j
    requires q.orderBy == MatchedScoreDesc && !Excluded(q.keyword, songName)
    ensures CalScore(q, songName, singerName, i, maxIndex, matcher).score >
            CalScore(q, songName, singerName, j, maxIndex, matcher).score
  {
    PositionBonusDecreasing(i, j, maxIndex);
  }

  // ---------------------------------------------------------------------------
  // Ordering and capping the results
  // ---------------------------------------------------------------------------

  /** The number of results kept under the cap `limit`. */
  function Capped(limit: int, n: nat): (m: nat)
    ensures m <= n
    ensures limit > 0 ==> m <= limit
    ensures limit > 0 && n > limit ==> m == limit
    ensures !(limit > 0 && n > limit) ==> m == n
  {
    if limit > 0 && n > limit then limit else n
  }

  /** AfterSearchSong: under score ordering with more than one candidate the
      slice is sorted in place by descending score; the result is the first
      `Capped(limit, n)` entries of the (possibly reordered) slice. */
  method AfterSearchSong(q: SearchSong, songs: array<Song>) returns (r: seq<Song>)
    modifies songs
    ensures |r| == Capped(q.limit, songs.Length)
    ensures r == songs[..|r|]
    ensures q.orderBy == MatchedScoreDesc && songs.Length > 1 ==>
              Descending(songs[..], ScoreOf) && multiset(songs[..]) == multiset(old(songs[..]))
    ensures !(q.orderBy == MatchedScoreDesc && songs.Length > 1) ==> songs[..] == old(songs[..])
    ensures q.orderBy == MatchedScoreDesc ==>
              forall x, y :: x in r && y in songs[|r|..] ==> x.matchScore >= y.matchScore
  {
    if q.orderBy == MatchedScoreDesc && songs.Length > 1 {
      SortDescending(songs, ScoreOf);
    }
    var n := songs.Length;
    if q.limit > 0 && n > q.limit {
      n := q.limit;
    }
    r := songs[..n];
    if q.orderBy == MatchedScoreDesc {
      forall x, y | x in r && y in songs[n..] ensures x.matchScore >= y.matchScore {
        PrefixDominates(songs[..], ScoreOf, n, x, y);
      }
    }
  }
}

/** The OpenSubsonic provider (provider/opensubsonic/opensubsonic.go): a pool
    of authenticated backend clients with a sticky ten-minute choice, a search
    that scores the first backend results, and a playback notifier that sends
    a "now playing" scrobble at once and a "submission" scrobble later.

    The package-level variables of the source (`clients`, `lastUsedClient`,
    `lastUsedTime`, `handle`) and the scrobbles sent so far are the fields of
    the class `OpenSubsonic`. Each of its methods is proved against a pure
    function over value snapshots of that state (`PoolState`, `Notifier`),
    and the properties of the provider are lemmas about those functions. */
module OpenSubsonicProvider {
  import opened Common
  import opened Sorting
  import Base

  // ---------------------------------------------------------------------------
  // Backend values and oracles
  // ---------------------------------------------------------------------------

  /** An authenticated backend connection. */
  datatype Client = Client(baseUrl: string, user: string)

  /** A credential record. */
  datatype Account = Account(username: string, password: string, baseUrl: string)

  /** One track of a backend search response. */
  datatype Child = Child(
    id: string,
    title: string,
    artist: string,
    album: string,
    size: int,
    bitRate: int,
    duration: int,
    suffix: string,
    year: int)

  /** The backend calls, as oracles: a keyword search (None when the call
      fails) and stream-URL resolution (None when it fails). */
  datatype Backend = Backend(
    search: (Client, string) -> Option<seq<Child>>,
    streamUrl: (Client, string) -> Option<string>)

  /** The prefix of song ids from this provider. Its value lives in a package
      that is not part of this model; this string stands in for it. */
  const OpenSubsonicTag := "opensubsonic"

  /** The key of the backend track id in a song's identity map. */
  const MusicIdKey := "MusicId"

  // ---------------------------------------------------------------------------
  // The client pool
  // ---------------------------------------------------------------------------

  /** How long a chosen client is reused, in milliseconds (10 minutes). */
  const ClientTTL := 600000

  /** The pool: all clients, the client chosen last and when (milliseconds). */
  datatype PoolState = PoolState(clients: seq<Client>, lastUsedClient: Option<Client>, lastUsedTime: int)

  /** What a client request yields: a client or None ("no clients
      available"), and the pool afterwards. */
  datatype Acquired = Acquired(client: Option<Client>, pool: PoolState)

  /** The remembered client is always one of the pool's clients. */
  predicate PoolValid(p: PoolState)
  {
    p.lastUsedClient.Some? ==> p.lastUsedClient.value in p.clients
  }

  /** The random pick is an index of the pool (when there is one). */
  predicate PickInRange(clients: seq<Client>, pick: nat)
  {
    |clients| == 0 || pick < |clients|
  }

  /** A client was chosen less than ten minutes before `now`. */
  predicate Sticky(p: PoolState, now: int)
  {
    p.lastUsedClient.Some? && now - p.lastUsedTime < ClientTTL
  }

  /** getClient, on values: reuse the remembered client within the TTL, else
      fail on an empty pool, else take client `pick` and remember it with
      the time `now`. */
  function Acquire(p: PoolState, now: int, pick: nat): (a: Acquired)
    requires PickInRange(p.clients, pick)
    ensures a.pool.clients == p.clients
    ensures a.client.None? <==> !Sticky(p, now) && |p.clients| == 0
    ensures PoolValid(p) ==> PoolValid(a.pool) && (a.client.Some? ==> a.client.value in p.clients)
  {
    if p.lastUsedClient.Some? && now - p.lastUsedTime < ClientTTL then
      Acquired(p.lastUsedClient, p)
    else if |p.clients| == 0 then
      Acquired(None, p)
    else
      var selected := p.clients[pick];
      Acquired(Some(selected), p.(lastUsedClient := Some(selected), lastUsedTime := now))
  }

  /** Within the TTL the remembered client is returned and nothing changes;
      in particular the time it was chosen is not refreshed. */
  lemma AcquireSticky(p: PoolState, now: int, pick: nat)
    requires PickInRange(p.clients, pick) && Sticky(p, now)
    ensures Acquire(p, now, pick) == Acquired(p.lastUsedClient, p)
  {
  }

  /** The TTL is checked before the pool size: past the TTL an empty pool
      fails and nothing changes. */
  lemma AcquireEmpty(p: PoolState, now: int, pick: nat)
    requires !Sticky(p, now) && p.clients == []
    ensures Acquire(p, now, pick) == Acquired(None, p)
  {
  }

  /** Past the TTL a non-empty pool yields the picked client, which becomes the
      remembered one with the time `now`. */
  lemma AcquireFresh(p: PoolState, now: int, pick: nat)
    requires !Sticky(p, now) && pick < |p.clients|
    ensures Acquire(p, now, pick).client == Some(p.clients[pick])
    ensures Acquire(p, now, pick).pool == PoolState(p.clients, Some(p.clients[pick]), now)
  {
  }

  /** Two requests return the same client whenever the second comes less than
      the TTL after the time recorded by the first. */
  lemma SecondAcquireReuses(p: PoolState, t1: int, pick1: nat, t2: int, pick2: nat)
    requires PickInRange(p.clients, pick1) && PickInRange(p.clients, pick2)
    requires Acquire(p, t1, pick1).client.Some?
    requires t2 - Acquire(p, t1, pick1).pool.lastUsedTime < ClientTTL
    ensures Acquire(Acquire(p, t1, pick1).pool, t2, pick2) == Acquired(Acquire(p, t1, pick1).client, Acquire(p, t1, pick1).pool)
  {
  }

  /** Because reuse does not refresh the time, a client chosen at `t0` and
      reused at `t1` expires at `t0` plus the TTL, however recent `t1` is. */
  lemma ReuseDoesNotExtendTTL(p: PoolState, t1: int, t2: int, pick: nat)
    requires PickInRange(p.clients, pick) && Sticky(p, t1) && p.clients != []
    requires t2 >= p.lastUsedTime + ClientTTL
    ensures Acquire(Acquire(p, t1, pick).pool, t2, pick).client == Some(p.clients[pick])
    ensures Acquire(Acquire(p, t1, pick).pool, t2, pick).pool.lastUsedTime == t2
  {
  }

  /** Init, on values: the client for each account that authenticates, in order. */
  function Authenticated(accounts: seq<Account>, authenticates: Account -> bool): (cs: seq<Client>)
    ensures |cs| <= |accounts|
  {
    if accounts == [] then []
    else
      var last := accounts[|accounts| - 1];
      Authenticated(accounts[..|accounts| - 1], authenticates)
        + (if authenticates(last) then [ClientFor(last)] else [])
  }

  function ClientFor(a: Account): Client
  {
    Client(a.baseUrl, a.username)
  }

  /** Only accounts that authenticate enter the pool, and all of them do. */
  lemma {:induction false} AuthenticatedIff(accounts: seq<Account>, authenticates: Account -> bool, c: Client)
    ensures c in Authenticated(accounts, authenticates) <==>
              exists a :: a in accounts && authenticates(a) && ClientFor(a) == c
  {
    if accounts != [] {
      var init := accounts[..|accounts| - 1];
      var last := accounts[|accounts| - 1];
      AuthenticatedIff(init, authenticates, c);
      assert accounts == init + [last];
      if a :| a in accounts && authenticates(a) && ClientFor(a) == c {
        if a != last {
          assert a in init;
        }
      }
    }
  }

  // ---------------------------------------------------------------------------
  // The playback notifier
  // ---------------------------------------------------------------------------

  /** A scrobble sent to the backend: `submission` false is "now playing",
      true is "played". */
  datatype Scrobble = Scrobble(client: Client, musicId: string, timeMillis: int, submission: bool)

  /** A deferred "played" scrobble: its client and track, its delay in
      seconds, when it is due (milliseconds), and whether it can still fire. */
  datatype Timer = Timer(client: Client, musicId: string, delaySeconds: int, dueAt: int, live: bool)

  /** The timer slot and the scrobbles sent so far. */
  datatype Notifier = Notifier(handle: Option<Timer>, scrobbles: seq<Scrobble>)

  /** Every timer ever set waits between 0 and 240 seconds. */
  predicate NotifierValid(n: Notifier)
  {
    n.handle.Some? ==> 0 <= n.handle.value.delaySeconds <= 240
  }

  /** The delay before the "played" scrobble: half the track, at most 240 s. */
  function ScrobbleDelay(duration: int): (d: int)
    requires duration > 0
    ensures 0 <= d <= 240 && d <= duration
    ensures duration > 480 ==> d == 240
    ensures duration <= 480 ==> 2 * d <= duration <= 2 * d + 1
  {
    if duration > 480 then 240 else duration / 2
  }

  /** Timer.Stop: a stopped timer can no longer fire. */
  function Stop(h: Option<Timer>): (r: Option<Timer>)
    ensures r.Some? <==> h.Some?
    ensures r.Some? ==> r.value == h.value.(live := false)
  {
    if h.Some? then Some(h.value.(live := false)) else None
  }

  /** GetSongUrl, on values, given the outcome of its client request: the
      pending timer is stopped first in every case; with a client and a
      positive duration one "now playing" scrobble is sent and a new timer
      set. */
  function StartPlayback(n: Notifier, client: Option<Client>, song: Song, now: int): (r: Notifier)
    requires client.Some? && song.duration > 0 ==> MusicIdKey in song.platformUniqueKey
    ensures NotifierValid(n) ==> NotifierValid(r)
    ensures r.handle.Some? && r.handle.value.live ==>
              client.Some? && song.duration > 0 && r.handle.value.client == client.value
              && r.handle.value.musicId == song.platformUniqueKey[MusicIdKey]
    ensures client.None? || song.duration <= 0 ==> r == Notifier(Stop(n.handle), n.scrobbles)
    ensures client.Some? && song.duration > 0 ==>
              var id := song.platformUniqueKey[MusicIdKey];
              && r.scrobbles == n.scrobbles + [Scrobble(client.value, id, now, false)]
              && r.handle.Some? && r.handle.value.live
              && r.handle.value.delaySeconds == ScrobbleDelay(song.duration)
              && r.handle.value.dueAt == now + 1000 * ScrobbleDelay(song.duration)
  {
    var stopped := Stop(n.handle);
    if client.None? || song.duration <= 0 then
      Notifier(stopped, n.scrobbles)
    else
      var id := song.platformUniqueKey[MusicIdKey];
      var delay := ScrobbleDelay(song.duration);
      Notifier(Some(Timer(client.value, id, delay, now + delay * 1000, true)),
               n.scrobbles + [Scrobble(client.value, id, now, false)])
  }

  /** The timer fires: a live timer that is due sends its "played" scrobble
      and stops itself; otherwise nothing happens. */
  function Fire(n: Notifier, now: int): (r: Notifier)
    ensures NotifierValid(n) ==> NotifierValid(r)
    ensures r.handle.Some? ==> !r.handle.value.live || r == n
    ensures n.scrobbles <= r.scrobbles && |r.scrobbles| <= |n.scrobbles| + 1
    ensures n.handle.Some? && n.handle.value.live && n.handle.value.dueAt <= now ==>
              && r.scrobbles == n.scrobbles + [Scrobble(n.handle.value.client, n.handle.value.musicId, now, true)]
              && r.handle == Stop(n.handle)
    ensures !(n.handle.Some? && n.handle.value.live && n.handle.value.dueAt <= now) ==> r == n
  {
    if n.handle.Some? && n.handle.value.live && n.handle.value.dueAt <= now then
      var t := n.handle.value;
      Notifier(Stop(n.handle), n.scrobbles + [Scrobble(t.client, t.musicId, now, true)])
    else
      n
  }

  /** A timer fires at most once: a second firing changes nothing. */
  lemma FiresAtMostOnce(n: Notifier, t1: int, t2: int)
    ensures Fire(n, t1) != n ==> Fire(Fire(n, t1), t2) == Fire(n, t1)
  {
  }

  /** Two playbacks in a row leave only the second one's timer able to fire:
      the first track never gets its "played" scrobble from this slot. */
  lemma LastPlaybackWins(n: Notifier, c1: Client, s1: Song, t1: int, c2: Client, s2: Song, t2: int, t3: int)
    requires s1.duration > 0 && MusicIdKey in s1.platformUniqueKey
    requires s2.duration > 0 && MusicIdKey in s2.platformUniqueKey
    requires t3 >= t2 + 1000 * ScrobbleDelay(s2.duration)
    ensures var n2 := StartPlayback(StartPlayback(n, Some(c1), s1, t1), Some(c2), s2, t2);
            && n2.scrobbles == n.scrobbles + [Scrobble(c1, s1.platformUniqueKey[MusicIdKey], t1, false),
                                              Scrobble(c2, s2.platformUniqueKey[MusicIdKey], t2, false)]
            && Fire(n2, t3).scrobbles == n2.scrobbles + [Scrobble(c2, s2.platformUniqueKey[MusicIdKey], t3, true)]
  {
    var n1 := StartPlayback(n, Some(c1), s1, t1);
    var n2 := StartPlayback(n1, Some(c2), s2, t2);
    assert n2.handle.value.dueAt <= t3;
  }

  // ---------------------------------------------------------------------------
  // The search
  // ---------------------------------------------------------------------------

  /** How many of `listLength` backend results are scored: half of them plus
      one, but at most 10. */
  function MaxIndex(listLength: nat): (m: int)
    ensures 1 <= m <= 10
    ensures m <= listLength / 2 + 1
    ensures m < 10 ==> m == listLength / 2 + 1
  {
    var m := listLength / 2 + 1;
    if m > 10 then 10 else m
  }

  /** With at least one result, the window of scored results is `MaxIndex`
      long and fits in the list. */
  lemma MaxIndexFits(listLength: nat)
    requires listLength > 0
    ensures MaxIndex(listLength) <= listLength
  {
  }

  /** The sort key that orders results by ascending year. */
  function YearKey(c: Child): real
  {
    -(c.year as real)
  }

  /** The song built for a backend result whose stream URL resolved. */
  function MakeSong(q: SearchSong, r: Child, url: string, score: real): Song
  {
    Song(id := OpenSubsonicTag + r.id,
         size := r.size,
         br := r.bitRate * 1000,
         url := url,
         name := r.title,
         artist := r.artist,
         albumName := r.album,
         duration := r.duration,
         source := "OpenSubsonic",
         platformUniqueKey := map["UnKeyWord" := q.keyword, MusicIdKey := r.id, "songType" := r.suffix],
         matchScore := score)
  }

  /** One step of the filter loop: the result at `index` is kept when its
      stream URL resolves and CalScore accepts its title and artist. */
  function Admit(q: SearchSong, c: Client, backend: Backend, matcher: Base.Matcher, r: Child, index: nat,
                 maxIndex: int): (s: Option<Song>)
    requires maxIndex != 0
    ensures s.Some? <==> backend.streamUrl(c, r.id).Some?
                         && Base.CalScore(q, r.title, r.artist, index, maxIndex, matcher).accepted
    ensures s.Some? ==>
              && s.value.url == backend.streamUrl(c, r.id).value
              && s.value.br == r.bitRate * 1000
              && MusicIdKey in s.value.platformUniqueKey && s.value.platformUniqueKey[MusicIdKey] == r.id
              && s.value.platformUniqueKey == map["UnKeyWord" := q.keyword, MusicIdKey := r.id, "songType" := r.suffix]
              && s.value.id == OpenSubsonicTag + r.id && s.value.size == r.size
              && s.value.name == r.title && s.value.artist == r.artist && s.value.albumName == r.album
              && s.value.duration == r.duration && s.value.source == "OpenSubsonic"
              && s.value.matchScore == Base.CalScore(q, r.title, r.artist, index, maxIndex, matcher).score
  {
    match backend.streamUrl(c, r.id)
    case None => None
    case Some(url) =>
      var scored := Base.CalScore(q, r.title, r.artist, index, maxIndex, matcher);
      if scored.accepted then Some(MakeSong(q, r, url, scored.score)) else None
  }

  /** The songs the filter loop has collected after the first `n` results. */
  function Kept(q: SearchSong, c: Client, backend: Backend, matcher: Base.Matcher, results: seq<Child>, n: nat,
                maxIndex: int): (k: seq<Song>)
    requires n <= |results| && maxIndex != 0
  {
    if n == 0 then []
    else
      Kept(q, c, backend, matcher, results, n - 1, maxIndex)
        + match Admit(q, c, backend, matcher, results[n - 1], n - 1, maxIndex)
          case None => []
          case Some(s) => [s]
  }

  /** The filter keeps at most one song per result it looks at. */
  lemma {:induction false} KeptLength(q: SearchSong, c: Client, backend: Backend, matcher: Base.Matcher,
                                      results: seq<Child>, n: nat, maxIndex: int)
    requires n <= |results| && maxIndex != 0
    ensures |Kept(q, c, backend, matcher, results, n, maxIndex)| <= n
  {
    if n > 0 {
      KeptLength(q, c, backend, matcher, results, n - 1, maxIndex);
    }
  }

  /** Exactly the admitted results among the first `n` are kept. */
  lemma {:induction false} KeptIff(q: SearchSong, c: Client, backend: Backend, matcher: Base.Matcher,
                                   results: seq<Child>, n: nat, maxIndex: int, s: Song)
    requires n <= |results| && maxIndex != 0
    ensures s in Kept(q, c, backend, matcher, results, n, maxIndex) <==>
              exists i :: 0 <= i < n && Admit(q, c, backend, matcher, results[i], i, maxIndex) == Some(s)
  {
    if n > 0 {
      KeptIff(q, c, backend, matcher, results, n - 1, maxIndex, s);
      if i :| 0 <= i < n && Admit(q, c, backend, matcher, results[i], i, maxIndex) == Some(s) {
        if i < n - 1 {
          assert s in Kept(q, c, backend, matcher, results, n - 1, maxIndex);
        }
      }
    }
  }

  /** The songs a search yields from the year-ordered results `ordered`. */
  function CandidateSongs(q: SearchSong, c: Client, backend: Backend, matcher: Base.Matcher,
                          ordered: seq<Child>): seq<Song>
  {
    var maxIndex := MaxIndex(|ordered|);
    Kept(q, c, backend, matcher, ordered, if |ordered| < maxIndex then |ordered| else maxIndex, maxIndex)
  }

  /** What SearchSong returns, given the outcome of its client request: nothing
      without a client or a search response; otherwise the admitted songs among
      the first MaxIndex results in year order, ordered by descending score. */
  ghost predicate SearchOutcome(q: SearchSong, backend: Backend, matcher: Base.Matcher, client: Option<Client>,
                                ordered: seq<Child>, songs: seq<Song>)
  {
    match client
    case None => songs == []
    case Some(c) =>
      match backend.search(c, q.keyword)
      case None => songs == []
      case Some(results) =>
        && multiset(ordered) == multiset(results)
        && Descending(ordered, YearKey)
        && multiset(songs) == multiset(CandidateSongs(q, c, backend, matcher, ordered))
        && Descending(songs, ScoreOf)
  }

  /** Every song a search yields is a result among the first MaxIndex in year
      order whose URL resolved and which CalScore accepted; there are at most
      MaxIndex of them, hence at most 10; they come best score first. */
  lemma SearchOutcomeSongs(q: SearchSong, backend: Backend, matcher: Base.Matcher, c: Client,
                           ordered: seq<Child>, songs: seq<Song>, s: Song)
    requires SearchOutcome(q, backend, matcher, Some(c), ordered, songs)
    requires backend.search(c, q.keyword).Some?
    ensures |songs| <= MaxIndex(|ordered|) <= 10
    ensures s in songs ==>
              exists i :: 0 <= i < MaxIndex(|ordered|) && i < |ordered|
                          && Admit(q, c, backend, matcher, ordered[i], i, MaxIndex(|ordered|)) == Some(s)
    ensures s in songs ==>
              && MusicIdKey in s.platformUniqueKey
              && forall t :: t in songs ==> t.matchScore <= songs[0].matchScore
  {
    var maxIndex := MaxIndex(|ordered|);
    var n := if |ordered| < maxIndex then |ordered| else maxIndex;
    var kept := CandidateSongs(q, c, backend, matcher, ordered);
    KeptLength(q, c, backend, matcher, ordered, n, maxIndex);
    assert |songs| == |multiset(songs)| == |multiset(kept)| == |kept|;
    if s in songs {
      assert s in multiset(kept);
      KeptIff(q, c, backend, matcher, ordered, n, maxIndex, s);
      var i :| 0 <= i < n && Admit(q, c, backend, matcher, ordered[i], i, maxIndex) == Some(s);
      forall t | t in songs ensures t.matchScore <= songs[0].matchScore {
        var j :| 0 <= j < |songs| && songs[j] == t;
        if j > 0 {
          assert ScoreOf(songs[0]) >= ScoreOf(songs[j]);
        }
      }
    }
  }

  /** The filter loop of SearchSong: walks the year-ordered results, stops at
      `maxIndex`, skips a result whose stream URL does not resolve or that
      CalScore rejects, and keeps the rest, in order. */
  method CollectCandidates(q: SearchSong, c: Client, backend: Backend, matcher: Base.Matcher,
                           results: seq<Child>, maxIndex: int) returns (tempSongs: seq<Song>)
    requires maxIndex == MaxIndex(|results|)
    ensures tempSongs == CandidateSongs(q, c, backend, matcher, results)
  {
    tempSongs := [];
    var index := 0;
    while index < |results|
      invariant 0 <= index <= |results| && index <= maxIndex
      invariant tempSongs == Kept(q, c, backend, matcher, results, index, maxIndex)
    {
      if index >= maxIndex {
        break;
      }
      var result := results[index];
      var url := backend.streamUrl(c, result.id);
      if url.Some? {
        var songResult := MakeSong(q, result, url.value, 0.0);
        var scored := Base.CalScore(q, result.title, result.artist, index, maxIndex, matcher);
        if scored.accepted {
          tempSongs := tempSongs + [songResult.(matchScore := scored.score)];
        }
      }
      index := index + 1;
    }
  }

  // ---------------------------------------------------------------------------
  // The provider state
  // ---------------------------------------------------------------------------

  class OpenSubsonic {
    var clients: seq<Client>
    var lastUsedClient: Option<Client>
    var lastUsedTime: int
    var handle: Option<Timer>
    var scrobbles: seq<Scrobble>

    /** The pool part of the state. */
    function Pool(): PoolState
      reads this
    {
      PoolState(clients, lastUsedClient, lastUsedTime)
    }

    /** The notifier part of the state. */
    function Notifications(): Notifier
      reads this
    {
      Notifier(handle, scrobbles)
    }

    ghost predicate Valid()
      reads this
    {
      PoolValid(Pool()) && NotifierValid(Notifications())
    }

    /** The zero values of the package variables. */
    constructor ()
      ensures Valid()
      ensures Pool() == PoolState([], None, 0) && Notifications() == Notifier(None, [])
    {
      clients := [];
      lastUsedClient := None;
      lastUsedTime := 0;
      handle := None;
      scrobbles := [];
    }

    /** Init: every account that authenticates contributes a client. */
    method Init(accounts: seq<Account>, authenticates: Account -> bool)
      requires Valid()
      modifies this
      ensures Valid()
      ensures Pool() == old(Pool()).(clients := old(clients) + Authenticated(accounts, authenticates))
      ensures Notifications() == old(Notifications())
    {
      for k := 0 to |accounts|
        invariant clients == old(clients) + Authenticated(accounts[..k], authenticates)
        invariant lastUsedClient == old(lastUsedClient) && lastUsedTime == old(lastUsedTime)
        invariant Notifications() == old(Notifications())
        invariant PoolValid(Pool())
      {
        var account := accounts[k];
        assert accounts[..k + 1][..k] == accounts[..k];
        if authenticates(account) {
          clients := clients + [ClientFor(account)];
        }
      }
      assert accounts[..|accounts|] == accounts;
    }

    /** getClient: proved against Acquire. */
    method GetClient(now: int, pick: nat) returns (client: Option<Client>)
      requires Valid() && PickInRange(clients, pick)
      modifies this
      ensures Valid()
      ensures Acquired(client, Pool()) == Acquire(old(Pool()), now, pick)
      ensures Notifications() == old(Notifications())
    {
      if lastUsedClient.Some? && now - lastUsedTime < ClientTTL {
        return lastUsedClient;
      }
      if |clients| == 0 {
        return None;
      }
      var selected := clients[pick];
      lastUsedClient := Some(selected);
      lastUsedTime := now;
      return Some(selected);
    }

    /** SearchSong: proved against SearchOutcome. `ordered` is the response
        after the in-place sort by year. */
    method SearchSong(q: SearchSong, backend: Backend, matcher: Base.Matcher, now: int, pick: nat)
      returns (songs: seq<Song>, ghost ordered: seq<Child>)
      requires Valid() && PickInRange(clients, pick)
      modifies this
      ensures Valid()
      ensures Pool() == Acquire(old(Pool()), now, pick).pool
      ensures Notifications() == old(Notifications())
      ensures SearchOutcome(q, backend, matcher, Acquire(old(Pool()), now, pick).client, ordered, songs)
    {
      ordered := [];
      var client := GetClient(now, pick);
      if client.None? {
        return [], ordered;
      }
      var c := client.value;
      var searchResult := backend.search(c, q.keyword);
      if searchResult.None? {
        return [], ordered;
      }
      var listLength := |searchResult.value|;
      var maxIndex := listLength / 2 + 1;
      if maxIndex > 10 {
        maxIndex := 10;
      }
      var response := ToArray(searchResult.value);
      SortDescending(response, YearKey);
      var results := response[..];
      ordered := results;
      assert maxIndex == MaxIndex(|results|);
      var tempSongs := CollectCandidates(q, c, backend, matcher, results, maxIndex);
      var found := ToArray(tempSongs);
      SortDescending(found, ScoreOf);
      songs := found[..];
    }

    /** GetSongUrl: proved against StartPlayback. The song is returned as it
        came. */
    method GetSongUrl(song: Song, now: int, pick: nat) returns (r: Song)
      requires Valid() && PickInRange(clients, pick)
      requires Acquire(Pool(), now, pick).client.Some? && song.duration > 0 ==> MusicIdKey in song.platformUniqueKey
      modifies this
      ensures Valid()
      ensures r == song
      ensures Pool() == Acquire(old(Pool()), now, pick).pool
      ensures Notifications() == StartPlayback(old(Notifications()), Acquire(old(Pool()), now, pick).client, song, now)
    {
      if handle.Some? {
        handle := Stop(handle);
      }
      var client := GetClient(now, pick);
      if client.None? {
        return song;
      }
      if song.duration > 0 {
        var duration: int;
        if song.duration > 480 {
          duration := 240;
        } else {
          duration := song.duration / 2;
        }
        var musicId := song.platformUniqueKey[MusicIdKey];
        scrobbles := scrobbles + [Scrobble(client.value, musicId, now, false)];
        handle := Some(Timer(client.value, musicId, duration, now + duration * 1000, true));
      }
      return song;
    }

    /** The pending timer's callback, run at time `now`: proved against Fire. */
    method FireTimer(now: int)
      requires Valid()
      modifies this
      ensures Valid()
      ensures Pool() == old(Pool())
      ensures Notifications() == Fire(old(Notifications()), now)
    {
      if handle.Some? && handle.value.live && handle.value.dueAt <= now {
        var timer := handle.value;
        scrobbles := scrobbles + [Scrobble(timer.client, timer.musicId, now, true)];
        handle := Stop(handle);
      }
    }

    /** ParseSong: search, then hand the best song to GetSongUrl; the empty
        song when the search yields nothing. The search and the playback each
        read the clock and draw a pick of their own. */
    method ParseSong(q: SearchSong, backend: Backend, matcher: Base.Matcher,
                     searchAt: int, searchPick: nat, playAt: int, playPick: nat)
      returns (r: Song, ghost found: seq<Song>, ghost ordered: seq<Child>)
      requires Valid() && PickInRange(clients, searchPick) && PickInRange(clients, playPick)
      modifies this
      ensures Valid()
      ensures SearchOutcome(q, backend, matcher, Acquire(old(Pool()), searchAt, searchPick).client, ordered, found)
      ensures found == [] ==> r == EmptySong
      ensures found != [] ==> MusicIdKey in r.platformUniqueKey
      ensures found == [] ==> Pool() == Acquire(old(Pool()), searchAt, searchPick).pool
      ensures found == [] ==> Notifications() == old(Notifications())
      ensures found != [] ==> r == found[0] && forall s :: s in found ==> s.matchScore <= r.matchScore
      ensures found != [] ==>
                var played := Acquire(Acquire(old(Pool()), searchAt, searchPick).pool, playAt, playPick);
                && Pool() == played.pool
                && Notifications() == StartPlayback(old(Notifications()), played.client, r, playAt)
    {
      r := EmptySong;
      var songs;
      songs, ordered := SearchSong(q, backend, matcher, searchAt, searchPick);
      found := songs;
      if |songs| > 0 {
        ghost var c := Acquire(old(Pool()), searchAt, searchPick).client;
        SearchOutcomeSongs(q, backend, matcher, c.value, ordered, songs, songs[0]);
        r := GetSongUrl(songs[0], playAt, playPick);
      }
    }
  }
}

/** The third step of the music player's build-up (`SpotifyStep3`): the
    product's four sections as the tracks of a playlist, play/pause, next
    and previous, and a one-second tick over a fixed 240-second track with
    no repeat. Unlike the finished player, skipping keeps the player paused
    or playing as it was. */
module SpotifyStep3 {
  import opened Options
  import Content
  import Clock
  import Spotify

  /** The step's playlist: the section titles, by "Cursor", with made-up
      lengths. */
  const Playlists: seq<Spotify.Track> := [
    Spotify.Track(1, "Type Your Idea, See It in Action", "Cursor", "3:45", Content.Section1.description),
    Spotify.Track(2, "Refine Your Project with an AI Engineer", "Cursor", "4:12", Content.Section2.description),
    Spotify.Track(3, "Move Fast Without Compromising Quality", "Cursor", "3:30", Content.Section3.description),
    Spotify.Track(4, "Scale to Pro Anytime", "Cursor", "2:55", Content.Section4.description)
  ]

  const TrackCount: int := 4

  /** The `duration` state: 240 seconds, never set again. */
  const Duration: int := 240

  /** `isPlaying`, `currentTime` and `currentTrack`. */
  datatype Playback = Playback(playing: bool, time: int, track: int)

  const Initial: Playback := Playback(false, 0, 0)

  predicate Bounded(p: Playback) {
    0 <= p.track < TrackCount && 0 <= p.time < Duration
  }

  function PlayPause(p: Playback): (r: Playback)
    ensures r.playing != p.playing && r.(playing := p.playing) == p
  {
    p.(playing := !p.playing)
  }

  /** `nextTrack`: the following track from 0:00; whether it plays is left
      as it was. */
  function Next(p: Playback): (r: Playback)
    ensures 0 <= p.track < TrackCount ==> r.track == if p.track == TrackCount - 1 then 0 else p.track + 1
    ensures r.time == 0 && r.playing == p.playing
  {
    p.(track := (p.track + 1) % TrackCount, time := 0)
  }

  /** `prevTrack`: the preceding track from 0:00, playing or not as before. */
  function Prev(p: Playback): (r: Playback)
    ensures 0 <= p.track < TrackCount ==> r.track == if p.track == 0 then TrackCount - 1 else p.track - 1
    ensures r.time == 0 && r.playing == p.playing
  {
    p.(track := (p.track - 1 + TrackCount) % TrackCount, time := 0)
  }

  /** One firing of the interval: one second more, or the next track once
      the end of the 240 seconds is reached. */
  function Tick(p: Playback): (r: Playback)
    ensures !p.playing || p.time >= Duration ==> r == p
    ensures p.playing && p.time + 1 < Duration ==> r == p.(time := p.time + 1)
    ensures p.playing && p.time < Duration <= p.time + 1 ==> r == Next(p)
  {
    if p.playing && p.time < Duration then
      var newTime := p.time + 1;
      if newTime >= Duration then Next(p) else p.(time := newTime)
    else
      p
  }

  function Ticks(p: Playback, k: nat): Playback {
    if k == 0 then p else Tick(Ticks(p, k - 1))
  }

  /** The title and the artist shown for the current track. */
  function NowPlaying(p: Playback): (r: (string, string))
    requires Bounded(p)
    ensures r.1 == Content.Title
  {
    (Playlists[p.track].title, Playlists[p.track].artist)
  }

  /** The two clocks under the progress bar: time played, and the track's
      total length. */
  function Clocks(p: Playback): (string, string) {
    (Clock.FormatTime(p.time), Clock.FormatTime(Duration))
  }

  /** Every transition keeps the track and the clock in range. */
  lemma TransitionsBounded(p: Playback)
    requires Bounded(p)
    ensures Bounded(PlayPause(p)) && Bounded(Next(p)) && Bounded(Prev(p)) && Bounded(Tick(p))
  {
  }

  /** Previous and next undo each other, up to restarting the track. */
  lemma NextPrevInverse(p: Playback)
    requires Bounded(p)
    ensures Prev(Next(p)) == p.(time := 0)
    ensures Next(Prev(p)) == p.(time := 0)
  {
  }

  lemma {:induction false} TicksWithinTrack(p: Playback, k: nat)
    requires p.playing && 0 <= p.time && p.time + k < Duration
    ensures Ticks(p, k) == p.(time := p.time + k)
  {
    if k > 0 {
      TicksWithinTrack(p, k - 1);
    }
  }

  /** Played from 0:00, a track lasts 240 seconds and then the next one
      starts from 0:00, still playing; there is no repeat. */
  lemma TrackLastsDuration(p: Playback)
    requires Bounded(p) && p.playing && p.time == 0
    ensures forall k :: 0 < k < Duration ==> Ticks(p, k).track == p.track && Ticks(p, k).time == k
    ensures Ticks(p, Duration) == Next(p) && Ticks(p, Duration).playing
  {
    forall k | 0 < k < Duration
      ensures Ticks(p, k).track == p.track && Ticks(p, k).time == k
    {
      TicksWithinTrack(p, k);
    }
    TicksWithinTrack(p, Duration - 1);
  }

  /** The tracks are the product's four sections, in order, by "Cursor". */
  lemma TracksAreSections(i: int)
    requires 0 <= i < TrackCount
    ensures var s := [Content.Section1, Content.Section2, Content.Section3, Content.Section4][i];
      Playlists[i].title == s.title && Playlists[i].description == s.description
    ensures Playlists[i].artist == Content.Title
  {
  }

  /** The total clock always reads "4:00", and no listed track length is
      four minutes. */
  lemma TotalClock(p: Playback, i: int)
    requires 0 <= i < TrackCount
    ensures Clocks(p).1 == "4:00"
    ensures Playlists[i].duration != Clocks(p).1
  {
    Clock.FourMinutes();
  }

  /** The elapsed clock reads back as the time played. */
  lemma ElapsedReadsBack(p: Playback)
    requires Bounded(p)
    ensures Clock.ParseTime(Clocks(p).0) == Some(p.time)
  {
    Clock.ParseFormatTime(p.time);
  }

  /** The step's player object. */
  class Player {
    var playing: bool
    var time: int
    var track: int

    function State(): Playback
      reads this
    {
      Playback(playing, time, track)
    }

    ghost predicate Valid()
      reads this
    {
      Bounded(State())
    }

    constructor()
      ensures State() == Initial && Valid()
    {
      playing, time, track := false, 0, 0;
    }

    method TogglePlayPause()
      requires Valid()
      modifies this
      ensures State() == PlayPause(old(State())) && Valid()
    {
      playing := !playing;
    }

    method NextTrack()
      requires Valid()
      modifies this
      ensures State() == Next(old(State())) && Valid()
    {
      track := (track + 1) % TrackCount;
      time := 0;
    }

    method PrevTrack()
      requires Valid()
      modifies this
      ensures State() == Prev(old(State())) && Valid()
    {
      track := (track - 1 + TrackCount) % TrackCount;
      time := 0;
    }

    method TimerTick()
      requires Valid()
      modifies this
      ensures State() == Tick(old(State())) && Valid()
    {
      if playing && time < Duration {
        var newTime := time + 1;
        if newTime >= Duration {
          NextTrack();
        } else {
          time := newTime;
        }
      }
    }
  }
}

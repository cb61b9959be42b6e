/** The finished music player (`SpotifyFinal`): a fixed playlist of four
    tracks, play/pause, next and previous track, a one-second tick that
    moves the clock and rolls over to the next track (or back to the start
    under repeat), the like/shuffle/repeat toggles, and the keyboard
    shortcuts. */
module Spotify {
  import opened Options
  import opened Text
  import Clock

  datatype Track = Track(id: nat, title: string, artist: string, duration: string, description: string)

  const Playlists: seq<Track> := [
    Track(1, "Yellow", "Coldplay", "4:27", "From the album Parachutes"),
    Track(2, "The Scientist", "Coldplay", "5:09", "From the album A Rush of Blood to the Head"),
    Track(3, "Fix You", "Coldplay", "4:54", "From the album X&Y"),
    Track(4, "Viva la Vida", "Coldplay", "4:01", "From the album Viva la Vida or Death and All His Friends")
  ]

  /** `playlists.length`. */
  const TrackCount: int := 4

  /** The `duration` state: 267 seconds, and no handler ever sets it. */
  const Duration: int := 267

  /** The player's state: `isPlaying`, `currentTime`, `currentTrack`,
      `isShuffle`, `isRepeat` and `isLiked`. */
  datatype Playback = Playback(playing: bool, time: int, track: int, shuffle: bool, repeat: bool, liked: bool)

  /** The state on mount: paused at 0:00 on the first track, every toggle off. */
  const Initial: Playback := Playback(false, 0, 0, false, false, false)

  /** What every reachable state satisfies: the track indexes the playlist
      and the clock is inside the track. */
  predicate Bounded(p: Playback) {
    0 <= p.track < TrackCount && 0 <= p.time < Duration
  }

  /** `togglePlayPause`. */
  function PlayPause(p: Playback): (r: Playback)
    ensures r.playing != p.playing && r.(playing := p.playing) == p
  {
    p.(playing := !p.playing)
  }

  /** `nextTrack`: the following track, wrapping from the last to the first,
      from 0:00, playing. */
  function Next(p: Playback): (r: Playback)
    ensures 0 <= p.track < TrackCount ==> r.track == if p.track == TrackCount - 1 then 0 else p.track + 1
    ensures r.time == 0 && r.playing
    ensures r.(track := p.track, time := p.time, playing := p.playing) == p
  {
    p.(track := (p.track + 1) % TrackCount, time := 0, playing := true)
  }

  /** `prevTrack`: the preceding track, wrapping from the first to the last,
      from 0:00, playing. */
  function Prev(p: Playback): (r: Playback)
    ensures 0 <= p.track < TrackCount ==> r.track == if p.track == 0 then TrackCount - 1 else p.track - 1
    ensures r.time == 0 && r.playing
    ensures r.(track := p.track, time := p.time, playing := p.playing) == p
  {
    p.(track := (p.track - 1 + TrackCount) % TrackCount, time := 0, playing := true)
  }

  /** One firing of the one-second interval. The interval only runs while
      playing and before the end of the track; the second that reaches the
      end goes back to 0:00, on the same track under repeat and on the next
      track otherwise. */
  function Tick(p: Playback): (r: Playback)
    ensures !p.playing || p.time >= Duration ==> r == p
    ensures p.playing && p.time + 1 < Duration ==> r == p.(time := p.time + 1)
    ensures p.playing && p.time < Duration <= p.time + 1 ==> r == if p.repeat then p.(time := 0) else Next(p)
  {
    if p.playing && p.time < Duration then
      var newTime := p.time + 1;
      if newTime >= Duration then
        if p.repeat then p.(time := 0) else Next(p)
      else
        p.(time := newTime)
    else
      p
  }

  /** `handleKeyPress`: nothing while typing in an input or a text area;
      the space bar plays or pauses; "n" and "p", in either case, skip to
      the next and the previous track. */
  function KeyPress(p: Playback, key: string, code: string, targetIsInput: bool): Playback {
    if targetIsInput then p
    else if key == " " || code == "Space" then PlayPause(p)
    else if Lower(key) == "n" then Next(p)
    else if Lower(key) == "p" then Prev(p)
    else p
  }

  /** The clock under the progress bar: the time played and, after a minus
      sign, the time left of the 267 seconds. */
  function Elapsed(p: Playback): string {
    Clock.FormatTime(p.time)
  }

  function Remaining(p: Playback): string {
    Clock.FormatRemainingTime(p.time, Duration)
  }

  /** The start state is a reachable state, paused. */
  lemma InitialBounded()
    ensures Bounded(Initial) && !Initial.playing
  {
  }

  /** Every transition keeps the track and the clock in range. */
  lemma TransitionsBounded(p: Playback, key: string, code: string, targetIsInput: bool)
    requires Bounded(p)
    ensures Bounded(PlayPause(p)) && Bounded(Next(p)) && Bounded(Prev(p))
    ensures Bounded(Tick(p)) && Bounded(KeyPress(p, key, code, targetIsInput))
  {
  }

  /** Previous undoes next and next undoes previous, up to the restart of
      the track and the player being left playing. */
  lemma NextPrevInverse(p: Playback)
    requires Bounded(p)
    ensures Prev(Next(p)) == p.(time := 0, playing := true)
    ensures Next(Prev(p)) == p.(time := 0, playing := true)
  {
  }

  /** Pressing next once per track comes back to the starting track. */
  lemma NextCycles(p: Playback)
    requires Bounded(p)
    ensures Next(Next(Next(Next(p)))) == p.(time := 0, playing := true)
  {
  }

  /** `k` firings of the interval in a row. */
  function Ticks(p: Playback, k: nat): Playback {
    if k == 0 then p else Tick(Ticks(p, k - 1))
  }

  /** While playing inside a track each second adds one to the clock. */
  lemma {:induction false} TicksWithinTrack(p: Playback, k: nat)
    requires p.playing && 0 <= p.time && p.time + k < Duration
    ensures Ticks(p, k) == p.(time := p.time + k)
  {
    if k > 0 {
      TicksWithinTrack(p, k - 1);
    }
  }

  /** A track played from 0:00 lasts exactly 267 seconds: after that many
      firings the player is at 0:00 again, on the same track under repeat
      and on the next track otherwise, and still playing. */
  lemma TrackLastsDuration(p: Playback)
    requires Bounded(p) && p.playing && p.time == 0
    ensures forall k :: 0 < k < Duration ==> Ticks(p, k).track == p.track && Ticks(p, k).time == k
    ensures Ticks(p, Duration) == if p.repeat then p else Next(p)
  {
    forall k | 0 < k < Duration
      ensures Ticks(p, k).track == p.track && Ticks(p, k).time == k
    {
      TicksWithinTrack(p, k);
    }
    TicksWithinTrack(p, Duration - 1);
  }

  /** The shortcuts: an input target swallows every key; otherwise the
      space bar (by key or by code) plays or pauses, "n" or "N" skips
      forward, "p" or "P" skips back, and any other key changes nothing. */
  lemma KeyBindings(p: Playback, key: string, code: string, targetIsInput: bool)
    ensures targetIsInput ==> KeyPress(p, key, code, targetIsInput) == p
    ensures !targetIsInput && (key == " " || code == "Space") ==> KeyPress(p, key, code, targetIsInput) == PlayPause(p)
    ensures !targetIsInput && code != "Space" && (key == "n" || key == "N") ==> KeyPress(p, key, code, targetIsInput) == Next(p)
    ensures !targetIsInput && code != "Space" && (key == "p" || key == "P") ==> KeyPress(p, key, code, targetIsInput) == Prev(p)
    ensures !targetIsInput && key !in [" ", "n", "N", "p", "P"] && code != "Space" ==> KeyPress(p, key, code, targetIsInput) == p
  {
    LowerIsLetter(key, 'n');
    LowerIsLetter(key, 'p');
  }

  /** The clock reads 0:00 and -4:27 at the start. */
  lemma InitialClock()
    ensures Elapsed(Initial) == "0:00" && Remaining(Initial) == "-4:27"
  {
    Clock.FormatTimeShape(0);
    Clock.Yellow();
  }

  /** The time played and the time left always add up to the 267 seconds. */
  lemma ClockAddsUp(p: Playback)
    requires Bounded(p)
    ensures Clock.ParseTime(Elapsed(p)) == Some(p.time)
    ensures |Remaining(p)| > 1 && Remaining(p)[0] == '-'
    ensures Clock.ParseTime(Remaining(p)[1..]) == Some(Duration - p.time)
  {
    Clock.ParseFormatTime(p.time);
    Clock.ParseRemaining(p.time, Duration);
  }

  /** The total of the clock is the listed length of the first track only:
      the player keeps 267 seconds whichever track is current. */
  lemma DurationIsFirstTrack(i: int)
    requires 0 <= i < |Playlists|
    ensures Playlists[i].duration == Clock.FormatTime(Duration) <==> i == 0
  {
    Clock.Yellow();
  }

  /** The player object: one field per piece of state, each handler
      updating them the way the functions above say. */
  class Player {
    var playing: bool
    var time: int
    var track: int
    var shuffle: bool
    var repeat: bool
    var liked: bool

    function State(): Playback
      reads this
    {
      Playback(playing, time, track, shuffle, repeat, liked)
    }

    ghost predicate Valid()
      reads this
    {
      Bounded(State())
    }

    constructor()
      ensures State() == Initial && Valid()
    {
      playing, time, track := false, 0, 0;
      shuffle, repeat, liked := false, false, false;
    }

    method TogglePlayPause()
      requires Valid()
      modifies this
      ensures State() == PlayPause(old(State())) && Valid()
    {
      playing := !playing;
    }

    method NextTrack()
      requires Valid()
      modifies this
      ensures State() == Next(old(State())) && Valid()
    {
      track := (track + 1) % TrackCount;
      time := 0;
      playing := true;
    }

    method PrevTrack()
      requires Valid()
      modifies this
      ensures State() == Prev(old(State())) && Valid()
    {
      track := (track - 1 + TrackCount) % TrackCount;
      time := 0;
      playing := true;
    }

    /** The interval's callback. */
    method TimerTick()
      requires Valid()
      modifies this
      ensures State() == Tick(old(State())) && Valid()
    {
      if playing && time < Duration {
        var newTime := time + 1;
        if newTime >= Duration {
          if repeat {
            time := 0;
          } else {
            NextTrack();
          }
        } else {
          time := newTime;
        }
      }
    }

    method HandleKeyPress(key: string, code: string, targetIsInput: bool)
      requires Valid()
      modifies this
      ensures State() == KeyPress(old(State()), key, code, targetIsInput) && Valid()
    {
      if targetIsInput {
        return;
      }
      if key == " " || code == "Space" {
        TogglePlayPause();
      } else if Lower(key) == "n" {
        NextTrack();
      } else if Lower(key) == "p" {
        PrevTrack();
      }
    }

    /** The heart button. */
    method ToggleLike()
      modifies this
      ensures liked == !old(liked)
      ensures State().(liked := old(liked)) == old(State())
    {
      liked := !liked;
    }

    /** The shuffle button: the flag only, which no handler reads. */
    method ToggleShuffle()
      modifies this
      ensures shuffle == !old(shuffle)
      ensures State().(shuffle := old(shuffle)) == old(State())
    {
      shuffle := !shuffle;
    }

    /** The repeat button, read by the tick at the end of a track. */
    method ToggleRepeat()
      modifies this
      ensures repeat == !old(repeat)
      ensures State().(repeat := old(repeat)) == old(State())
    {
      repeat := !repeat;
    }
  }
}

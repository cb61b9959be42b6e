/** The short-video feed's engagement counters (`TikTokFinal`): five
    screens, each with like, comment and bookmark counts kept as decimal
    strings, a heart that turns red on the first like and stays red, the
    screen-to-video mapping, and the "c" key that shows the controls
    panel. */
module TikTok {
  import opened Text

  /** The three counted reactions. */
  datatype Reaction = Likes | Comments | Bookmarks

  /** One screen's counters, as the strings the view shows. */
  datatype Counts = Counts(likes: string, comments: string, bookmarks: string)

  /** The ids of the five screens of the feed. */
  predicate IsScreen(id: int) {
    1 <= id <= 5
  }

  const Screens: set<int> := {1, 2, 3, 4, 5}

  function Count(c: Counts, r: Reaction): string {
    match r
    case Likes => c.likes
    case Comments => c.comments
    case Bookmarks => c.bookmarks
  }

  /** The counters with one of them replaced. */
  function WithCount(c: Counts, r: Reaction, v: string): (d: Counts)
    ensures Count(d, r) == v
    ensures forall q :: q != r ==> Count(d, q) == Count(c, q)
  {
    match r
    case Likes => c.(likes := v)
    case Comments => c.(comments := v)
    case Bookmarks => c.(bookmarks := v)
  }

  /** Every counter of a screen is a decimal numeral. */
  predicate Numerals(c: Counts) {
    IsNumeral(c.likes) && IsNumeral(c.comments) && IsNumeral(c.bookmarks)
  }

  /** Exactly the five screens are counted, and every count is a numeral. */
  predicate WellFormed(counts: map<int, Counts>) {
    counts.Keys == Screens &&
    forall id :: id in counts ==> Numerals(counts[id])
  }

  /** The counters on mount: "10" of everything on each of the five screens. */
  function InitialCounts(): (m: map<int, Counts>)
    ensures m.Keys == Screens
  {
    map id | id in Screens :: Counts("10", "10", "10")
  }

  /** `incrementCount`'s state update: the counter read as a number, one
      added, and written back as a decimal string. */
  function Increment(counts: map<int, Counts>, id: int, r: Reaction): map<int, Counts>
    requires id in counts && AllDigits(Count(counts[id], r))
  {
    var current := ParseNat(Count(counts[id], r));
    counts[id := WithCount(counts[id], r, NatToString(current + 1))]
  }

  /** A like turns the screen's heart on; the other reactions leave it. */
  function Hearts(hearts: map<int, bool>, id: int, r: Reaction): map<int, bool> {
    if r == Likes then hearts[id := true] else hearts
  }

  /** Whether a screen's heart is shown red. A screen missing from the map
      is shown white. */
  predicate HeartActive(hearts: map<int, bool>, id: int) {
    id in hearts && hearts[id]
  }

  /** `getVideoSource`. */
  function VideoSource(id: int): string {
    if id == 1 then "/TikTok/cursor_vid1.mp4"
    else if id == 2 then "/TikTok/cursor_vid2.mp4"
    else if id == 3 then "/TikTok/cursor_vid3.mp4"
    else if id == 4 then "/TikTok/cursor_vid4.mp4"
    else if id == 5 then "/TikTok/cursor_vid5.mp4"
    else ""
  }

  /** The "c" key shortcut, in either case, flips the panel. */
  function ControlsAfterKey(showControls: bool, key: string): bool {
    if Lower(key) == "c" then !showControls else showControls
  }

  /** The feed starts with "10" on every counter of every screen and no red
      heart. */
  lemma InitialState(id: int, r: Reaction)
    ensures WellFormed(InitialCounts())
    ensures IsScreen(id) ==> Count(InitialCounts()[id], r) == "10"
    ensures !HeartActive(map[], id)
  {
    assert IsNumeral("10");
  }

  /** The first press of any button turns its "10" into "11". */
  lemma FirstPress(id: int, r: Reaction)
    requires IsScreen(id)
    ensures Count(Increment(InitialCounts(), id, r)[id], r) == "11"
  {
    assert NatToString(10) == "10";
    IncrementShows(InitialCounts(), id, r, 10, 11);
    assert NatToString(11) == "11";
  }

  /** An increment adds one to the number the counter shows, keeps it a
      numeral, and leaves every other counter of every screen as it was. */
  lemma IncrementCounts(counts: map<int, Counts>, id: int, r: Reaction)
    requires WellFormed(counts) && id in counts
    ensures var after := Increment(counts, id, r);
      WellFormed(after) &&
      ParseNat(Count(after[id], r)) == ParseNat(Count(counts[id], r)) + 1 &&
      (forall q :: q != r ==> Count(after[id], q) == Count(counts[id], q)) &&
      (forall other :: other in counts && other != id ==> after[other] == counts[other])
  {
    var n := ParseNat(Count(counts[id], r));
    ParseNatToString(n + 1);
  }

  /** `k` presses of the same button. */
  function Presses(counts: map<int, Counts>, id: int, r: Reaction, k: nat): (m: map<int, Counts>)
    requires id in counts && AllDigits(Count(counts[id], r))
    ensures m.Keys == counts.Keys && AllDigits(Count(m[id], r))
  {
    if k == 0 then counts
    else
      var before := Presses(counts, id, r, k - 1);
      Increment(before, id, r)
  }

  /** After `k` presses the counter shows its old number plus `k`, in
      decimal. */
  lemma PressesAdd(counts: map<int, Counts>, id: int, r: Reaction, k: nat)
    requires WellFormed(counts) && id in counts
    ensures AllDigits(Count(counts[id], r))
    ensures Count(Presses(counts, id, r, k)[id], r) == NatToString(ParseNat(Count(counts[id], r)) + k)
  {
    NumeralCount(counts, id, r);
    NatToStringParse(Count(counts[id], r));
    PressesFrom(counts, id, r, k, ParseNat(Count(counts[id], r)));
  }

  lemma {:induction false} PressesFrom(counts: map<int, Counts>, id: int, r: Reaction, k: nat, n: nat)
    requires id in counts && Count(counts[id], r) == NatToString(n)
    ensures Count(Presses(counts, id, r, k)[id], r) == NatToString(n + k)
  {
    if k > 0 {
      var before := Presses(counts, id, r, k - 1);
      assert Count(before[id], r) == NatToString(n + (k - 1)) by {
        PressesFrom(counts, id, r, k - 1, n);
      }
      IncrementShows(before, id, r, n + (k - 1), n + k);
    }
  }

  lemma NumeralCount(counts: map<int, Counts>, id: int, r: Reaction)
    requires WellFormed(counts) && id in counts
    ensures IsNumeral(Count(counts[id], r))
  {
    assert Numerals(counts[id]);
  }

  /** A counter showing `n` shows `n + 1` after an increment. */
  lemma IncrementShows(counts: map<int, Counts>, id: int, r: Reaction, n: nat, n1: nat)
    requires id in counts && Count(counts[id], r) == NatToString(n) && n1 == n + 1
    ensures Count(Increment(counts, id, r)[id], r) == NatToString(n1)
  {
    ParseNatToString(n);
  }

  /** A heart once red stays red, whatever is pressed on whichever screen;
      a like makes it red; comments and bookmarks change no heart. */
  lemma HeartsSticky(hearts: map<int, bool>, id: int, r: Reaction, other: int)
    ensures HeartActive(hearts, other) ==> HeartActive(Hearts(hearts, id, r), other)
    ensures r == Likes ==> HeartActive(Hearts(hearts, id, r), id)
    ensures r != Likes ==> Hearts(hearts, id, r) == hearts
    ensures other != id ==> (HeartActive(Hearts(hearts, id, r), other) <==> HeartActive(hearts, other))
  {
  }

  /** Each screen plays its own numbered clip; any other id has no source. */
  lemma VideoSourceNumbered(id: int)
    ensures IsScreen(id) ==> VideoSource(id) == "/TikTok/cursor_vid" + NatToString(id) + ".mp4"
    ensures !IsScreen(id) ==> VideoSource(id) == ""
  {
    if IsScreen(id) {
      assert NatToString(id) == [DigitChar(id)];
      assert DigitChar(id) == "12345"[id - 1];
    }
  }

  /** Different screens play different clips. */
  lemma VideoSourcesDistinct(a: int, b: int)
    requires IsScreen(a) && IsScreen(b) && a != b
    ensures VideoSource(a) != VideoSource(b)
  {
    VideoSourceNumbered(a);
    VideoSourceNumbered(b);
    assert VideoSource(a)[18] != VideoSource(b)[18];
  }

  /** "c" and "C" flip the panel; every other key leaves it. */
  lemma ControlsKey(showControls: bool, key: string)
    ensures ControlsAfterKey(showControls, key) != showControls <==> key == "c" || key == "C"
  {
    LowerIsLetter(key, 'c');
  }

  /** The feed component's state: the counters, the hearts and the panel
      flag. */
  class Feed {
    var counts: map<int, Counts>
    var hearts: map<int, bool>
    var showControls: bool

    ghost predicate Valid()
      reads this
    {
      WellFormed(counts)
    }

    constructor()
      ensures counts == InitialCounts() && hearts == map[] && !showControls
      ensures Valid()
    {
      counts := InitialCounts();
      hearts := map[];
      showControls := false;
      InitialState(1, Likes);
    }

    /** A press of a like, comment or bookmark button on screen `id`. */
    method IncrementCount(id: int, r: Reaction)
      requires Valid() && id in counts
      modifies this
      ensures counts == Increment(old(counts), id, r)
      ensures hearts == Hearts(old(hearts), id, r)
      ensures showControls == old(showControls)
      ensures Valid()
    {
      var current := ParseNat(Count(counts[id], r));
      var next := counts[id := WithCount(counts[id], r, NatToString(current + 1))];
      assert WellFormed(next) by {
        IncrementCounts(counts, id, r);
      }
      counts := next;
      if r == Likes {
        hearts := hearts[id := true];
      }
    }

    method HandleKeyPress(key: string)
      modifies this
      ensures showControls == ControlsAfterKey(old(showControls), key)
      ensures counts == old(counts) && hearts == old(hearts)
    {
      if Lower(key) == "c" {
        showControls := !showControls;
      }
    }
  }
}

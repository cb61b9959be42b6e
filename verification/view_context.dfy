/** The global navigation controller: which of the five app lookalikes is on
    screen, which of its four build steps is shown, whether the onboarding
    overlay is up and whether the controls overlay is visible, and the
    prioritised keyboard dispatcher that changes them. */
module ViewContext {

  /** The five views; `Gallery` is the view the program calls "3d". */
  datatype View = TikTok | Spotify | Spreadsheet | Gallery | Terminal

  /** The cycling order of the views. */
  const Views: seq<View> := [TikTok, Spotify, Spreadsheet, Gallery, Terminal]

  /** `VIEWS.indexOf(v)`: every view occurs in the list, exactly once. */
  function IndexOf(v: View): (i: nat)
    ensures i < |Views| && Views[i] == v
    ensures forall j :: 0 <= j < |Views| && Views[j] == v ==> j == i
  {
    match v
    case TikTok => 0
    case Spotify => 1
    case Spreadsheet => 2
    case Gallery => 3
    case Terminal => 4
  }

  /** The updater `nextView` applies to the previous view. */
  function ViewAfter(v: View): (w: View)
    ensures IndexOf(w) == (IndexOf(v) + 1) % |Views|
  {
    Views[(IndexOf(v) + 1) % |Views|]
  }

  /** The updater `previousView` applies to the previous view. */
  function ViewBefore(v: View): (w: View)
    ensures IndexOf(w) == (IndexOf(v) - 1 + |Views|) % |Views|
  {
    Views[(IndexOf(v) - 1 + |Views|) % |Views|]
  }

  /** A build step, 1 to 4. */
  type Step = s: int | 1 <= s <= 4 witness 1

  /** The updater `nextBuildStep` applies: one step on, saturating at 4. */
  function StepAfter(s: Step): (r: Step)
    ensures s <= r <= s + 1
    ensures r == s <==> s == 4
  {
    if s < 4 then s + 1 else s
  }

  /** The updater `previousBuildStep` applies: one step back, saturating at 1. */
  function StepBefore(s: Step): (r: Step)
    ensures s - 1 <= r <= s
    ensures r == s <==> s == 1
  {
    if s > 1 then s - 1 else s
  }

  /** The four fields of the provider's state. */
  datatype Nav = Nav(currentView: View, buildStep: Step, showOnboarding: bool, showControls: bool)

  /** The state every page load starts in. */
  const Initial: Nav := Nav(TikTok, 1, true, false)

  /** What one key event does to the state (`handleKeyPress`): the controls
      toggle first (not in the terminal view), then Tab closing the onboarding
      overlay, then, only once onboarding is over, Tab, ArrowRight, ArrowLeft and
      Escape. */
  function Dispatch(s: Nav, key: string): (t: Nav)
  {
    if (key == "c" || key == "C") && s.currentView != Terminal then
      s.(showControls := !s.showControls)
    else if s.showOnboarding && key == "Tab" then
      s.(showOnboarding := false)
    else if !s.showOnboarding then
      if key == "Tab" then s.(buildStep := StepAfter(s.buildStep))
      else if key == "ArrowRight" then s.(currentView := ViewAfter(s.currentView))
      else if key == "ArrowLeft" then s.(currentView := ViewBefore(s.currentView))
      else if key == "Escape" then s.(buildStep := StepBefore(s.buildStep))
      else s
    else
      s
  }

  /** The state after a sequence of key events, one at a time in order. */
  function Run(s: Nav, keys: seq<string>): (t: Nav)
    decreases |keys|
  {
    if keys == [] then s else Run(Dispatch(s, keys[0]), keys[1..])
  }

  /** The keys the dispatcher reacts to at all. */
  predicate IsBoundKey(key: string) {
    key in {"c", "C", "Tab", "Escape", "ArrowLeft", "ArrowRight"}
  }

  /** `v` moved `n` places forward. */
  function Forward(v: View, n: nat): View
    decreases n
  {
    if n == 0 then v else ViewAfter(Forward(v, n - 1))
  }

  // ---------------------------------------------------------------------
  // Properties of the view and step updaters

  /** The forward cycle is tiktok, spotify, spreadsheet, 3d, terminal and back. */
  lemma CycleOrder()
    ensures ViewAfter(TikTok) == Spotify && ViewAfter(Spotify) == Spreadsheet
    ensures ViewAfter(Spreadsheet) == Gallery && ViewAfter(Gallery) == Terminal
    ensures ViewAfter(Terminal) == TikTok
  {
  }

  /** Moving `n` places forward lands `n` places further in the list, modulo its length. */
  lemma {:induction false} ForwardIndex(v: View, n: nat)
    ensures IndexOf(Forward(v, n)) == (IndexOf(v) + n) % |Views|
  {
    if n > 0 {
      ForwardIndex(v, n - 1);
      ModSucc(IndexOf(v) + n - 1);
    }
  }

  lemma ModSucc(a: nat)
    ensures ((a % 5) + 1) % 5 == (a + 1) % 5
  {
    var q, r := a / 5, a % 5;
    assert a == 5 * q + r;
    if r < 4 {
      assert a + 1 == 5 * q + (r + 1);
    } else {
      assert a + 1 == 5 * (q + 1);
    }
  }

  /** Any multiple of five forward moves returns to the starting view. */
  lemma ForwardWholeCycles(v: View, k: nat)
    ensures Forward(v, 5 * k) == v
  {
    ForwardIndex(v, 5 * k);
    var i := IndexOf(v);
    assert (i + 5 * k) / 5 == k && (i + 5 * k) % 5 == i by {
      assert i + 5 * k == 5 * k + i && 0 <= i < 5;
    }
  }

  /** `previousView` undoes `nextView` and `nextView` undoes `previousView`. */
  lemma ViewBeforeAfter(v: View)
    ensures ViewBefore(ViewAfter(v)) == v
    ensures ViewAfter(ViewBefore(v)) == v
  {
    match v
    case TikTok =>
    case Spotify =>
    case Spreadsheet =>
    case Gallery =>
    case Terminal =>
  }

  // ---------------------------------------------------------------------
  // Properties of the dispatcher

  /** The build step stays within 1..4 under any sequence of keys, and each key
      moves it by at most one. */
  lemma {:induction false} RunStepBounds(s: Nav, keys: seq<string>)
    ensures 1 <= Run(s, keys).buildStep <= 4
    ensures s.buildStep - |keys| <= Run(s, keys).buildStep <= s.buildStep + |keys|
    decreases |keys|
  {
    if keys != [] {
      RunStepBounds(Dispatch(s, keys[0]), keys[1..]);
    }
  }

  /** `c` or `C` outside the terminal view flips the controls flag and nothing
      else, whether or not the onboarding overlay is up. */
  lemma ControlsToggle(s: Nav, key: string)
    requires key == "c" || key == "C"
    requires s.currentView != Terminal
    ensures Dispatch(s, key) == s.(showControls := !s.showControls)
    ensures Dispatch(Dispatch(s, key), key) == s
  {
  }

  /** In the terminal view `c` is passed over and changes nothing. */
  lemma TerminalIgnoresC(s: Nav, key: string)
    requires key == "c" || key == "C"
    requires s.currentView == Terminal
    ensures Dispatch(s, key) == s
  {
  }

  /** While onboarding is up, Tab only closes it, the toggle key only toggles,
      and every other key (arrows and Escape included) changes nothing. */
  lemma OnboardingGate(s: Nav, key: string)
    requires s.showOnboarding
    ensures key == "Tab" ==> Dispatch(s, key) == s.(showOnboarding := false)
    ensures key != "Tab" && !((key == "c" || key == "C") && s.currentView != Terminal) ==>
              Dispatch(s, key) == s
    ensures Dispatch(s, key).currentView == s.currentView
    ensures Dispatch(s, key).buildStep == s.buildStep
  {
  }

  /** Closing the onboarding overlay a second time (the overlay's own Tab
      listener does it for the same key event) changes nothing more: the Tab
      that closes the overlay does not also advance the step. */
  lemma CompleteOnboardingIdempotent(s: Nav)
    requires s.showOnboarding
    ensures Dispatch(s, "Tab").(showOnboarding := false) == Dispatch(s, "Tab")
    ensures Dispatch(s, "Tab").buildStep == s.buildStep
  {
  }

  /** Until Tab is pressed, the visitor stays on the first build step of the
      short-video view with the onboarding overlay up. */
  lemma {:induction false} OnboardingHoldsStart(keys: seq<string>)
    requires "Tab" !in keys
    ensures Run(Initial, keys).currentView == TikTok
    ensures Run(Initial, keys).buildStep == 1
    ensures Run(Initial, keys).showOnboarding
  {
    OnboardingHolds(Initial, keys);
  }

  lemma {:induction false} OnboardingHolds(s: Nav, keys: seq<string>)
    requires s.showOnboarding
    requires "Tab" !in keys
    ensures Run(s, keys).currentView == s.currentView
    ensures Run(s, keys).buildStep == s.buildStep
    ensures Run(s, keys).showOnboarding
    decreases |keys|
  {
    if keys != [] {
      assert keys[0] in keys;
      assert forall k :: k in keys[1..] ==> k in keys;
      OnboardingHolds(Dispatch(s, keys[0]), keys[1..]);
    }
  }

  /** Once onboarding is over, Tab, Escape, ArrowRight and ArrowLeft move the
      step or the view (and only it), and any key that is not bound leaves all
      four fields as they were. */
  lemma AfterOnboarding(s: Nav, key: string)
    requires !s.showOnboarding
    ensures key == "Tab" ==> Dispatch(s, key) == s.(buildStep := StepAfter(s.buildStep))
    ensures key == "Escape" ==> Dispatch(s, key) == s.(buildStep := StepBefore(s.buildStep))
    ensures key == "ArrowRight" ==> Dispatch(s, key) == s.(currentView := ViewAfter(s.currentView))
    ensures key == "ArrowLeft" ==> Dispatch(s, key) == s.(currentView := ViewBefore(s.currentView))
    ensures !IsBoundKey(key) ==> Dispatch(s, key) == s
  {
  }

  /** A dispatch never both moves the view and changes the step. */
  lemma ViewAndStepIndependent(s: Nav, key: string)
    ensures Dispatch(s, key).currentView == s.currentView || Dispatch(s, key).buildStep == s.buildStep
    ensures Dispatch(s, key).showOnboarding ==> s.showOnboarding
  {
  }

  /** The provider, with the four pieces of state it owns. */
  class ViewProvider {
    var currentView: View
    var buildStep: Step
    var showOnboarding: bool
    var showControls: bool

    function State(): Nav
      reads this
    {
      Nav(currentView, buildStep, showOnboarding, showControls)
    }

    constructor ()
      ensures State() == Initial
    {
      currentView := TikTok;
      buildStep := 1;
      showOnboarding := true;
      showControls := false;
    }

    method CompleteOnboarding()
      modifies this
      ensures State() == old(State()).(showOnboarding := false)
    {
      showOnboarding := false;
    }

    method ToggleControls()
      modifies this
      ensures State() == old(State()).(showControls := !old(showControls))
    {
      showControls := !showControls;
    }

    method NextView()
      modifies this
      ensures State() == old(State()).(currentView := ViewAfter(old(currentView)))
    {
      var i := (IndexOf(currentView) + 1) % |Views|;
      currentView := Views[i];
    }

    method PreviousView()
      modifies this
      ensures State() == old(State()).(currentView := ViewBefore(old(currentView)))
    {
      var i := (IndexOf(currentView) - 1 + |Views|) % |Views|;
      currentView := Views[i];
    }

    method NextBuildStep()
      modifies this
      ensures State() == old(State()).(buildStep := StepAfter(old(buildStep)))
    {
      if buildStep < 4 {
        buildStep := buildStep + 1;
      }
    }

    method PreviousBuildStep()
      modifies this
      ensures State() == old(State()).(buildStep := StepBefore(old(buildStep)))
    {
      if buildStep > 1 {
        buildStep := buildStep - 1;
      }
    }

    /** The window `keydown` listener. */
    method HandleKeyPress(key: string)
      modifies this
      ensures State() == Dispatch(old(State()), key)
    {
      if (key == "c" || key == "C") && currentView != Terminal {
        ToggleControls();
        return;
      }
      if showOnboarding && key == "Tab" {
        CompleteOnboarding();
        return;
      }
      if !showOnboarding {
        if key == "Tab" {
          NextBuildStep();
        } else if key == "ArrowRight" {
          NextView();
        } else if key == "ArrowLeft" {
          PreviousView();
        } else if key == "Escape" {
          PreviousBuildStep();
        }
      }
    }
  }
}

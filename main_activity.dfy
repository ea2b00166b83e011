/**
 * The Android shell of the app: an activity that hides the system bars when
 * it is created and every time its window gains focus, through the insets
 * controller from API level 30 on and through the legacy visibility flags
 * before that.
 */
module MainActivity {

  /** API level 30 (Android 11, `Build.VERSION_CODES.R`). */
  const VersionR: int := 30

  /** The bar kinds of `WindowInsets.Type`; `systemBars()` is all three. */
  datatype Bar = StatusBars | NavigationBars | CaptionBar

  const SystemBars: set<Bar> := {StatusBars, NavigationBars, CaptionBar}

  /** `WindowInsetsController.BEHAVIOR_SHOW_TRANSIENT_BARS_BY_SWIPE`. */
  const ShowTransientBarsBySwipe: int := 2

  /** The legacy `View.SYSTEM_UI_FLAG_*` constants the fallback combines. */
  const FlagHideNavigation: bv32 := 0x2
  const FlagFullscreen: bv32 := 0x4
  const FlagLayoutStable: bv32 := 0x100
  const FlagLayoutHideNavigation: bv32 := 0x200
  const FlagLayoutFullscreen: bv32 := 0x400
  const FlagImmersiveSticky: bv32 := 0x1000

  /** The visibility the fallback sets: the six flags together. */
  const ImmersiveFlags: bv32 :=
    FlagImmersiveSticky | FlagLayoutStable | FlagLayoutHideNavigation |
    FlagLayoutFullscreen | FlagHideNavigation | FlagFullscreen

  /** The combined value, and every one of the six flags is set in it. */
  lemma ImmersiveFlagsValue()
    ensures ImmersiveFlags == 0x1706
    ensures ImmersiveFlags & FlagHideNavigation != 0 && ImmersiveFlags & FlagFullscreen != 0
    ensures ImmersiveFlags & FlagLayoutStable != 0 && ImmersiveFlags & FlagLayoutHideNavigation != 0
    ensures ImmersiveFlags & FlagLayoutFullscreen != 0 && ImmersiveFlags & FlagImmersiveSticky != 0
  {
  }

  /** What of the system UI the activity controls: hidden bars, bar behaviour, legacy visibility flags. */
  datatype SystemUi = SystemUi(hiddenBars: set<Bar>, behavior: int, visibility: bv32)

  /**
   * `hideSystemUI` on a device with API level `sdk`, whose window has an
   * insets controller when `hasController` holds.
   */
  function HideSystemUi(ui: SystemUi, sdk: int, hasController: bool): (r: SystemUi)
    ensures sdk >= VersionR && hasController ==>
      r.hiddenBars == ui.hiddenBars + SystemBars && r.behavior == ShowTransientBarsBySwipe &&
      r.visibility == ui.visibility
    ensures sdk >= VersionR && !hasController ==> r == ui
    ensures sdk < VersionR ==> r.visibility == ImmersiveFlags && r.hiddenBars == ui.hiddenBars && r.behavior == ui.behavior
  {
    if sdk >= VersionR then
      if hasController then SystemUi(ui.hiddenBars + SystemBars, ShowTransientBarsBySwipe, ui.visibility)
      else ui
    else ui.(visibility := ImmersiveFlags)
  }

  /** Hiding twice is hiding once, so each focus gain may hide again safely. */
  lemma HideIdempotent(ui: SystemUi, sdk: int, hasController: bool)
    ensures HideSystemUi(HideSystemUi(ui, sdk, hasController), sdk, hasController) == HideSystemUi(ui, sdk, hasController)
  {
    var once := HideSystemUi(ui, sdk, hasController);
    if sdk >= VersionR && hasController {
      assert once.hiddenBars + SystemBars == once.hiddenBars;
    }
  }

  /** After hiding, the bars are immersive on every device that offers a way to hide them. */
  lemma HiddenAfterHide(ui: SystemUi, sdk: int, hasController: bool)
    ensures var r := HideSystemUi(ui, sdk, hasController);
      (sdk >= VersionR && hasController ==> SystemBars <= r.hiddenBars) &&
      (sdk < VersionR ==> r.visibility & FlagImmersiveSticky != 0 && r.visibility & FlagHideNavigation != 0 && r.visibility & FlagFullscreen != 0)
  {
    ImmersiveFlagsValue();
  }

  class Activity {
    const sdk: int
    const hasController: bool
    var ui: SystemUi
    /** Calls made to the base activity (`BridgeActivity`), in order. */
    var baseCalls: seq<string>

    constructor (sdk: int, hasController: bool, ui: SystemUi)
      ensures this.sdk == sdk && this.hasController == hasController && this.ui == ui && baseCalls == []
    {
      this.sdk := sdk;
      this.hasController := hasController;
      this.ui := ui;
      baseCalls := [];
    }

    method HideSystemUI()
      modifies this
      ensures ui == HideSystemUi(old(ui), sdk, hasController) && baseCalls == old(baseCalls)
    {
      if sdk >= VersionR {
        if hasController {
          ui := ui.(hiddenBars := ui.hiddenBars + SystemBars);
          ui := ui.(behavior := ShowTransientBarsBySwipe);
        }
      } else {
        ui := ui.(visibility := ImmersiveFlags);
      }
    }

    /** `onCreate`: the base activity is created first, then the system UI is hidden. */
    method OnCreate()
      modifies this
      ensures baseCalls == old(baseCalls) + ["onCreate"]
      ensures ui == HideSystemUi(old(ui), sdk, hasController)
    {
      baseCalls := baseCalls + ["onCreate"];
      HideSystemUI();
    }

    /** `onWindowFocusChanged`: the base is told first; the UI is hidden again only when focus is gained. */
    method OnWindowFocusChanged(hasFocus: bool)
      modifies this
      ensures baseCalls == old(baseCalls) + ["onWindowFocusChanged"]
      ensures ui == (if hasFocus then HideSystemUi(old(ui), sdk, hasController) else old(ui))
    {
      baseCalls := baseCalls + ["onWindowFocusChanged"];
      if hasFocus {
        HideSystemUI();
      }
    }
  }
}

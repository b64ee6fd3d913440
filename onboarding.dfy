/**
 * Onboarding: a four-page walkthrough with Previous, Next and Skip, and a
 * stored "completed" flag that decides whether the app opens on the
 * walkthrough or on its main content.
 */
module Onboarding {
  import opened DesignSystem

  /** The `@AppStorage` key of the completion flag. */
  const OnboardingKey: string := "hasCompletedOnboarding"

  /**
   * The app's stored Boolean preferences. Every `@AppStorage` property that
   * names the same key reads and writes the same entry, so the managers
   * here share one `AppStorage` object.
   */
  class AppStorage {
    var flags: map<string, bool>

    constructor(flags: map<string, bool>)
      ensures this.flags == flags
    {
      this.flags := flags;
    }
  }

  /** A stored flag, `false` when it was never written (the property's default). */
  function Flag(flags: map<string, bool>, key: string): bool {
    if key in flags then flags[key] else false
  }

  /** The preferences after the completion flag is set to `done`: that flag reads `done` and every other key is as it was. */
  function WithCompletion(flags: map<string, bool>, done: bool): (r: map<string, bool>)
    ensures Flag(r, OnboardingKey) == done
    ensures forall k | k != OnboardingKey :: Flag(r, k) == Flag(flags, k)
    ensures r.Keys == flags.Keys + {OnboardingKey}
  {
    flags[OnboardingKey := done]
  }

  /** Setting the flag twice to the same value is setting it once, and the last write wins. */
  lemma WithCompletionIdempotent(flags: map<string, bool>, done: bool, again: bool)
    ensures WithCompletion(WithCompletion(flags, done), done) == WithCompletion(flags, done)
    ensures WithCompletion(WithCompletion(flags, done), again) == WithCompletion(flags, again)
  {
  }

  /** `OnboardingManager`. */
  class OnboardingManager {
    const storage: AppStorage

    constructor(storage: AppStorage)
      ensures this.storage == storage
    {
      this.storage := storage;
    }

    function HasCompletedOnboarding(): bool
      reads this, storage
    {
      Flag(storage.flags, OnboardingKey)
    }

    /** `completeOnboarding()`. */
    method CompleteOnboarding()
      modifies storage
      ensures storage.flags == WithCompletion(old(storage.flags), true)
      ensures HasCompletedOnboarding()
    {
      storage.flags := storage.flags[OnboardingKey := true];
    }

    /** `resetOnboarding()`. */
    method ResetOnboarding()
      modifies storage
      ensures storage.flags == WithCompletion(old(storage.flags), false)
      ensures !HasCompletedOnboarding()
    {
      storage.flags := storage.flags[OnboardingKey := false];
    }
  }

  /** A walkthrough page: its heading, icon and accent colour (its `UUID`, body text and feature list are left out). */
  datatype OnboardingPage = OnboardingPage(title: string, subtitle: string, iconName: string, accentColor: PaletteColor)

  /** The four pages of the walkthrough. */
  function Pages(): (pages: seq<OnboardingPage>)
    ensures |pages| == 4
  {
    [
      OnboardingPage("Welcome to", "BlinkRatio", "square.grid.2x2", NeonGreen),
      OnboardingPage("Design", "Reference", "rectangle.ratio.3.to.4", NeonGreen),
      OnboardingPage("Design", "Tools", "wrench.and.screwdriver", NeonBlue),
      OnboardingPage("Favorites &", "Export", "heart.fill", NeonPink)
    ]
  }

  /** `OnboardingView`'s state: its manager and the page on show. */
  class OnboardingView {
    const manager: OnboardingManager
    var currentPage: int

    /** The page on show is one of the pages, so `pages[currentPage]` is defined. */
    predicate Valid()
      reads this
    {
      0 <= currentPage < |Pages()|
    }

    constructor(manager: OnboardingManager)
      ensures this.manager == manager
      ensures currentPage == 0 && Valid()
    {
      this.manager := manager;
      currentPage := 0;
    }

    predicate OnLastPage()
      reads this
    {
      currentPage == |Pages()| - 1
    }

    /** The title of the forward button. */
    function ForwardTitle(): string
      reads this
    {
      if OnLastPage() then "Get Started" else "Next"
    }

    /** The forward button's colour, the page's accent. */
    function AccentColor(): PaletteColor
      requires Valid()
      reads this
    {
      Pages()[currentPage].accentColor
    }

    /** The Previous button is offered only after the first page. */
    predicate OffersPrevious()
      reads this
    {
      currentPage > 0
    }

    /**
     * The forward button: on the last page it completes onboarding and stays
     * put; on any other page it moves one page on and stores nothing.
     */
    method Next()
      requires Valid()
      modifies this`currentPage, manager.storage
      ensures Valid()
      ensures old(OnLastPage()) ==> currentPage == old(currentPage) && manager.HasCompletedOnboarding()
      ensures old(OnLastPage()) ==> manager.storage.flags == WithCompletion(old(manager.storage.flags), true)
      ensures !old(OnLastPage()) ==> currentPage == old(currentPage) + 1 && unchanged(manager.storage)
    {
      if currentPage == |Pages()| - 1 {
        manager.CompleteOnboarding();
      } else {
        currentPage := currentPage + 1;
      }
    }

    /** The Previous button: one page back. */
    method Previous()
      requires Valid() && OffersPrevious()
      modifies this`currentPage
      ensures Valid()
      ensures currentPage == old(currentPage) - 1
    {
      currentPage := currentPage - 1;
    }

    /** Swiping the page view to page `i`: the page on show becomes `i`, and nothing is stored. */
    method SwipeTo(i: int)
      requires 0 <= i < |Pages()|
      modifies this`currentPage
      ensures Valid()
      ensures currentPage == i
    {
      currentPage := i;
    }

    /** The Skip button: completes onboarding from any page. */
    method Skip()
      requires Valid()
      modifies manager.storage
      ensures Valid()
      ensures manager.storage.flags == WithCompletion(old(manager.storage.flags), true)
      ensures manager.HasCompletedOnboarding()
    {
      manager.CompleteOnboarding();
    }
  }

  datatype Screen = ContentScreen | OnboardingScreen

  /** `OnboardingWrapper`: the main content once onboarding is complete, the walkthrough until then. */
  class OnboardingWrapper {
    const manager: OnboardingManager

    constructor(manager: OnboardingManager)
      ensures this.manager == manager
    {
      this.manager := manager;
    }

    function Shown(): (s: Screen)
      reads this, manager, manager.storage
      ensures s == ContentScreen <==> manager.HasCompletedOnboarding()
    {
      if manager.HasCompletedOnboarding() then ContentScreen else OnboardingScreen
    }
  }

  /**
   * The wrapper and the walkthrough keep managers of their own, but both
   * read the same stored flag: once the walkthrough's manager reports
   * completion, the wrapper shows the main content.
   */
  lemma WrapperFollowsWalkthrough(w: OnboardingWrapper, v: OnboardingView)
    requires w.manager.storage == v.manager.storage
    ensures w.Shown() == ContentScreen <==> v.manager.HasCompletedOnboarding()
  {
  }
}

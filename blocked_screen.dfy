/**
 * The ad interstitial of the blocked screen (components/BlockedScreen.tsx).
 * On mount an ad is shown with a five-second countdown; one tick per second
 * lowers it while the ad is visible; the close button only works at zero;
 * half a second after the ad is hidden the score card is revealed. The
 * timers become events: `Tick` and `RevealStats` are the callbacks firing,
 * and each requires the condition under which its effect schedules it.
 */
module BlockedScreen {

  /** The countdown's starting value, in ticks. */
  const AdSeconds := 5

  class AdInterstitial {
    var showStats: bool
    var isAdVisible: bool
    var adCountdown: int
    /** Ticks that have fired since mount. */
    ghost var ticks: nat

    ghost predicate Valid()
      reads this
    {
      && 0 <= adCountdown <= AdSeconds
      && ticks == AdSeconds - adCountdown
      && (!isAdVisible ==> adCountdown == 0)
      && (showStats ==> !isAdVisible)
    }

    /** The state on mount: ad visible, countdown at 5, stats hidden. */
    constructor ()
      ensures Valid()
      ensures isAdVisible && adCountdown == AdSeconds && !showStats && ticks == 0
    {
      showStats := false;
      isAdVisible := true;
      adCountdown := AdSeconds;
      ticks := 0;
    }

    /** The countdown effect arms its one-second timer exactly in this state. */
    predicate TickScheduled()
      reads this
    {
      isAdVisible && adCountdown > 0
    }

    /** The countdown timer fires: the countdown drops by one, and by no more than to zero. */
    method Tick()
      requires Valid() && TickScheduled()
      modifies this
      ensures Valid()
      ensures adCountdown == old(adCountdown) - 1 && adCountdown >= 0
      ensures isAdVisible == old(isAdVisible) && showStats == old(showStats)
      ensures ticks == old(ticks) + 1
    {
      adCountdown := adCountdown - 1;
      ticks := ticks + 1;
    }

    /**
     * `closeAd`: hides the ad once the countdown is zero and does nothing
     * before. Hiding it therefore needs the five ticks of the countdown.
     */
    method CloseAd()
      requires Valid()
      modifies this
      ensures Valid()
      ensures isAdVisible == (old(isAdVisible) && old(adCountdown) != 0)
      ensures adCountdown == old(adCountdown) && showStats == old(showStats) && ticks == old(ticks)
      ensures !isAdVisible ==> ticks >= AdSeconds
    {
      if adCountdown == 0 {
        isAdVisible := false;
      }
    }

    /**
     * The reveal effect arms its half-second timer when the ad becomes
     * hidden; it does so once, because the ad is never shown again.
     */
    predicate RevealScheduled()
      reads this
    {
      !isAdVisible && !showStats
    }

    /** The reveal timer fires: the stats appear, after the ad was hidden. */
    method RevealStats()
      requires Valid() && RevealScheduled()
      modifies this
      ensures Valid()
      ensures showStats && !isAdVisible
      ensures isAdVisible == old(isAdVisible) && adCountdown == old(adCountdown) && ticks == old(ticks)
    {
      showStats := true;
    }
  }

  /**
   * The shortest run from mount to the score card: five ticks, a close and
   * the reveal; every close before the fifth tick is ignored.
   */
  method ShortestRun() returns (ad: AdInterstitial)
    ensures fresh(ad) && ad.Valid()
    ensures ad.showStats && !ad.isAdVisible && ad.ticks == AdSeconds
  {
    ad := new AdInterstitial();
    ad.CloseAd();
    assert ad.isAdVisible;
    ad.Tick(); ad.Tick(); ad.Tick(); ad.Tick();
    ad.CloseAd();
    assert ad.isAdVisible;
    ad.Tick();
    ad.CloseAd();
    ad.RevealStats();
  }
}

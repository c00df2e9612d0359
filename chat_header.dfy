/**
 * The irritation classifiers of the chat header (components/ChatHeader.tsx):
 * the status line under the partner's name, the irritation meter, the avatar
 * ring and presence dot, the call icons and the warning badge. Each maps the
 * irritation level (and, for the status line, the typing flag) to a band;
 * the styling strings each band is drawn with are left to the view.
 */
module ChatHeader {

  /** How many of the ascending thresholds the level has reached. */
  function CountReached(thresholds: seq<int>, level: int): (n: nat)
    ensures n <= |thresholds|
  {
    if thresholds == [] then 0
    else (if thresholds[0] <= level then 1 else 0) + CountReached(thresholds[1..], level)
  }

  /** A higher level has reached at least as many thresholds. */
  lemma {:induction false} CountReachedMonotone(thresholds: seq<int>, a: int, b: int)
    requires a <= b
    ensures CountReached(thresholds, a) <= CountReached(thresholds, b)
  {
    if thresholds != [] {
      CountReachedMonotone(thresholds[1..], a, b);
    }
  }

  /** Unfolds the count for four thresholds in ascending order. */
  lemma CountReachedFour(t0: int, t1: int, t2: int, t3: int, level: int)
    requires t0 <= t1 <= t2 <= t3
    ensures CountReached([t0, t1, t2, t3], level)
            == if level < t0 then 0 else if level < t1 then 1 else if level < t2 then 2
               else if level < t3 then 3 else 4
  {
    assert [t3][1..] == [];
    assert CountReached([t3], level) == if t3 <= level then 1 else 0;
    assert [t2, t3][1..] == [t3];
    assert CountReached([t2, t3], level) == (if t2 <= level then 1 else 0) + CountReached([t3], level);
    assert [t1, t2, t3][1..] == [t2, t3];
    assert CountReached([t1, t2, t3], level) == (if t1 <= level then 1 else 0) + CountReached([t2, t3], level);
    assert [t0, t1, t2, t3][1..] == [t1, t2, t3];
    assert CountReached([t0, t1, t2, t3], level)
        == (if t0 <= level then 1 else 0) + CountReached([t1, t2, t3], level);
  }

  // ---------------------------------------------------------------------------
  // Status line (getStatusInfo)

  /** The partner's mood when not typing, calmest first. */
  datatype Mood = Online | Distracted | Sulking | Furious | AboutToBlock {
    function Rank(): nat {
      match this
      case Online => 0
      case Distracted => 1
      case Sulking => 2
      case Furious => 3
      case AboutToBlock => 4
    }
    function Text(): string {
      match this
      case Online => "Çevrimiçi"
      case Distracted => "Biraz dalgın..."
      case Sulking => "Trip Atıyor..."
      case Furious => "Çok Sinirli!"
      case AboutToBlock => "Engellemek üzere!"
    }
  }

  /** What the status line shows: the typing notice, or a mood. */
  datatype StatusInfo = TypingStatus | MoodStatus(mood: Mood) {
    function Text(): string {
      match this
      case TypingStatus => "yazıyor..."
      case MoodStatus(m) => m.Text()
    }
  }

  /** The levels at which the status line turns one mood worse. */
  const MoodThresholds: seq<int> := [30, 50, 70, 90]

  /**
   * `getStatusInfo`: typing wins; otherwise the mood's rank is the number of
   * mood thresholds the level has reached.
   */
  function GetStatusInfo(isTyping: bool, level: int): (s: StatusInfo)
    ensures isTyping ==> s == TypingStatus
    ensures !isTyping ==> s.MoodStatus? && s.mood.Rank() == CountReached(MoodThresholds, level)
  {
    CountReachedFour(30, 50, 70, 90, level);
    if isTyping then TypingStatus
    else if level < 30 then MoodStatus(Online)
    else if level < 50 then MoodStatus(Distracted)
    else if level < 70 then MoodStatus(Sulking)
    else if level < 90 then MoodStatus(Furious)
    else MoodStatus(AboutToBlock)
  }

  /** While the partner is typing the status reads 'yazıyor...' whatever the level. */
  lemma TypingOverridesLevel(level: int)
    ensures GetStatusInfo(true, level).Text() == "yazıyor..."
  {
  }

  /** The status bands when not typing, each as the range of levels that shows it. */
  lemma MoodBands(level: int)
    ensures GetStatusInfo(false, level) == MoodStatus(Online) <==> level < 30
    ensures GetStatusInfo(false, level) == MoodStatus(Distracted) <==> 30 <= level < 50
    ensures GetStatusInfo(false, level) == MoodStatus(Sulking) <==> 50 <= level < 70
    ensures GetStatusInfo(false, level) == MoodStatus(Furious) <==> 70 <= level < 90
    ensures GetStatusInfo(false, level) == MoodStatus(AboutToBlock) <==> 90 <= level
  {
  }

  /** A higher level never shows a calmer mood. */
  lemma MoodMonotone(a: int, b: int)
    requires a <= b
    ensures GetStatusInfo(false, a).mood.Rank() <= GetStatusInfo(false, b).mood.Rank()
  {
    CountReachedMonotone(MoodThresholds, a, b);
  }

  // ---------------------------------------------------------------------------
  // Irritation meter (getBarStyles)

  /** The meter's look, calmest first. */
  datatype MeterBand = Calm | Warning | Dangerous | VeryDangerous | Critical {
    function Rank(): nat {
      match this
      case Calm => 0
      case Warning => 1
      case Dangerous => 2
      case VeryDangerous => 3
      case Critical => 4
    }
  }

  /** The levels at which the meter turns one band worse. */
  const MeterThresholds: seq<int> := [30, 50, 80, 90]

  /** `getBarStyles`: the band's rank is the number of meter thresholds reached. */
  function GetBarStyle(level: int): (b: MeterBand)
    ensures b.Rank() == CountReached(MeterThresholds, level)
  {
    CountReachedFour(30, 50, 80, 90, level);
    if level >= 90 then Critical
    else if level >= 80 then VeryDangerous
    else if level >= 50 then Dangerous
    else if level >= 30 then Warning
    else Calm
  }

  /** The meter bands as level ranges; they are disjoint and cover every level. */
  lemma MeterBands(level: int)
    ensures GetBarStyle(level) == Critical <==> 90 <= level
    ensures GetBarStyle(level) == VeryDangerous <==> 80 <= level < 90
    ensures GetBarStyle(level) == Dangerous <==> 50 <= level < 80
    ensures GetBarStyle(level) == Warning <==> 30 <= level < 50
    ensures GetBarStyle(level) == Calm <==> level < 30
  {
  }

  /** A higher level never shows a calmer meter. */
  lemma MeterMonotone(a: int, b: int)
    requires a <= b
    ensures GetBarStyle(a).Rank() <= GetBarStyle(b).Rank()
  {
    CountReachedMonotone(MeterThresholds, a, b);
  }

  // ---------------------------------------------------------------------------
  // Avatar ring, presence dot, call icons, warning badge

  /** The alert colour of the avatar ring and of the presence dot. */
  datatype Alert = Neutral | Orange | Red {
    function Rank(): nat {
      match this
      case Neutral => 0
      case Orange => 1
      case Red => 2
    }
  }

  /**
   * The ring and the dot share one threshold expression: red above 80,
   * orange above 50, neutral (a faint ring, a green dot) otherwise.
   */
  function AvatarAlert(level: int): (a: Alert)
    ensures a == Red <==> level > 80
    ensures a == Orange <==> 50 < level <= 80
    ensures a == Neutral <==> level <= 50
  {
    if level > 80 then Red else if level > 50 then Orange else Neutral
  }

  /** The video and phone icons are dimmed and unclickable above 80. */
  predicate CallIconsDisabled(level: int) {
    level > 80
  }

  /** The pulsing badge on the menu button is shown above 90. */
  predicate WarningBadgeShown(level: int) {
    level > 90
  }

  /** A higher level never shows a calmer avatar. */
  lemma AlertMonotone(a: int, b: int)
    requires a <= b
    ensures AvatarAlert(a).Rank() <= AvatarAlert(b).Rank()
  {
  }

  /** Once the call icons are off or the badge is on, a higher level keeps them so. */
  lemma IconBadgeMonotone(a: int, b: int)
    requires a <= b
    ensures CallIconsDisabled(a) ==> CallIconsDisabled(b)
    ensures WarningBadgeShown(a) ==> WarningBadgeShown(b)
  {
  }

  /** The call icons are disabled exactly when the avatar is red. */
  lemma IconsFollowAvatar(level: int)
    ensures CallIconsDisabled(level) <==> AvatarAlert(level) == Red
  {
  }

  /**
   * The badge only appears in the worst band of every other classifier: the
   * meter is critical, the mood is about-to-block, the avatar is red and the
   * call icons are off.
   */
  lemma BadgeOnlyWhenWorst(level: int)
    requires WarningBadgeShown(level)
    ensures GetBarStyle(level) == Critical
    ensures GetStatusInfo(false, level) == MoodStatus(AboutToBlock)
    ensures AvatarAlert(level) == Red && CallIconsDisabled(level)
  {
  }
}

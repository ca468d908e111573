/**
 * What the tally's rules add up to over several steps: rollover is
 * idempotent, two presses of the sound button cancel, a save followed by a
 * reload gives the counts back, a reload always restarts the week, a run of
 * taps completes one mala per 108, and the lifetime counts never fall.
 */
module TallyProperties {
  import opened Decimal
  import opened Storage
  import opened Tally

  // ---------------------------------------------------------------------
  // One operation at a time

  /** A second rollover check with the same clock changes nothing. */
  lemma RolloverIdempotent(s: TallyState, today: string, week: nat)
    ensures Rolled(Rolled(s, today, week), today, week) == Rolled(s, today, week)
  {
  }

  /** Saving a state the store already holds leaves the store as it is. */
  lemma SavedIdempotent(m: map<string, string>, s: TallyState)
    ensures Saved(Saved(m, s), s) == Saved(m, s)
  {
    NineWritesTwice(m, NatToString(s.count), NatToString(s.todayCount), NatToString(s.weekCount),
      NatToString(s.totalCount), NatToString(s.malaCount), NatToString(s.todayMalaCount),
      NatToString(s.weekMalaCount), s.lastResetDate, MarkerText(s.lastResetWeek));
  }

  /** The nine writes of a save, for any nine texts, done twice leave what they leave once. */
  lemma NineWritesTwice(m: map<string, string>, c: string, d: string, w: string, t: string,
                        ml: string, dm: string, wm: string, date: string, marker: string)
    ensures var once := m[CountKey := c][TodayKey := d][WeekKey := w][TotalKey := t][MalaKey := ml]
                         [TodayMalaKey := dm][WeekMalaKey := wm][DateKey := date][WeekMarkerKey := marker];
      once[CountKey := c][TodayKey := d][WeekKey := w][TotalKey := t][MalaKey := ml]
          [TodayMalaKey := dm][WeekMalaKey := wm][DateKey := date][WeekMarkerKey := marker] == once
  {
    KeysDistinct();
  }

  /**
   * The whole rollover check, store included, run twice with the same clock
   * leaves what one run leaves.
   */
  lemma CheckTwiceIsCheckOnce(m: map<string, string>, s: TallyState, today: string, week: nat)
    ensures var once := Rolled(s, today, week);
      && Rolled(once, today, week) == once
      && Saved(Saved(m, once), Rolled(once, today, week)) == Saved(m, once)
  {
    RolloverIdempotent(s, today, week);
    SavedIdempotent(m, Rolled(s, today, week));
  }

  /** Two presses of the sound button restore the switch and store its text. */
  lemma ToggleTwice(m: map<string, string>, s: TallyState)
    ensures Toggled(Toggled(s)) == s
    ensures SoundSaved(SoundSaved(m, Toggled(s).soundEnabled), s.soundEnabled)
         == m[SoundKey := BoolText(s.soundEnabled)]
  {
  }

  // ---------------------------------------------------------------------
  // Save and reload

  /** What a save leaves under each of its nine keys. */
  lemma SavedEntries(m: map<string, string>, s: TallyState)
    ensures var r := Saved(m, s);
      && Get(r, CountKey) == Some(NatToString(s.count))
      && Get(r, TodayKey) == Some(NatToString(s.todayCount))
      && Get(r, WeekKey) == Some(NatToString(s.weekCount))
      && Get(r, TotalKey) == Some(NatToString(s.totalCount))
      && Get(r, MalaKey) == Some(NatToString(s.malaCount))
      && Get(r, TodayMalaKey) == Some(NatToString(s.todayMalaCount))
      && Get(r, WeekMalaKey) == Some(NatToString(s.weekMalaCount))
      && Get(r, DateKey) == Some(s.lastResetDate)
      && Get(r, WeekMarkerKey) == Some(MarkerText(s.lastResetWeek))
  {
    NineWrites(m, NatToString(s.count), NatToString(s.todayCount), NatToString(s.weekCount),
      NatToString(s.totalCount), NatToString(s.malaCount), NatToString(s.todayMalaCount),
      NatToString(s.weekMalaCount), s.lastResetDate, MarkerText(s.lastResetWeek));
  }

  /** The nine writes of a save, for any nine texts: each key holds the text written to it. */
  lemma NineWrites(m: map<string, string>, c: string, d: string, w: string, t: string,
                   ml: string, dm: string, wm: string, date: string, marker: string)
    ensures var r := m[CountKey := c][TodayKey := d][WeekKey := w][TotalKey := t][MalaKey := ml]
                      [TodayMalaKey := dm][WeekMalaKey := wm][DateKey := date][WeekMarkerKey := marker];
      && Get(r, CountKey) == Some(c) && Get(r, TodayKey) == Some(d) && Get(r, WeekKey) == Some(w)
      && Get(r, TotalKey) == Some(t) && Get(r, MalaKey) == Some(ml)
      && Get(r, TodayMalaKey) == Some(dm) && Get(r, WeekMalaKey) == Some(wm)
      && Get(r, DateKey) == Some(date) && Get(r, WeekMarkerKey) == Some(marker)
  {
    KeysDistinct();
  }

  /** The seven counts of two states agree. */
  predicate SameCounts(a: TallyState, b: TallyState) {
    && a.count == b.count && a.todayCount == b.todayCount && a.weekCount == b.weekCount
    && a.totalCount == b.totalCount && a.malaCount == b.malaCount
    && a.todayMalaCount == b.todayMalaCount && a.weekMalaCount == b.weekMalaCount
  }

  /**
   * Reloading from a store that was just saved gives back every count, the
   * day marker when it is not empty, and the sound switch the store held; a
   * week marker comes back as its text, never as a number.
   */
  lemma ReloadAfterSave(m: map<string, string>, s: TallyState, today: string, week: nat)
    ensures var r := Loaded(Saved(m, s), today, week);
      && SameCounts(r, s)
      && (r.soundEnabled <==> Get(m, SoundKey) != Some("false"))
      && (s.lastResetDate != "" ==> r.lastResetDate == s.lastResetDate)
      && (s.lastResetWeek.WeekNumber? ==> r.lastResetWeek == WeekText(NatToString(s.lastResetWeek.n)))
      && (s.lastResetWeek.WeekText? && s.lastResetWeek.s != "" ==> r.lastResetWeek == s.lastResetWeek)
  {
    SavedEntries(m, s);
    LoadCounterOfText(s.count);
    LoadCounterOfText(s.todayCount);
    LoadCounterOfText(s.weekCount);
    LoadCounterOfText(s.totalCount);
    LoadCounterOfText(s.malaCount);
    LoadCounterOfText(s.todayMalaCount);
    LoadCounterOfText(s.weekMalaCount);
  }

  /** The sound switch survives a reload once its button has written it. */
  lemma ReloadAfterToggle(m: map<string, string>, enabled: bool, today: string, week: nat)
    ensures Loaded(SoundSaved(m, enabled), today, week).soundEnabled == enabled
  {
  }

  /** A first launch, with nothing stored, starts from zero with the sound on. */
  lemma FirstLaunch(today: string, week: nat)
    ensures Loaded(map[], today, week)
         == TallyState(0, 0, 0, 0, 0, 0, 0, true, today, WeekNumber(week))
  {
  }

  /**
   * Every reload restarts the week: the stored week marker comes back as
   * text, the startup check finds it unequal to the week number, and both
   * week counts go to 0 even within the same week, while the day counts
   * survive a reload on the same day.
   */
  lemma ReloadZeroesWeek(m: map<string, string>, s: TallyState, today: string, week: nat)
    requires s.lastResetDate == today
    requires s.lastResetWeek == WeekNumber(week)
    ensures var r := Rolled(Loaded(Saved(m, s), today, week), today, week);
      && r.weekCount == 0 && r.weekMalaCount == 0
      && r.todayCount == s.todayCount && r.todayMalaCount == s.todayMalaCount
      && r.count == s.count && r.totalCount == s.totalCount && r.malaCount == s.malaCount
  {
    ReloadAfterSave(m, s, today, week);
  }

  // ---------------------------------------------------------------------
  // Runs of taps

  /** n taps in a row, all on the same day and in the same week. */
  function Taps(s: TallyState, today: string, week: nat, n: nat): TallyState
    decreases n
  {
    if n == 0 then s else Taps(Incremented(s, today, week), today, week, n - 1)
  }

  /** Moving the session count up by one completes a mala exactly at a multiple of 108. */
  lemma MalaStep(c: nat)
    ensures (c + 1) / MalaSize == c / MalaSize + (if (c + 1) % MalaSize == 0 then 1 else 0)
  {
  }

  /**
   * Within one day and one week, n taps raise the four counts by n and the
   * three mala counts by the number of multiples of 108 the session count
   * passes.
   */
  lemma {:induction false} RepeatedTaps(s: TallyState, today: string, week: nat, n: nat)
    requires s.lastResetDate == today && s.lastResetWeek == WeekNumber(week)
    ensures var r := Taps(s, today, week, n);
      var malas := (s.count + n) / MalaSize - s.count / MalaSize;
      && r.count == s.count + n && r.totalCount == s.totalCount + n
      && r.todayCount == s.todayCount + n && r.weekCount == s.weekCount + n
      && r.malaCount == s.malaCount + malas
      && r.todayMalaCount == s.todayMalaCount + malas
      && r.weekMalaCount == s.weekMalaCount + malas
      && r.lastResetDate == today && r.lastResetWeek == WeekNumber(week)
      && r.soundEnabled == s.soundEnabled
    decreases n
  {
    if n > 0 {
      var t := Incremented(s, today, week);
      RepeatedTaps(t, today, week, n - 1);
      MalaStep(s.count);
    }
  }

  /** A fresh session on the current day and week, with the sound as given. */
  function FreshSession(today: string, week: nat, sound: bool): TallyState {
    TallyState(0, 0, 0, 0, 0, 0, 0, sound, today, WeekNumber(week))
  }

  /**
   * From a fresh session, 108 taps complete exactly one mala, counted in
   * the lifetime, today's and this week's mala counts.
   */
  lemma OneMalaIn108Taps(today: string, week: nat, sound: bool)
    ensures var r := Taps(FreshSession(today, week, sound), today, week, MalaSize);
      && r.count == 108 && r.totalCount == 108 && r.malaCount == 1
      && r.todayMalaCount == 1 && r.weekMalaCount == 1
  {
    RepeatedTaps(FreshSession(today, week, sound), today, week, MalaSize);
  }

  /**
   * Of the first 108 taps of a fresh session, the 108th completes a mala
   * and no earlier one does.
   */
  lemma CompletionOnlyOn108thTap(today: string, week: nat, sound: bool, j: nat)
    requires j < MalaSize
    ensures CompletesMala(Taps(FreshSession(today, week, sound), today, week, j)) <==> j == 107
  {
    RepeatedTaps(FreshSession(today, week, sound), today, week, j);
    assert (j + 1) % MalaSize == 0 <==> j + 1 == MalaSize;
  }

  /**
   * The mala test is on the session count: after 50 taps and a reset, the
   * next mala is completed by the 108th further tap, at a lifetime total
   * of 158, which is no multiple of 108.
   */
  lemma MalaFollowsSessionCount(today: string, week: nat)
    ensures var z := FreshSession(today, week, true);
      var r := Taps(Reset(Taps(z, today, week, 50)), today, week, MalaSize);
      && r.totalCount == 158 && r.malaCount == 1 && r.count == 108
  {
    var z := FreshSession(today, week, true);
    RepeatedTaps(z, today, week, 50);
    RepeatedTaps(Reset(Taps(z, today, week, 50)), today, week, MalaSize);
  }

  // ---------------------------------------------------------------------
  // The page over time

  /**
   * Bounds every state the page reaches keeps: the period mala counts never
   * exceed the lifetime one, no count exceeds the lifetime total, and each
   * lifetime mala is backed by 108 taps, the current partial one included.
   */
  predicate Consistent(s: TallyState) {
    && s.todayMalaCount <= s.malaCount && s.weekMalaCount <= s.malaCount
    && s.count <= s.totalCount && s.todayCount <= s.totalCount && s.weekCount <= s.totalCount
    && MalaSize * s.malaCount + s.count % MalaSize <= s.totalCount
  }

  /** Reading the store back gives the page's counts and sound switch. */
  predicate Synced(s: TallyState, m: map<string, string>) {
    && LoadCounter(Get(m, CountKey)) == s.count
    && LoadCounter(Get(m, TodayKey)) == s.todayCount
    && LoadCounter(Get(m, WeekKey)) == s.weekCount
    && LoadCounter(Get(m, TotalKey)) == s.totalCount
    && LoadCounter(Get(m, MalaKey)) == s.malaCount
    && LoadCounter(Get(m, TodayMalaKey)) == s.todayMalaCount
    && LoadCounter(Get(m, WeekMalaKey)) == s.weekMalaCount
    && (Get(m, SoundKey) != Some("false") <==> s.soundEnabled)
  }

  /** The page's state together with the store behind it. */
  datatype Page = Page(state: TallyState, store: map<string, string>)

  /** What the user (or the browser) can do to the page. */
  datatype Action =
    | Tap(today: string, week: nat)
    | ResetTap
    | SoundTap
    | Reload(today: string, week: nat)

  /** The page as it stands after it has loaded from store `m`. */
  function Launch(m: map<string, string>, today: string, week: nat): (r: Page)
    ensures r.state.lastResetDate == today && r.state.lastResetWeek == WeekNumber(week)
    ensures r.state.count == LoadCounter(Get(m, CountKey))
    ensures r.state.totalCount == LoadCounter(Get(m, TotalKey))
    ensures r.state.malaCount == LoadCounter(Get(m, MalaKey))
    ensures r.state.soundEnabled <==> Get(m, SoundKey) != Some("false")
    ensures r.store.Keys == m.Keys + SavedKeys
    ensures Get(r.store, SoundKey) == Get(m, SoundKey)
  {
    var s := Rolled(Loaded(m, today, week), today, week);
    Page(s, Saved(m, s))
  }

  /** One action, with the state and store effects the page's handlers have. */
  function Step(p: Page, a: Action): (r: Page)
    ensures a.Tap? ==> r.state.totalCount == p.state.totalCount + 1
    ensures a.Tap? ==> r.state.malaCount == p.state.malaCount + (if CompletesMala(p.state) then 1 else 0)
    ensures a.ResetTap? ==> r.state.count == 0 && r.state.totalCount == p.state.totalCount
    ensures a.SoundTap? ==> r.state.soundEnabled == !p.state.soundEnabled
    ensures a.SoundTap? ==> Get(r.store, SoundKey) == Some(BoolText(r.state.soundEnabled))
    ensures !a.SoundTap? ==> Get(r.store, SoundKey) == Get(p.store, SoundKey)
    ensures !a.Reload? ==> r.state.malaCount >= p.state.malaCount
  {
    match a
    case Tap(today, week) =>
      var s := Incremented(p.state, today, week);
      Page(s, Saved(Saved(p.store, Rolled(p.state, today, week)), s))
    case ResetTap =>
      var s := Reset(p.state);
      Page(s, Saved(p.store, s))
    case SoundTap =>
      var s := Toggled(p.state);
      Page(s, SoundSaved(p.store, s.soundEnabled))
    case Reload(today, week) =>
      Launch(p.store, today, week)
  }

  /**
   * The actions one after another.  Only the sound button writes the sound
   * switch's key, and without a reload the lifetime counts never fall.
   */
  function Run(p: Page, actions: seq<Action>): (r: Page)
    ensures (forall i :: 0 <= i < |actions| ==> !actions[i].SoundTap?) ==>
      Get(r.store, SoundKey) == Get(p.store, SoundKey)
    ensures (forall i :: 0 <= i < |actions| ==> !actions[i].Reload?) ==>
      r.state.totalCount >= p.state.totalCount && r.state.malaCount >= p.state.malaCount
    decreases |actions|
  {
    if actions == [] then p else Run(Step(p, actions[0]), actions[1..])
  }

  /** After a save, reading the store back gives the saved counts; the switch is as the store had it. */
  lemma SavedSynced(m: map<string, string>, s: TallyState)
    requires Get(m, SoundKey) != Some("false") <==> s.soundEnabled
    ensures Synced(s, Saved(m, s))
  {
    ReloadAfterSave(m, s, "", 0);
  }

  /** Every page load leaves the store in step with the page. */
  lemma LaunchSynced(m: map<string, string>, today: string, week: nat)
    ensures Synced(Launch(m, today, week).state, Launch(m, today, week).store)
  {
    SavedSynced(m, Rolled(Loaded(m, today, week), today, week));
  }

  /** The first launch starts from a consistent, synced page. */
  lemma FirstLaunchConsistent(today: string, week: nat)
    ensures var p := Launch(map[], today, week);
      Consistent(p.state) && Synced(p.state, p.store)
  {
    LaunchSynced(map[], today, week);
  }

  /** A tap keeps the bounds, the same day and week or not. */
  lemma TapConsistent(s: TallyState, today: string, week: nat)
    requires Consistent(s)
    ensures Consistent(Incremented(s, today, week))
  {
    MalaStep(s.count);
  }

  /** A tap keeps the page consistent and synced. */
  lemma TapKeepsInvariant(p: Page, today: string, week: nat)
    requires Consistent(p.state) && Synced(p.state, p.store)
    ensures var q := Step(p, Tap(today, week));
      Consistent(q.state) && Synced(q.state, q.store)
  {
    TapConsistent(p.state, today, week);
    var r := Rolled(p.state, today, week);
    SavedSynced(p.store, r);
    SavedSynced(Saved(p.store, r), Incremented(p.state, today, week));
  }

  /** A reload gives back the counts the store is in step with, and stays consistent and synced. */
  lemma ReloadKeepsInvariant(p: Page, today: string, week: nat)
    requires Consistent(p.state) && Synced(p.state, p.store)
    ensures var q := Step(p, Reload(today, week));
      && SameCounts(Loaded(p.store, today, week), p.state)
      && Consistent(q.state) && Synced(q.state, q.store)
  {
    LaunchSynced(p.store, today, week);
  }

  /**
   * One action keeps the page consistent and synced, and never lowers the
   * lifetime total or the lifetime mala count.
   */
  lemma {:induction false} StepKeepsInvariant(p: Page, a: Action)
    requires Consistent(p.state) && Synced(p.state, p.store)
    ensures var q := Step(p, a);
      && Consistent(q.state) && Synced(q.state, q.store)
      && q.state.totalCount >= p.state.totalCount
      && q.state.malaCount >= p.state.malaCount
  {
    match a
    case Tap(today, week) =>
      TapKeepsInvariant(p, today, week);
    case ResetTap =>
      SavedSynced(p.store, Reset(p.state));
    case SoundTap =>
    case Reload(today, week) =>
      ReloadKeepsInvariant(p, today, week);
  }

  /**
   * Any sequence of taps, resets, sound presses and reloads keeps the page
   * consistent and synced, and the lifetime total and lifetime mala count
   * only ever grow.
   */
  lemma {:induction false} RunKeepsInvariant(p: Page, actions: seq<Action>)
    requires Consistent(p.state) && Synced(p.state, p.store)
    ensures var q := Run(p, actions);
      && Consistent(q.state) && Synced(q.state, q.store)
      && q.state.totalCount >= p.state.totalCount
      && q.state.malaCount >= p.state.malaCount
    decreases |actions|
  {
    if actions != [] {
      StepKeepsInvariant(p, actions[0]);
      RunKeepsInvariant(Step(p, actions[0]), actions[1..]);
    }
  }
}

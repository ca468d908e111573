/**
 * The tally of a mantra-counting page: a session count that the user can
 * reset, per-day, per-week and lifetime counts, the number of malas (rounds
 * of 108) completed in each of those, a sound switch, and the day and week
 * markers of the last rollover check.  Every change is written through to
 * the key-value store, and the whole state is read back from it when the
 * page loads.
 *
 * The wall clock enters as two parameters: `today`, the day's identifier
 * text, and `week`, the week number of the current date.
 */
module Tally {
  import opened Decimal
  import opened Storage

  /** The session count completes a mala at every multiple of this. */
  const MalaSize: nat := 108

  /**
   * The value held in `lastResetWeek`.  It starts as the number the clock
   * gives, but after a reload it is whatever text the store gave back, and
   * JavaScript's strict inequality never equates a text with a number.
   */
  datatype WeekMarker = WeekNumber(n: nat) | WeekText(s: string)

  datatype TallyState = TallyState(
    count: nat,
    todayCount: nat,
    weekCount: nat,
    totalCount: nat,
    malaCount: nat,
    todayMalaCount: nat,
    weekMalaCount: nat,
    soundEnabled: bool,
    lastResetDate: string,
    lastResetWeek: WeekMarker)

  // Store keys.  The session count is kept under "japCount".
  const CountKey := "japCount"
  const TodayKey := "todayCount"
  const WeekKey := "weekCount"
  const TotalKey := "totalCount"
  const MalaKey := "malaCount"
  const TodayMalaKey := "todayMalaCount"
  const WeekMalaKey := "weekMalaCount"
  const DateKey := "lastResetDate"
  const WeekMarkerKey := "lastResetWeek"
  const SoundKey := "soundEnabled"

  /** The keys a save writes; the sound switch is not among them. */
  const SavedKeys: set<string> :=
    {CountKey, TodayKey, WeekKey, TotalKey, MalaKey, TodayMalaKey, WeekMalaKey, DateKey, WeekMarkerKey}

  /**
   * The ten keys are distinct texts.  The solver finds each inequality by
   * itself; stating them together only spares it comparing the literals
   * afresh at every lookup through a save's nine updates.
   */
  lemma KeysDistinct()
    ensures CountKey != TodayKey && CountKey != WeekKey && CountKey != TotalKey && CountKey != MalaKey && CountKey != TodayMalaKey && CountKey != WeekMalaKey && CountKey != DateKey && CountKey != WeekMarkerKey && CountKey != SoundKey
    ensures TodayKey != WeekKey && TodayKey != TotalKey && TodayKey != MalaKey && TodayKey != TodayMalaKey && TodayKey != WeekMalaKey && TodayKey != DateKey && TodayKey != WeekMarkerKey && TodayKey != SoundKey
    ensures WeekKey != TotalKey && WeekKey != MalaKey && WeekKey != TodayMalaKey && WeekKey != WeekMalaKey && WeekKey != DateKey && WeekKey != WeekMarkerKey && WeekKey != SoundKey
    ensures TotalKey != MalaKey && TotalKey != TodayMalaKey && TotalKey != WeekMalaKey && TotalKey != DateKey && TotalKey != WeekMarkerKey && TotalKey != SoundKey
    ensures MalaKey != TodayMalaKey && MalaKey != WeekMalaKey && MalaKey != DateKey && MalaKey != WeekMarkerKey && MalaKey != SoundKey
    ensures TodayMalaKey != WeekMalaKey && TodayMalaKey != DateKey && TodayMalaKey != WeekMarkerKey && TodayMalaKey != SoundKey
    ensures WeekMalaKey != DateKey && WeekMalaKey != WeekMarkerKey && WeekMalaKey != SoundKey
    ensures DateKey != WeekMarkerKey && DateKey != SoundKey
    ensures WeekMarkerKey != SoundKey
  {
  }

  // ---------------------------------------------------------------------
  // How values become text and back

  /** `String(lastResetWeek)`, as `setItem` stores the marker. */
  function MarkerText(w: WeekMarker): (r: string)
    ensures w.WeekNumber? ==> IsDecimal(r) && DecimalValue(r) == w.n
    ensures w.WeekText? ==> r == w.s
  {
    match w
    case WeekNumber(n) => DecimalOfNatToString(n); NatToString(n)
    case WeekText(s) => s
  }

  /** `String(b)` for the sound switch. */
  function BoolText(b: bool): (r: string)
    ensures r == "true" || r == "false"
    ensures r != "false" <==> b
  {
    if b then "true" else "false"
  }

  /**
   * `parseInt(text) || 0` for the texts modelled: a digit string reads as
   * its value; a missing or non-numeric one reads as 0.
   */
  function LoadCounter(v: Option<string>): (n: nat)
    ensures v.None? ==> n == 0
    ensures v.Some? && !IsDecimal(v.value) ==> n == 0
    ensures v.Some? && IsDecimal(v.value) ==> n == DecimalValue(v.value)
  {
    if v.Some? && IsDecimal(v.value) then DecimalValue(v.value) else 0
  }

  /** The text a save stores for a count loads as that count. */
  lemma LoadCounterOfText(k: nat)
    ensures LoadCounter(Some(NatToString(k))) == k
  {
    DecimalOfNatToString(k);
  }

  /** `getItem(key) || fallback`: a missing or empty text gives the fallback. */
  function TextOr(v: Option<string>, fallback: string): (r: string)
    ensures v.Some? && v.value != "" ==> r == v.value
    ensures v.None? || v.value == "" ==> r == fallback
  {
    if v.Some? && v.value != "" then v.value else fallback
  }

  // ---------------------------------------------------------------------
  // The state transitions, as functions of the state before

  /**
   * The rollover check: on a new day the day counters restart, on a new
   * week the week counters restart, each independently; a week marker that
   * is not the current week's number counts as a new week.
   */
  function Rolled(s: TallyState, today: string, week: nat): (r: TallyState)
    ensures r.lastResetDate == today && r.lastResetWeek == WeekNumber(week)
    ensures today != s.lastResetDate ==> r.todayCount == 0 && r.todayMalaCount == 0
    ensures today == s.lastResetDate ==>
      r.todayCount == s.todayCount && r.todayMalaCount == s.todayMalaCount
    ensures s.lastResetWeek != WeekNumber(week) ==> r.weekCount == 0 && r.weekMalaCount == 0
    ensures s.lastResetWeek == WeekNumber(week) ==>
      r.weekCount == s.weekCount && r.weekMalaCount == s.weekMalaCount
    ensures r.count == s.count && r.totalCount == s.totalCount && r.malaCount == s.malaCount
    ensures r.soundEnabled == s.soundEnabled
  {
    var d := if today != s.lastResetDate
      then s.(todayCount := 0, todayMalaCount := 0, lastResetDate := today)
      else s;
    if d.lastResetWeek != WeekNumber(week)
    then d.(weekCount := 0, weekMalaCount := 0, lastResetWeek := WeekNumber(week))
    else d
  }

  /** Whether the next increment from `s` completes a mala. */
  predicate CompletesMala(s: TallyState) {
    (s.count + 1) % MalaSize == 0
  }

  /**
   * The counting part of a tap: every count rises by one, and when the new
   * session count is a multiple of 108 the three mala counts rise by one
   * together; otherwise they stay.
   */
  function Counted(t: TallyState): (r: TallyState)
    ensures r.count == t.count + 1 && r.totalCount == t.totalCount + 1
    ensures r.todayCount == t.todayCount + 1 && r.weekCount == t.weekCount + 1
    ensures r.malaCount == t.malaCount + 1 <==> r.count % MalaSize == 0
    ensures r.count % MalaSize == 0 ==>
      && r.malaCount == t.malaCount + 1
      && r.todayMalaCount == t.todayMalaCount + 1
      && r.weekMalaCount == t.weekMalaCount + 1
    ensures r.count % MalaSize != 0 ==>
      && r.malaCount == t.malaCount
      && r.todayMalaCount == t.todayMalaCount
      && r.weekMalaCount == t.weekMalaCount
    ensures r.soundEnabled == t.soundEnabled
    ensures r.lastResetDate == t.lastResetDate && r.lastResetWeek == t.lastResetWeek
  {
    var u := t.(count := t.count + 1, todayCount := t.todayCount + 1,
                weekCount := t.weekCount + 1, totalCount := t.totalCount + 1);
    if u.count % MalaSize == 0
    then u.(malaCount := u.malaCount + 1, todayMalaCount := u.todayMalaCount + 1,
            weekMalaCount := u.weekMalaCount + 1)
    else u
  }

  /** One tap: the rollover check, then the counting. */
  function Incremented(s: TallyState, today: string, week: nat): (r: TallyState)
    ensures r.count == s.count + 1 && r.totalCount == s.totalCount + 1
    ensures r.lastResetDate == today && r.lastResetWeek == WeekNumber(week)
    ensures today == s.lastResetDate && s.lastResetWeek == WeekNumber(week) ==>
      && r.todayCount == s.todayCount + 1 && r.weekCount == s.weekCount + 1
      && (r.todayMalaCount == s.todayMalaCount + 1 <==> CompletesMala(s))
      && (r.weekMalaCount == s.weekMalaCount + 1 <==> CompletesMala(s))
    ensures r.malaCount == s.malaCount + 1 <==> CompletesMala(s)
    ensures !CompletesMala(s) ==> r.malaCount == s.malaCount
  {
    Counted(Rolled(s, today, week))
  }

  /** The reset button: the session count goes to 0 and nothing else moves. */
  function Reset(s: TallyState): (r: TallyState)
    ensures r.count == 0
    ensures r.(count := s.count) == s
  {
    s.(count := 0)
  }

  /** The sound button: the switch flips and nothing else moves. */
  function Toggled(s: TallyState): (r: TallyState)
    ensures r.soundEnabled == !s.soundEnabled
    ensures r.(soundEnabled := s.soundEnabled) == s
  {
    s.(soundEnabled := !s.soundEnabled)
  }

  // ---------------------------------------------------------------------
  // Persistence

  /**
   * The store after a save of `s`: the nine saved keys hold the texts of
   * the seven counts and the two markers; every other key, the sound
   * switch's included, is as it was.
   */
  function Saved(m: map<string, string>, s: TallyState): (r: map<string, string>)
    ensures r.Keys == m.Keys + SavedKeys
    ensures forall k :: k !in SavedKeys ==> Get(r, k) == Get(m, k)
    ensures Get(r, SoundKey) == Get(m, SoundKey)
  {
    m[CountKey := NatToString(s.count)]
     [TodayKey := NatToString(s.todayCount)]
     [WeekKey := NatToString(s.weekCount)]
     [TotalKey := NatToString(s.totalCount)]
     [MalaKey := NatToString(s.malaCount)]
     [TodayMalaKey := NatToString(s.todayMalaCount)]
     [WeekMalaKey := NatToString(s.weekMalaCount)]
     [DateKey := s.lastResetDate]
     [WeekMarkerKey := MarkerText(s.lastResetWeek)]
  }

  /** The store after the sound button: only the switch's key is written. */
  function SoundSaved(m: map<string, string>, enabled: bool): (r: map<string, string>)
    ensures Get(r, SoundKey) == Some(BoolText(enabled))
    ensures forall k :: k != SoundKey ==> Get(r, k) == Get(m, k)
  {
    m[SoundKey := BoolText(enabled)]
  }

  /**
   * The state the page starts from, read from store `m`: missing or
   * non-numeric counts read as 0, the sound is on unless the text "false"
   * is stored, and missing markers default to the current day and week.
   * A stored week marker comes back as text.
   */
  function Loaded(m: map<string, string>, today: string, week: nat): (r: TallyState)
    ensures r.soundEnabled <==> Get(m, SoundKey) != Some("false")
    ensures Get(m, DateKey) == None ==> r.lastResetDate == today
    ensures Get(m, WeekMarkerKey) == None ==> r.lastResetWeek == WeekNumber(week)
    ensures r.lastResetWeek.WeekNumber? ==> r.lastResetWeek == WeekNumber(week)
    ensures Get(m, CountKey) == None ==> r.count == 0
    ensures Get(m, TotalKey) == None ==> r.totalCount == 0
    ensures Get(m, MalaKey) == None ==> r.malaCount == 0
    ensures Get(m, TodayKey) == None ==> r.todayCount == 0
    ensures Get(m, WeekKey) == None ==> r.weekCount == 0
    ensures Get(m, TodayMalaKey) == None ==> r.todayMalaCount == 0
    ensures Get(m, WeekMalaKey) == None ==> r.weekMalaCount == 0
    ensures Get(m, DateKey).Some? && Get(m, DateKey).value != "" ==>
      r.lastResetDate == Get(m, DateKey).value
    ensures Get(m, WeekMarkerKey).Some? && Get(m, WeekMarkerKey).value != "" ==>
      r.lastResetWeek == WeekText(Get(m, WeekMarkerKey).value)
  {
    TallyState(
      count := LoadCounter(Get(m, CountKey)),
      todayCount := LoadCounter(Get(m, TodayKey)),
      weekCount := LoadCounter(Get(m, WeekKey)),
      totalCount := LoadCounter(Get(m, TotalKey)),
      malaCount := LoadCounter(Get(m, MalaKey)),
      todayMalaCount := LoadCounter(Get(m, TodayMalaKey)),
      weekMalaCount := LoadCounter(Get(m, WeekMalaKey)),
      soundEnabled := Get(m, SoundKey) != Some("false"),
      lastResetDate := TextOr(Get(m, DateKey), today),
      lastResetWeek :=
        var w := Get(m, WeekMarkerKey);
        if w.Some? && w.value != "" then WeekText(w.value) else WeekNumber(week))
  }

  // ---------------------------------------------------------------------
  // The page's state, updated in place

  class TallyApp {
    var count: nat
    var todayCount: nat
    var weekCount: nat
    var totalCount: nat
    var malaCount: nat
    var todayMalaCount: nat
    var weekMalaCount: nat
    var soundEnabled: bool
    var lastResetDate: string
    var lastResetWeek: WeekMarker
    const storage: LocalStorage

    function State(): TallyState
      reads this
    {
      TallyState(count, todayCount, weekCount, totalCount, malaCount, todayMalaCount,
                 weekMalaCount, soundEnabled, lastResetDate, lastResetWeek)
    }

    /**
     * Page load: every field is read from the store, then the rollover check
     * runs once (and saves).
     */
    constructor (storage: LocalStorage, today: string, week: nat)
      modifies storage
      ensures this.storage == storage
      ensures State() == Rolled(Loaded(old(storage.items), today, week), today, week)
      ensures storage.items == Saved(old(storage.items), State())
    {
      var m := storage.items;
      this.storage := storage;
      count := LoadCounter(Get(m, CountKey));
      todayCount := LoadCounter(Get(m, TodayKey));
      weekCount := LoadCounter(Get(m, WeekKey));
      totalCount := LoadCounter(Get(m, TotalKey));
      malaCount := LoadCounter(Get(m, MalaKey));
      todayMalaCount := LoadCounter(Get(m, TodayMalaKey));
      weekMalaCount := LoadCounter(Get(m, WeekMalaKey));
      soundEnabled := Get(m, SoundKey) != Some("false");
      lastResetDate := TextOr(Get(m, DateKey), today);
      var w := Get(m, WeekMarkerKey);
      lastResetWeek := if w.Some? && w.value != "" then WeekText(w.value) else WeekNumber(week);
      new;
      CheckAndResetCounters(today, week);
    }

    /** Writes the seven counts and the two markers, one key at a time. */
    method SaveToStorage()
      modifies storage
      ensures storage.items == Saved(old(storage.items), State())
    {
      storage.SetItem(CountKey, NatToString(count));
      storage.SetItem(TodayKey, NatToString(todayCount));
      storage.SetItem(WeekKey, NatToString(weekCount));
      storage.SetItem(TotalKey, NatToString(totalCount));
      storage.SetItem(MalaKey, NatToString(malaCount));
      storage.SetItem(TodayMalaKey, NatToString(todayMalaCount));
      storage.SetItem(WeekMalaKey, NatToString(weekMalaCount));
      storage.SetItem(DateKey, lastResetDate);
      storage.SetItem(WeekMarkerKey, MarkerText(lastResetWeek));
    }

    /** Restarts the day and week counters whose period has changed, then saves. */
    method CheckAndResetCounters(today: string, currentWeek: nat)
      modifies this, storage
      ensures State() == Rolled(old(State()), today, currentWeek)
      ensures storage.items == Saved(old(storage.items), State())
    {
      RollPeriods(today, currentWeek);
      SaveToStorage();
    }

    /** Lines of the rollover check before the save. */
    method RollPeriods(today: string, currentWeek: nat)
      modifies this
      ensures State() == Rolled(old(State()), today, currentWeek)
    {
      if today != lastResetDate {
        todayCount := 0;
        todayMalaCount := 0;
        lastResetDate := today;
      }
      if lastResetWeek != WeekNumber(currentWeek) {
        weekCount := 0;
        weekMalaCount := 0;
        lastResetWeek := WeekNumber(currentWeek);
      }
    }

    /**
     * One tap.  `completed` tells whether the completion message is shown;
     * `chime` whether the bell is asked to ring (it rings on every tap while
     * the sound is on).
     */
    method IncrementCount(today: string, currentWeek: nat) returns (completed: bool, chime: bool)
      modifies this, storage
      ensures State() == Incremented(old(State()), today, currentWeek)
      ensures storage.items ==
        Saved(Saved(old(storage.items), Rolled(old(State()), today, currentWeek)), State())
      ensures completed <==> CompletesMala(old(State()))
      ensures completed <==> malaCount == old(malaCount) + 1
      ensures chime == soundEnabled
    {
      CheckAndResetCounters(today, currentWeek);
      completed := CountTap();
      SaveToStorage();
      chime := soundEnabled;
    }

    /** Lines of a tap between the rollover check and the save. */
    method CountTap() returns (completed: bool)
      modifies this
      ensures State() == Counted(old(State()))
      ensures completed <==> count % MalaSize == 0
    {
      count := count + 1;
      todayCount := todayCount + 1;
      weekCount := weekCount + 1;
      totalCount := totalCount + 1;
      completed := count % MalaSize == 0;
      if completed {
        malaCount := malaCount + 1;
        todayMalaCount := todayMalaCount + 1;
        weekMalaCount := weekMalaCount + 1;
      }
    }

    /** The reset button: the session count goes to 0, then everything is saved. */
    method ResetCount()
      modifies this, storage
      ensures State() == Reset(old(State()))
      ensures storage.items == Saved(old(storage.items), State())
    {
      count := 0;
      SaveToStorage();
    }

    /** The sound button: flips the switch and writes only its key. */
    method ToggleSound()
      modifies this, storage
      ensures State() == Toggled(old(State()))
      ensures storage.items == SoundSaved(old(storage.items), soundEnabled)
    {
      soundEnabled := !soundEnabled;
      storage.SetItem(SoundKey, BoolText(soundEnabled));
    }
  }
}

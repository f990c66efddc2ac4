/** The Analysis Orchestrator of the Pattern Observer (`runPatternAnalysis`):
    groups a snapshot of the notes over three windows, keeps the recurring
    themes, narrates them, collects related notes, builds the timeline and
    records the run. */
module PatternObserver {
  import opened Wrappers
  import opened Seqs
  import opened Text
  import opened Clock
  import opened ThemeGrouper
  import opened Timeline
  import opened Narrator

  /** The windows in the order they are analysed */
  const Periods: seq<Period> := [Last7Days, Last30Days, AllTime]

  /** A theme needs this many notes in a window to be an insight */
  const MinRecurrence: nat := 2

  /** At most this many themes per window */
  const MaxThemesPerPeriod: nat := 10

  /** Notes older than this many days are resurfaced as related notes */
  const OldNoteDays: nat := 30

  function Rank(p: Period): nat {
    match p
    case Last7Days => 0
    case Last30Days => 1
    case AllTime => 2
  }

  // ---------------------------------------------------------------------
  // Period filtering

  /** The window's cutoff: local midnight 7 or 30 days before `now` */
  function Cutoff(now: int, p: Period): int
    requires p != AllTime
  {
    DaysAgo(now, if p == Last7Days then 7 else 30)
  }

  function After(cutoff: int): Note -> bool {
    (n: Note) => n.createdAt >= cutoff
  }

  /** `filterNotesByPeriod`: every note for all_time, otherwise the notes
      created at or after the cutoff, in their original order. */
  function FilterNotesByPeriod(notes: seq<Note>, p: Period, now: int): (r: seq<Note>)
    ensures p == AllTime ==> r == notes
    ensures p != AllTime ==> forall i :: 0 <= i < |r| ==> r[i] in notes && r[i].createdAt >= Cutoff(now, p)
    ensures p != AllTime ==> forall i :: 0 <= i < |notes| && notes[i].createdAt >= Cutoff(now, p) ==> notes[i] in r
  {
    if p == AllTime then notes else Filter(notes, After(Cutoff(now, p)))
  }

  /** A window holds each note created at or after its cutoff as often as
      the input does, and no other note: nothing is dropped, nothing is
      repeated. */
  lemma FilterNotesByPeriodCopies(notes: seq<Note>, p: Period, now: int)
    ensures var r := FilterNotesByPeriod(notes, p, now);
      forall x :: multiset(r)[x] == if p == AllTime || x.createdAt >= Cutoff(now, p) then multiset(notes)[x] else 0
  {
    if p != AllTime {
      FilterCounts(notes, After(Cutoff(now, p)));
    }
  }

  /** Filtering keeps the original order: filtering a concatenation is
      concatenating the filtered parts. */
  lemma FilterNotesByPeriodAppend(a: seq<Note>, b: seq<Note>, p: Period, now: int)
    ensures FilterNotesByPeriod(a + b, p, now) == FilterNotesByPeriod(a, p, now) + FilterNotesByPeriod(b, p, now)
  {
    if p != AllTime {
      FilterAppend(a, b, After(Cutoff(now, p)));
    }
  }

  /** The past week lies within the past month: restricting the 30-day
      window to the past week gives the 7-day window. */
  lemma WeekWithinMonth(notes: seq<Note>, now: int)
    ensures FilterNotesByPeriod(FilterNotesByPeriod(notes, Last30Days, now), Last7Days, now)
         == FilterNotesByPeriod(notes, Last7Days, now)
  {
    var month, week := Cutoff(now, Last30Days), Cutoff(now, Last7Days);
    assert month < week;
    FilterImplied(notes, After(month), After(week));
  }

  // ---------------------------------------------------------------------
  // Recurring themes of one window

  function IsRecurring(g: ThemeGroup): bool {
    g.count >= MinRecurrence
  }

  function CountKey(g: ThemeGroup): int {
    g.count
  }

  /** `r` is the choice of recurring themes among `groups`: as many of the
      recurring ones as fit under the cap, each copy drawn from them, most
      frequent first; a recurring group is left out only when more than ten
      recur, and then it is no more frequent than any chosen one. */
  ghost predicate ChosenFrom(r: seq<ThemeGroup>, groups: seq<ThemeGroup>) {
    var recurring := Filter(groups, IsRecurring);
    && |r| == (if |recurring| < MaxThemesPerPeriod then |recurring| else MaxThemesPerPeriod)
    && multiset(r) <= multiset(recurring)
    && SortedDesc(r, CountKey)
    && forall i :: 0 <= i < |groups| && IsRecurring(groups[i]) && groups[i] !in r ==>
         && MaxThemesPerPeriod < |recurring|
         && forall j :: 0 <= j < |r| ==> groups[i].count <= r[j].count
  }

  /** Groups with at least two notes, most frequent first (ties keep the
      Map's insertion order), at most ten: all of them when there are at
      most ten, and otherwise ten none of the left-out ones outnumbers. */
  function Recurring(gm: GroupMap): (r: seq<ThemeGroup>)
    requires WellFormed(gm)
    ensures |r| <= MaxThemesPerPeriod
    ensures SortedDesc(r, CountKey)
    ensures forall i :: 0 <= i < |r| ==> r[i].count >= MinRecurrence
    ensures forall i :: 0 <= i < |r| ==> r[i] in Values(gm)
    ensures ChosenFrom(r, Values(gm))
  {
    RecurringChoice(Values(gm));
    Take(SortDesc(Filter(Values(gm), IsRecurring), CountKey), MaxThemesPerPeriod)
  }

  lemma RecurringChoice(groups: seq<ThemeGroup>)
    ensures var r := Take(SortDesc(Filter(groups, IsRecurring), CountKey), MaxThemesPerPeriod);
      && |r| <= MaxThemesPerPeriod
      && (forall i :: 0 <= i < |r| ==> r[i].count >= MinRecurrence && r[i] in groups)
      && ChosenFrom(r, groups)
  {
    TopFiltered(groups, IsRecurring, CountKey, MaxThemesPerPeriod);
    TopComplete(groups, IsRecurring, CountKey, MaxThemesPerPeriod);
  }

  /** The recurring themes of window `p`, chosen among the groups of the
      window's notes */
  function Top(snapshot: seq<Note>, now: int, p: Period): (r: seq<ThemeGroup>)
    ensures ChosenFrom(r, Values(GroupByTags(FilterNotesByPeriod(snapshot, p, now))))
  {
    Recurring(GroupByTags(FilterNotesByPeriod(snapshot, p, now)))
  }

  // ---------------------------------------------------------------------
  // Insights

  /** One recurring-theme finding */
  datatype Insight = Insight(theme: string, count: nat, insight: string, relatedNoteIds: seq<string>, period: Period)

  predicate CarriesTag(n: Note, tag: string) {
    exists t :: t in n.tags && Normalize(t) == tag
  }

  function OldWithTag(tag: string, cutoff: int): Note -> bool {
    (n: Note) => CarriesTag(n, tag) && n.createdAt < cutoff
  }

  /** Ids of the snapshot's notes carrying `tag` created before the 30-day cutoff */
  function OldRelatedIds(snapshot: seq<Note>, tag: string, now: int): seq<string> {
    Ids(Filter(snapshot, OldWithTag(tag, DaysAgo(now, OldNoteDays))))
  }

  /** The theme's members followed by its old notes, repetitions removed */
  function RelatedNoteIds(snapshot: seq<Note>, g: ThemeGroup, now: int): (r: seq<string>)
    ensures Distinct(r)
    ensures forall id :: id in r <==> id in g.noteIds || id in OldRelatedIds(snapshot, g.tag, now)
  {
    Dedup(g.noteIds + OldRelatedIds(snapshot, g.tag, now))
  }

  /** The members come first, in the order of their first occurrence, then the
      old notes that are not members, each once */
  lemma RelatedMembersFirst(snapshot: seq<Note>, g: ThemeGroup, now: int)
    ensures RelatedNoteIds(snapshot, g, now)
         == Dedup(g.noteIds) + Dedup(Filter(OldRelatedIds(snapshot, g.tag, now), Outside(g.noteIds)))
  {
    DedupAppend(g.noteIds, OldRelatedIds(snapshot, g.tag, now));
  }

  function MakeInsight(snapshot: seq<Note>, now: int, llm: Model, p: Period, g: ThemeGroup): Insight {
    Insight(g.tag, g.count, Narrate(llm, g.tag, g.count, g.titles, p), RelatedNoteIds(snapshot, g, now), p)
  }

  /** Some insight of another period already has `theme` */
  predicate AlreadyExists(acc: seq<Insight>, theme: string, p: Period) {
    |acc| > 0 &&
    ((acc[|acc| - 1].theme == theme && acc[|acc| - 1].period != p) || AlreadyExists(acc[..|acc| - 1], theme, p))
  }

  /** The narration of one theme of window `p` */
  function InsightFor(snapshot: seq<Note>, now: int, llm: Model, p: Period): ThemeGroup -> Insight {
    (g: ThemeGroup) => MakeInsight(snapshot, now, llm, p, g)
  }

  /** The loop over one window's recurring themes: an all_time theme that an
      earlier window already produced is skipped, every other theme is
      turned into an insight by `mk` and appended. */
  function EmitThemes(p: Period, themes: seq<ThemeGroup>, acc: seq<Insight>, mk: ThemeGroup -> Insight): seq<Insight> {
    if |themes| == 0 then acc
    else if AlreadyExists(acc, themes[0].tag, p) && p == AllTime then
      EmitThemes(p, themes[1..], acc, mk)
    else
      EmitThemes(p, themes[1..], acc + [mk(themes[0])], mk)
  }

  /** One iteration of the loop over periods */
  function AnalyzePeriod(snapshot: seq<Note>, now: int, llm: Model, p: Period, acc: seq<Insight>): seq<Insight> {
    var filtered := FilterNotesByPeriod(snapshot, p, now);
    if |filtered| == 0 then acc
    else EmitThemes(p, Recurring(GroupByTags(filtered)), acc, InsightFor(snapshot, now, llm, p))
  }

  function AnalyzePeriods(snapshot: seq<Note>, now: int, llm: Model, ps: seq<Period>, acc: seq<Insight>): seq<Insight> {
    if |ps| == 0 then acc
    else AnalyzePeriods(snapshot, now, llm, ps[1..], AnalyzePeriod(snapshot, now, llm, ps[0], acc))
  }

  /** All insights of a run, in the order they are produced: at most the
      per-period limit for each of the three periods. */
  function CollectInsights(snapshot: seq<Note>, now: int, llm: Model): (r: seq<Insight>)
    ensures |r| <= 3 * MaxThemesPerPeriod
  {
    PeriodLoop(snapshot, now, llm);
    WeekStepIsBlock(snapshot, now, llm);
    MonthStepIsBlock(snapshot, now, llm, WeekBlock(snapshot, now, llm));
    AllTimeStepIsBlock(snapshot, now, llm);
    AnalyzePeriods(snapshot, now, llm, Periods, [])
  }

  /** The period loop yields the reference list below. */
  lemma CollectIsReference(snapshot: seq<Note>, now: int, llm: Model)
    ensures CollectInsights(snapshot, now, llm) == ReferenceInsights(snapshot, now, llm)
  {
    PeriodLoop(snapshot, now, llm);
    WeekStepIsBlock(snapshot, now, llm);
    MonthStepIsBlock(snapshot, now, llm, WeekBlock(snapshot, now, llm));
    AllTimeStepIsBlock(snapshot, now, llm);
  }

  // ---------------------------------------------------------------------
  // Reference definition of the insight list

  /** One insight per theme, in order */
  function MapInsights(themes: seq<ThemeGroup>, mk: ThemeGroup -> Insight): (r: seq<Insight>)
    ensures |r| == |themes|
    ensures forall i :: 0 <= i < |r| ==> r[i] == mk(themes[i])
  {
    seq(|themes|, i requires 0 <= i < |themes| => mk(themes[i]))
  }

  /** Some insight of `acc` has `theme` */
  predicate HasTheme(acc: seq<Insight>, theme: string) {
    |acc| > 0 && (acc[|acc| - 1].theme == theme || HasTheme(acc[..|acc| - 1], theme))
  }

  lemma {:induction false} HasThemeMeans(acc: seq<Insight>, theme: string)
    ensures HasTheme(acc, theme) <==> exists i :: 0 <= i < |acc| && acc[i].theme == theme
  {
    if |acc| > 0 {
      var init := acc[..|acc| - 1];
      HasThemeMeans(init, theme);
      if exists i :: 0 <= i < |acc| && acc[i].theme == theme {
        var i :| 0 <= i < |acc| && acc[i].theme == theme;
        if i < |init| {
          assert init[i] == acc[i];
        }
      }
      if exists i :: 0 <= i < |init| && init[i].theme == theme {
        var i :| 0 <= i < |init| && init[i].theme == theme;
        assert acc[i] == init[i];
      }
    }
  }

  function NotIn(acc: seq<Insight>): ThemeGroup -> bool {
    (g: ThemeGroup) => !HasTheme(acc, g.tag)
  }

  /** The 7-day, 30-day and all-time blocks of the reference list */
  function WeekBlock(snapshot: seq<Note>, now: int, llm: Model): seq<Insight> {
    MapInsights(Top(snapshot, now, Last7Days), InsightFor(snapshot, now, llm, Last7Days))
  }

  function MonthBlock(snapshot: seq<Note>, now: int, llm: Model): seq<Insight> {
    MapInsights(Top(snapshot, now, Last30Days), InsightFor(snapshot, now, llm, Last30Days))
  }

  /** The all-time themes that neither shorter window produced */
  function NewAllTimeThemes(snapshot: seq<Note>, now: int, llm: Model): seq<ThemeGroup> {
    Filter(Top(snapshot, now, AllTime), NotIn(WeekBlock(snapshot, now, llm) + MonthBlock(snapshot, now, llm)))
  }

  function AllTimeBlock(snapshot: seq<Note>, now: int, llm: Model): seq<Insight> {
    MapInsights(NewAllTimeThemes(snapshot, now, llm), InsightFor(snapshot, now, llm, AllTime))
  }

  /** The insight list stated declaratively: the 7-day themes, then the
      30-day themes, then the all-time themes neither of those produced. */
  function ReferenceInsights(snapshot: seq<Note>, now: int, llm: Model): seq<Insight> {
    WeekBlock(snapshot, now, llm) + MonthBlock(snapshot, now, llm) + AllTimeBlock(snapshot, now, llm)
  }

  function Keep(acc: seq<Insight>, p: Period): ThemeGroup -> bool {
    (g: ThemeGroup) => !(AlreadyExists(acc, g.tag, p) && p == AllTime)
  }

  lemma MapInsightsCons(t: ThemeGroup, rest: seq<ThemeGroup>, mk: ThemeGroup -> Insight)
    ensures [mk(t)] + MapInsights(rest, mk) == MapInsights([t] + rest, mk)
  {
  }

  lemma FilterHead<T>(s: seq<T>, q: T -> bool)
    requires |s| > 0
    ensures Filter(s, q) == (if q(s[0]) then [s[0]] else []) + Filter(s[1..], q)
  {
    assert s == [s[0]] + s[1..];
    FilterAppend([s[0]], s[1..], q);
    assert Filter([s[0]], q) == Filter([s[0]][..0], q) + (if q(s[0]) then [s[0]] else []);
  }

  /** Appending an insight of window `p` does not change which themes window `p` keeps */
  lemma KeepExtend(acc: seq<Insight>, ins: Insight, p: Period, themes: seq<ThemeGroup>)
    requires ins.period == p
    ensures Filter(themes, Keep(acc + [ins], p)) == Filter(themes, Keep(acc, p))
  {
    assert (acc + [ins])[..|acc|] == acc;
    FilterCongruent(themes, Keep(acc + [ins], p), Keep(acc, p));
  }

  lemma AppendAssoc<T>(a: seq<T>, x: T, b: seq<T>)
    ensures (a + [x]) + b == a + ([x] + b)
  {
  }

  /** A theme the loop narrates: it heads the appended block */
  lemma EmitStep(p: Period, themes: seq<ThemeGroup>, acc: seq<Insight>, mk: ThemeGroup -> Insight)
    requires |themes| > 0 && mk(themes[0]).period == p
    requires !(AlreadyExists(acc, themes[0].tag, p) && p == AllTime)
    requires EmitThemes(p, themes[1..], acc + [mk(themes[0])], mk)
          == (acc + [mk(themes[0])]) + MapInsights(Filter(themes[1..], Keep(acc + [mk(themes[0])], p)), mk)
    ensures EmitThemes(p, themes, acc, mk) == acc + MapInsights(Filter(themes, Keep(acc, p)), mk)
  {
    var t, rest := themes[0], themes[1..];
    var q := Keep(acc, p);
    var kept := Filter(rest, q);
    var head := mk(t);
    assert q(t);
    FilterHead(themes, q);
    assert Filter(themes, q) == [t] + kept;
    KeepExtend(acc, head, p, rest);
    assert EmitThemes(p, themes, acc, mk) == EmitThemes(p, rest, acc + [head], mk);
    MapInsightsCons(t, kept, mk);
    AppendAssoc(acc, head, MapInsights(kept, mk));
  }

  /** An all_time theme another window already produced: the loop skips it */
  lemma SkipStep(p: Period, themes: seq<ThemeGroup>, acc: seq<Insight>, mk: ThemeGroup -> Insight)
    requires |themes| > 0
    requires AlreadyExists(acc, themes[0].tag, p) && p == AllTime
    requires EmitThemes(p, themes[1..], acc, mk) == acc + MapInsights(Filter(themes[1..], Keep(acc, p)), mk)
    ensures EmitThemes(p, themes, acc, mk) == acc + MapInsights(Filter(themes, Keep(acc, p)), mk)
  {
    FilterHead(themes, Keep(acc, p));
  }

  /** The theme loop appends one insight per kept theme, in order */
  lemma {:induction false} EmitThemesKeeps(p: Period, themes: seq<ThemeGroup>, acc: seq<Insight>, mk: ThemeGroup -> Insight)
    requires forall g :: mk(g).period == p
    ensures EmitThemes(p, themes, acc, mk) == acc + MapInsights(Filter(themes, Keep(acc, p)), mk)
  {
    if |themes| > 0 {
      if AlreadyExists(acc, themes[0].tag, p) && p == AllTime {
        EmitThemesKeeps(p, themes[1..], acc, mk);
        SkipStep(p, themes, acc, mk);
      } else {
        EmitThemesKeeps(p, themes[1..], acc + [mk(themes[0])], mk);
        EmitStep(p, themes, acc, mk);
      }
    }
  }

  lemma AnalyzePeriodIsEmit(snapshot: seq<Note>, now: int, llm: Model, p: Period, acc: seq<Insight>)
    ensures AnalyzePeriod(snapshot, now, llm, p, acc)
         == EmitThemes(p, Top(snapshot, now, p), acc, InsightFor(snapshot, now, llm, p))
  {
    if |FilterNotesByPeriod(snapshot, p, now)| == 0 {
      assert FilterNotesByPeriod(snapshot, p, now) == [];
      assert Top(snapshot, now, p) == [];
    }
  }

  /** One window's step of the period loop, as appending its block */
  lemma PeriodStep(snapshot: seq<Note>, now: int, llm: Model, p: Period, acc: seq<Insight>)
    ensures AnalyzePeriod(snapshot, now, llm, p, acc)
         == acc + MapInsights(Filter(Top(snapshot, now, p), Keep(acc, p)), InsightFor(snapshot, now, llm, p))
  {
    AnalyzePeriodIsEmit(snapshot, now, llm, p, acc);
    EmitThemesKeeps(p, Top(snapshot, now, p), acc, InsightFor(snapshot, now, llm, p));
  }

  lemma KeepShortWindow(acc: seq<Insight>, p: Period, themes: seq<ThemeGroup>)
    requires p != AllTime
    ensures Filter(themes, Keep(acc, p)) == themes
  {
    FilterAll(themes, Keep(acc, p));
  }

  /** `AlreadyExists` finds exactly the themes of insights of other windows */
  lemma {:induction false} AlreadyExistsMeans(acc: seq<Insight>, theme: string, p: Period)
    ensures AlreadyExists(acc, theme, p) <==> exists i :: 0 <= i < |acc| && acc[i].theme == theme && acc[i].period != p
  {
    if |acc| > 0 {
      var init := acc[..|acc| - 1];
      AlreadyExistsMeans(init, theme, p);
      if exists i :: 0 <= i < |acc| && acc[i].theme == theme && acc[i].period != p {
        var i :| 0 <= i < |acc| && acc[i].theme == theme && acc[i].period != p;
        if i < |init| {
          assert init[i] == acc[i];
        }
      }
      if exists i :: 0 <= i < |init| && init[i].theme == theme && init[i].period != p {
        var i :| 0 <= i < |init| && init[i].theme == theme && init[i].period != p;
        assert acc[i] == init[i];
      }
    }
  }

  /** Before all_time only shorter windows have produced insights, so
      "another window has the theme" is "some insight has the theme". */
  lemma KeepAllTime(acc: seq<Insight>, themes: seq<ThemeGroup>)
    requires forall i :: 0 <= i < |acc| ==> acc[i].period != AllTime
    ensures Filter(themes, Keep(acc, AllTime)) == Filter(themes, NotIn(acc))
  {
    forall j | 0 <= j < |themes|
      ensures Keep(acc, AllTime)(themes[j]) == NotIn(acc)(themes[j])
    {
      AlreadyExistsMeans(acc, themes[j].tag, AllTime);
      HasThemeMeans(acc, themes[j].tag);
    }
    FilterCongruent(themes, Keep(acc, AllTime), NotIn(acc));
  }

  lemma PeriodLoop(snapshot: seq<Note>, now: int, llm: Model)
    ensures AnalyzePeriods(snapshot, now, llm, Periods, [])
         == AnalyzePeriod(snapshot, now, llm, AllTime,
              AnalyzePeriod(snapshot, now, llm, Last30Days,
                AnalyzePeriod(snapshot, now, llm, Last7Days, [])))
  {
    var acc1 := AnalyzePeriod(snapshot, now, llm, Last7Days, []);
    var acc2 := AnalyzePeriod(snapshot, now, llm, Last30Days, acc1);
    var acc3 := AnalyzePeriod(snapshot, now, llm, AllTime, acc2);
    assert Periods[1..] == [Last30Days, AllTime];
    assert Periods[1..][1..] == [AllTime];
    assert Periods[1..][1..][1..] == [];
    assert AnalyzePeriods(snapshot, now, llm, [], acc3) == acc3;
    assert AnalyzePeriods(snapshot, now, llm, [AllTime], acc2) == acc3;
    assert AnalyzePeriods(snapshot, now, llm, [Last30Days, AllTime], acc1) == acc3;
  }

  lemma WeekStepIsBlock(snapshot: seq<Note>, now: int, llm: Model)
    ensures AnalyzePeriod(snapshot, now, llm, Last7Days, []) == WeekBlock(snapshot, now, llm)
  {
    PeriodStep(snapshot, now, llm, Last7Days, []);
    KeepShortWindow([], Last7Days, Top(snapshot, now, Last7Days));
  }

  lemma MonthStepIsBlock(snapshot: seq<Note>, now: int, llm: Model, acc: seq<Insight>)
    ensures AnalyzePeriod(snapshot, now, llm, Last30Days, acc) == acc + MonthBlock(snapshot, now, llm)
  {
    PeriodStep(snapshot, now, llm, Last30Days, acc);
    KeepShortWindow(acc, Last30Days, Top(snapshot, now, Last30Days));
  }

  /** What the insight of a theme holds: its tag, its count, the narration
      of its titles, its related notes and the window. */
  lemma InsightForFields(snapshot: seq<Note>, now: int, llm: Model, p: Period)
    ensures forall g :: var ins := InsightFor(snapshot, now, llm, p)(g);
      && ins.theme == g.tag && ins.count == g.count && ins.period == p
      && ins.insight == Narrate(llm, g.tag, g.count, g.titles, p)
      && ins.relatedNoteIds == RelatedNoteIds(snapshot, g, now)
  {
  }

  /** A block's insights belong to its window and carry their themes' tags and counts */
  lemma BlockFields(snapshot: seq<Note>, now: int, llm: Model, p: Period, themes: seq<ThemeGroup>)
    ensures var b := MapInsights(themes, InsightFor(snapshot, now, llm, p));
      forall i :: 0 <= i < |themes| ==>
        b[i].period == p && b[i].theme == themes[i].tag && b[i].count == themes[i].count
  {
    InsightForFields(snapshot, now, llm, p);
  }

  lemma ShortBlocksPeriods(snapshot: seq<Note>, now: int, llm: Model)
    ensures var acc := WeekBlock(snapshot, now, llm) + MonthBlock(snapshot, now, llm);
            forall i :: 0 <= i < |acc| ==> acc[i].period != AllTime
  {
    BlockFields(snapshot, now, llm, Last7Days, Top(snapshot, now, Last7Days));
    BlockFields(snapshot, now, llm, Last30Days, Top(snapshot, now, Last30Days));
  }

  lemma AllTimeStepIsBlock(snapshot: seq<Note>, now: int, llm: Model)
    ensures var acc := WeekBlock(snapshot, now, llm) + MonthBlock(snapshot, now, llm);
            AnalyzePeriod(snapshot, now, llm, AllTime, acc) == acc + AllTimeBlock(snapshot, now, llm)
  {
    var acc := WeekBlock(snapshot, now, llm) + MonthBlock(snapshot, now, llm);
    ShortBlocksPeriods(snapshot, now, llm);
    PeriodStep(snapshot, now, llm, AllTime, acc);
    KeepAllTime(acc, Top(snapshot, now, AllTime));
  }

  // ---------------------------------------------------------------------
  // Properties of the insight list

  /** An insight of a block narrates a recurring theme of the block's window */
  lemma BlockOrigin(snapshot: seq<Note>, now: int, llm: Model, p: Period, themes: seq<ThemeGroup>, i: nat)
    requires i < |themes|
    requires forall j :: 0 <= j < |themes| ==> themes[j] in Top(snapshot, now, p)
    ensures var ins := MapInsights(themes, InsightFor(snapshot, now, llm, p))[i];
      ins.period == p && exists g :: g in Top(snapshot, now, p) && ins == InsightFor(snapshot, now, llm, p)(g)
  {
    InsightForFields(snapshot, now, llm, p);
    assert themes[i] in Top(snapshot, now, p);
  }

  lemma TopInTop(snapshot: seq<Note>, now: int, p: Period)
    ensures forall j :: 0 <= j < |Top(snapshot, now, p)| ==> Top(snapshot, now, p)[j] in Top(snapshot, now, p)
  {
  }

  /** Every insight narrates one of its window's recurring themes */
  lemma CollectOrigin(snapshot: seq<Note>, now: int, llm: Model, i: nat)
    requires i < |CollectInsights(snapshot, now, llm)|
    ensures var ins := CollectInsights(snapshot, now, llm)[i];
      exists g :: g in Top(snapshot, now, ins.period) && ins == InsightFor(snapshot, now, llm, ins.period)(g)
  {
    CollectIsReference(snapshot, now, llm);
    var w, m, a := WeekBlock(snapshot, now, llm), MonthBlock(snapshot, now, llm), AllTimeBlock(snapshot, now, llm);
    if i < |w| {
      assert (w + m + a)[i] == w[i];
      TopInTop(snapshot, now, Last7Days);
      BlockOrigin(snapshot, now, llm, Last7Days, Top(snapshot, now, Last7Days), i);
    } else if i < |w| + |m| {
      assert (w + m + a)[i] == m[i - |w|];
      TopInTop(snapshot, now, Last30Days);
      BlockOrigin(snapshot, now, llm, Last30Days, Top(snapshot, now, Last30Days), i - |w|);
    } else {
      assert (w + m + a)[i] == a[i - |w| - |m|];
      BlockOrigin(snapshot, now, llm, AllTime, NewAllTimeThemes(snapshot, now, llm), i - |w| - |m|);
    }
  }

  /** A recurring theme is the window's group for its own tag, built from
      every occurrence of that tag in the window, at least twice over. */
  lemma TopGrounded(snapshot: seq<Note>, now: int, p: Period, g: ThemeGroup)
    requires g in Top(snapshot, now, p)
    ensures var filtered := FilterNotesByPeriod(snapshot, p, now);
      var gm := GroupByTags(filtered);
      && g.tag in gm.groups && gm.groups[g.tag] == g
      && g.count == |Occurrences(filtered, g.tag)| >= MinRecurrence
  {
    var filtered := FilterNotesByPeriod(snapshot, p, now);
    var gm := GroupByTags(filtered);
    var vs := Values(gm);
    var top := Top(snapshot, now, p);
    var i :| 0 <= i < |top| && top[i] == g;
    assert g in vs;
    var j :| 0 <= j < |vs| && vs[j] == g;
    var k := gm.order[j];
    GroupByTagsCorrect(filtered, k);
  }

  /** Every insight is a recurring theme of its window: its theme is a group
      key there, and its count is the number of occurrences of the theme in
      the window's notes, at least two. */
  lemma InsightGrounded(snapshot: seq<Note>, now: int, llm: Model, i: nat)
    requires i < |CollectInsights(snapshot, now, llm)|
    ensures var ins := CollectInsights(snapshot, now, llm)[i];
      var filtered := FilterNotesByPeriod(snapshot, ins.period, now);
      var gm := GroupByTags(filtered);
      && ins.theme in gm.groups
      && gm.groups[ins.theme] in Top(snapshot, now, ins.period)
      && ins.count == gm.groups[ins.theme].count == |Occurrences(filtered, ins.theme)|
      && ins.count >= MinRecurrence
  {
    var ins := CollectInsights(snapshot, now, llm)[i];
    CollectOrigin(snapshot, now, llm, i);
    var g :| g in Top(snapshot, now, ins.period) && ins == InsightFor(snapshot, now, llm, ins.period)(g);
    InsightForFields(snapshot, now, llm, ins.period);
    TopGrounded(snapshot, now, ins.period, g);
  }

  /** Every insight's text is the narration of its group's titles, and its
      related notes are the group's members together with the snapshot's
      older notes carrying the theme, each once. */
  lemma InsightContents(snapshot: seq<Note>, now: int, llm: Model, i: nat)
    requires i < |CollectInsights(snapshot, now, llm)|
    ensures var ins := CollectInsights(snapshot, now, llm)[i];
      var gm := GroupByTags(FilterNotesByPeriod(snapshot, ins.period, now));
      && ins.theme in gm.groups
      && ins.insight == Narrate(llm, ins.theme, ins.count, gm.groups[ins.theme].titles, ins.period)
      && Distinct(ins.relatedNoteIds)
      && forall id :: id in ins.relatedNoteIds <==>
           id in gm.groups[ins.theme].noteIds || id in OldRelatedIds(snapshot, ins.theme, now)
  {
    var ins := CollectInsights(snapshot, now, llm)[i];
    CollectOrigin(snapshot, now, llm, i);
    var g :| g in Top(snapshot, now, ins.period) && ins == InsightFor(snapshot, now, llm, ins.period)(g);
    InsightForFields(snapshot, now, llm, ins.period);
    TopGrounded(snapshot, now, ins.period, g);
  }

  lemma Concat3<T>(a: seq<T>, b: seq<T>, c: seq<T>)
    ensures |a + b + c| == |a| + |b| + |c|
    ensures forall i :: 0 <= i < |a| ==> (a + b + c)[i] == a[i]
    ensures forall i :: |a| <= i < |a| + |b| ==> (a + b + c)[i] == b[i - |a|]
    ensures forall i :: |a| + |b| <= i < |a| + |b| + |c| ==> (a + b + c)[i] == c[i - |a| - |b|]
  {
  }

  /** The window of each position of the reference list */
  lemma ReferencePeriods(snapshot: seq<Note>, now: int, llm: Model)
    ensures var w, m := WeekBlock(snapshot, now, llm), MonthBlock(snapshot, now, llm);
      var ins := ReferenceInsights(snapshot, now, llm);
      forall i :: 0 <= i < |ins| ==>
        ins[i].period == if i < |w| then Last7Days else if i < |w| + |m| then Last30Days else AllTime
  {
    var w, m, a := WeekBlock(snapshot, now, llm), MonthBlock(snapshot, now, llm), AllTimeBlock(snapshot, now, llm);
    Concat3(w, m, a);
    BlockFields(snapshot, now, llm, Last7Days, Top(snapshot, now, Last7Days));
    BlockFields(snapshot, now, llm, Last30Days, Top(snapshot, now, Last30Days));
    BlockFields(snapshot, now, llm, AllTime, NewAllTimeThemes(snapshot, now, llm));
  }

  /** The windows' insights follow each other: last_7_days, then
      last_30_days, then all_time. */
  lemma PeriodsInOrder(snapshot: seq<Note>, now: int, llm: Model)
    ensures var ins := CollectInsights(snapshot, now, llm);
      forall i, j :: 0 <= i < j < |ins| ==> Rank(ins[i].period) <= Rank(ins[j].period)
  {
    CollectIsReference(snapshot, now, llm);
    ReferencePeriods(snapshot, now, llm);
  }

  /** A block of one window whose counts descend */
  predicate DescendingBlock(b: seq<Insight>, p: Period) {
    && (forall i :: 0 <= i < |b| ==> b[i].period == p)
    && (forall i, j :: 0 <= i < j < |b| ==> b[i].count >= b[j].count)
  }

  lemma BlockDescends(snapshot: seq<Note>, now: int, llm: Model, p: Period, themes: seq<ThemeGroup>)
    requires SortedDesc(themes, CountKey)
    ensures DescendingBlock(MapInsights(themes, InsightFor(snapshot, now, llm, p)), p)
  {
    var b := MapInsights(themes, InsightFor(snapshot, now, llm, p));
    BlockFields(snapshot, now, llm, p, themes);
    forall i, j | 0 <= i < j < |b|
      ensures b[i].count >= b[j].count
    {
      assert CountKey(themes[i]) >= CountKey(themes[j]);
    }
  }

  lemma JoinDescends(w: seq<Insight>, m: seq<Insight>, a: seq<Insight>)
    requires DescendingBlock(w, Last7Days) && DescendingBlock(m, Last30Days) && DescendingBlock(a, AllTime)
    ensures var ins := w + m + a;
      forall i, j :: 0 <= i < j < |ins| && ins[i].period == ins[j].period ==> ins[i].count >= ins[j].count
  {
    var ins := w + m + a;
    Concat3(w, m, a);
    forall i, j | 0 <= i < j < |ins| && ins[i].period == ins[j].period
      ensures ins[i].count >= ins[j].count
    {
      if j < |w| {
      } else if j < |w| + |m| {
        assert i >= |w|;
      } else {
        assert i >= |w| + |m|;
      }
    }
  }

  /** Within one window the insights come most frequent first */
  lemma CountsDescendWithinPeriod(snapshot: seq<Note>, now: int, llm: Model)
    ensures var ins := CollectInsights(snapshot, now, llm);
      forall i, j :: 0 <= i < j < |ins| && ins[i].period == ins[j].period ==> ins[i].count >= ins[j].count
  {
    CollectIsReference(snapshot, now, llm);
    BlockDescends(snapshot, now, llm, Last7Days, Top(snapshot, now, Last7Days));
    BlockDescends(snapshot, now, llm, Last30Days, Top(snapshot, now, Last30Days));
    FilterSortedDesc(Top(snapshot, now, AllTime), NotIn(WeekBlock(snapshot, now, llm) + MonthBlock(snapshot, now, llm)), CountKey);
    BlockDescends(snapshot, now, llm, AllTime, NewAllTimeThemes(snapshot, now, llm));
    JoinDescends(WeekBlock(snapshot, now, llm), MonthBlock(snapshot, now, llm), AllTimeBlock(snapshot, now, llm));
  }

  function OfPeriod(p: Period): Insight -> bool {
    (ins: Insight) => ins.period == p
  }

  lemma BlockSlice(b: seq<Insight>, p: Period, q: Period)
    requires forall i :: 0 <= i < |b| ==> b[i].period == q
    ensures Filter(b, OfPeriod(p)) == if p == q then b else []
  {
    if p == q {
      FilterAll(b, OfPeriod(p));
    } else {
      FilterNone(b, OfPeriod(p));
    }
  }

  lemma Concat3Filter<T>(x: seq<T>, y: seq<T>, z: seq<T>, q: T -> bool)
    ensures Filter(x + y + z, q) == Filter(x, q) + Filter(y, q) + Filter(z, q)
  {
    FilterAppend(x + y, z, q);
    FilterAppend(x, y, q);
  }

  lemma Concat3Empty<T>(x: seq<T>, y: seq<T>, z: seq<T>)
    ensures |y| == 0 && |z| == 0 ==> x + y + z == x
    ensures |x| == 0 && |z| == 0 ==> x + y + z == y
    ensures |x| == 0 && |y| == 0 ==> x + y + z == z
  {
  }

  lemma Slice3(w: seq<Insight>, m: seq<Insight>, a: seq<Insight>, p: Period)
    requires forall i :: 0 <= i < |w| ==> w[i].period == Last7Days
    requires forall i :: 0 <= i < |m| ==> m[i].period == Last30Days
    requires forall i :: 0 <= i < |a| ==> a[i].period == AllTime
    ensures Filter(w + m + a, OfPeriod(p)) == match p
      case Last7Days => w
      case Last30Days => m
      case AllTime => a
  {
    var q := OfPeriod(p);
    Concat3Filter(w, m, a, q);
    BlockSlice(w, p, Last7Days);
    BlockSlice(m, p, Last30Days);
    BlockSlice(a, p, AllTime);
    Concat3Empty(Filter(w, q), Filter(m, q), Filter(a, q));
  }

  /** Each window's insights, picked out of the list, are exactly its block */
  lemma PeriodSlice(snapshot: seq<Note>, now: int, llm: Model, p: Period)
    ensures Filter(CollectInsights(snapshot, now, llm), OfPeriod(p))
         == match p
            case Last7Days => WeekBlock(snapshot, now, llm)
            case Last30Days => MonthBlock(snapshot, now, llm)
            case AllTime => AllTimeBlock(snapshot, now, llm)
  {
    CollectIsReference(snapshot, now, llm);
    var w, m, a := WeekBlock(snapshot, now, llm), MonthBlock(snapshot, now, llm), AllTimeBlock(snapshot, now, llm);
    BlockFields(snapshot, now, llm, Last7Days, Top(snapshot, now, Last7Days));
    BlockFields(snapshot, now, llm, Last30Days, Top(snapshot, now, Last30Days));
    BlockFields(snapshot, now, llm, AllTime, NewAllTimeThemes(snapshot, now, llm));
    Slice3(w, m, a, p);
  }

  /** At most ten insights per window */
  lemma PerPeriodCap(snapshot: seq<Note>, now: int, llm: Model, p: Period)
    ensures |Filter(CollectInsights(snapshot, now, llm), OfPeriod(p))| <= MaxThemesPerPeriod
  {
    PeriodSlice(snapshot, now, llm, p);
  }

  /** Some insight of window `p` in `ins` has `theme` */
  ghost predicate Reported(ins: seq<Insight>, p: Period, theme: string) {
    exists i :: 0 <= i < |ins| && ins[i].period == p && ins[i].theme == theme
  }

  /** A block of a list whose insights carry `themes` in order covers each theme */
  lemma BlockCovered(pre: seq<Insight>, b: seq<Insight>, post: seq<Insight>, themes: seq<ThemeGroup>, p: Period)
    requires |b| == |themes|
    requires forall k :: 0 <= k < |b| ==> b[k].period == p && b[k].theme == themes[k].tag
    ensures forall k :: 0 <= k < |themes| ==> Reported(pre + b + post, p, themes[k].tag)
  {
    forall k | 0 <= k < |themes|
      ensures Reported(pre + b + post, p, themes[k].tag)
    {
      assert (pre + b + post)[|pre| + k] == b[k];
    }
  }

  /** Appending insights of all_time whose themes `s` lacks repeats no theme of `s` */
  lemma AppendedNoRepeat(s: seq<Insight>, a: seq<Insight>)
    requires forall i :: 0 <= i < |s| ==> s[i].period != AllTime
    requires forall j :: 0 <= j < |a| ==> a[j].period == AllTime && !HasTheme(s, a[j].theme)
    ensures var ins := s + a;
      forall i, j :: 0 <= i < |ins| && 0 <= j < |ins| && ins[i].period != AllTime && ins[j].period == AllTime
        ==> ins[i].theme != ins[j].theme
  {
    var ins := s + a;
    forall i, j | 0 <= i < |ins| && 0 <= j < |ins| && ins[i].period != AllTime && ins[j].period == AllTime
      ensures ins[i].theme != ins[j].theme
    {
      assert ins[i] == s[i] && ins[j] == a[j - |s|];
      HasThemeMeans(s, a[j - |s|].theme);
    }
  }

  /** An all_time insight never repeats the theme of a 7-day or 30-day insight */
  lemma AllTimeNoRepeat(snapshot: seq<Note>, now: int, llm: Model)
    ensures var ins := CollectInsights(snapshot, now, llm);
      forall i, j :: 0 <= i < |ins| && 0 <= j < |ins| && ins[i].period != AllTime && ins[j].period == AllTime
        ==> ins[i].theme != ins[j].theme
  {
    CollectIsReference(snapshot, now, llm);
    var w, m, a := WeekBlock(snapshot, now, llm), MonthBlock(snapshot, now, llm), AllTimeBlock(snapshot, now, llm);
    var na := NewAllTimeThemes(snapshot, now, llm);
    BlockFields(snapshot, now, llm, AllTime, na);
    forall j | 0 <= j < |a|
      ensures a[j].period == AllTime && !HasTheme(w + m, a[j].theme)
    {
      assert NotIn(w + m)(na[j]);
    }
    ShortBlocksPeriods(snapshot, now, llm);
    AppendedNoRepeat(w + m, a);
  }

  lemma FrontCovered(b: seq<Insight>, post: seq<Insight>, themes: seq<ThemeGroup>, p: Period)
    requires |b| == |themes|
    requires forall k :: 0 <= k < |b| ==> b[k].period == p && b[k].theme == themes[k].tag
    ensures forall k :: 0 <= k < |themes| ==> Reported(b + post, p, themes[k].tag)
  {
    forall k | 0 <= k < |themes|
      ensures Reported(b + post, p, themes[k].tag)
    {
      assert (b + post)[k] == b[k];
    }
  }

  lemma ReportedGrows(s: seq<Insight>, t: seq<Insight>, p: Period, theme: string)
    requires Reported(s, p, theme)
    ensures Reported(s + t, p, theme)
  {
    var i :| 0 <= i < |s| && s[i].period == p && s[i].theme == theme;
    assert (s + t)[i] == s[i];
  }

  lemma WeekCovered(snapshot: seq<Note>, now: int, llm: Model)
    ensures forall k :: 0 <= k < |Top(snapshot, now, Last7Days)| ==>
      Reported(ReferenceInsights(snapshot, now, llm), Last7Days, Top(snapshot, now, Last7Days)[k].tag)
  {
    var w, m, a := WeekBlock(snapshot, now, llm), MonthBlock(snapshot, now, llm), AllTimeBlock(snapshot, now, llm);
    var top := Top(snapshot, now, Last7Days);
    BlockFields(snapshot, now, llm, Last7Days, top);
    FrontCovered(w, m, top, Last7Days);
    forall k | 0 <= k < |top|
      ensures Reported(w + m + a, Last7Days, top[k].tag)
    {
      ReportedGrows(w + m, a, Last7Days, top[k].tag);
    }
  }

  lemma MonthCovered(snapshot: seq<Note>, now: int, llm: Model)
    ensures forall k :: 0 <= k < |Top(snapshot, now, Last30Days)| ==>
      Reported(ReferenceInsights(snapshot, now, llm), Last30Days, Top(snapshot, now, Last30Days)[k].tag)
  {
    var w, m, a := WeekBlock(snapshot, now, llm), MonthBlock(snapshot, now, llm), AllTimeBlock(snapshot, now, llm);
    BlockFields(snapshot, now, llm, Last30Days, Top(snapshot, now, Last30Days));
    BlockCovered(w, m, a, Top(snapshot, now, Last30Days), Last30Days);
  }

  /** Every recurring theme of the past week and of the past month yields
      an insight of that window. */
  lemma ShortWindowsCovered(snapshot: seq<Note>, now: int, llm: Model, p: Period)
    requires p != AllTime
    ensures forall k :: 0 <= k < |Top(snapshot, now, p)| ==>
      Reported(CollectInsights(snapshot, now, llm), p, Top(snapshot, now, p)[k].tag)
  {
    CollectIsReference(snapshot, now, llm);
    if p == Last7Days {
      WeekCovered(snapshot, now, llm);
    } else {
      MonthCovered(snapshot, now, llm);
    }
  }

  /** Themes kept by a filter, or else already present, all occur in the list */
  lemma ThemesCovered(s: seq<Insight>, a: seq<Insight>, kept: seq<ThemeGroup>, top: seq<ThemeGroup>)
    requires |a| == |kept|
    requires forall j :: 0 <= j < |a| ==> a[j].theme == kept[j].tag
    requires forall k :: 0 <= k < |top| && NotIn(s)(top[k]) ==> top[k] in kept
    ensures forall k :: 0 <= k < |top| ==> HasTheme(s + a, top[k].tag)
  {
    forall k | 0 <= k < |top|
      ensures HasTheme(s + a, top[k].tag)
    {
      HasThemeMeans(s + a, top[k].tag);
      if NotIn(s)(top[k]) {
        var j :| 0 <= j < |kept| && kept[j] == top[k];
        assert (s + a)[|s| + j] == a[j];
      } else {
        HasThemeMeans(s, top[k].tag);
        var i :| 0 <= i < |s| && s[i].theme == top[k].tag;
        assert (s + a)[i] == s[i];
      }
    }
  }

  /** Every recurring all-time theme is reported by some insight: by an
      all_time one unless a shorter window reported it already. */
  lemma AllTimeCovered(snapshot: seq<Note>, now: int, llm: Model)
    ensures forall k :: 0 <= k < |Top(snapshot, now, AllTime)| ==>
      HasTheme(CollectInsights(snapshot, now, llm), Top(snapshot, now, AllTime)[k].tag)
  {
    CollectIsReference(snapshot, now, llm);
    var w, m, a := WeekBlock(snapshot, now, llm), MonthBlock(snapshot, now, llm), AllTimeBlock(snapshot, now, llm);
    var na := NewAllTimeThemes(snapshot, now, llm);
    BlockFields(snapshot, now, llm, AllTime, na);
    ThemesCovered(w + m, a, na, Top(snapshot, now, AllTime));
  }

  /** With at most ten recurring themes in a window none is cut: every
      non-empty key occurring at least twice among the window's notes heads
      one of the window's top themes. */
  lemma AllRecurringKept(snapshot: seq<Note>, now: int, p: Period, k: string)
    requires |Filter(Values(GroupByTags(FilterNotesByPeriod(snapshot, p, now))), IsRecurring)| <= MaxThemesPerPeriod
    requires k != "" && |Occurrences(FilterNotesByPeriod(snapshot, p, now), k)| >= MinRecurrence
    ensures exists t :: 0 <= t < |Top(snapshot, now, p)| && Top(snapshot, now, p)[t].tag == k
  {
    var filtered := FilterNotesByPeriod(snapshot, p, now);
    var gm := GroupByTags(filtered);
    var groups := Values(gm);
    var top := Top(snapshot, now, p);
    GroupByTagsCorrect(filtered, k);
    assert k in gm.order;
    var j :| 0 <= j < |gm.order| && gm.order[j] == k;
    assert groups[j] == gm.groups[k] && IsRecurring(groups[j]);
    assert ChosenFrom(top, groups);
    assert groups[j] in top;
    var t :| 0 <= t < |top| && top[t] == groups[j];
  }

  /** A window with at most ten recurring themes gets an insight for each:
      every non-empty key occurring at least twice among a shorter window's
      notes is reported by an insight of that window, and every such key of
      all the notes by an insight of some window. */
  lemma RecurringThemesReported(snapshot: seq<Note>, now: int, llm: Model, p: Period)
    requires |Filter(Values(GroupByTags(FilterNotesByPeriod(snapshot, p, now))), IsRecurring)| <= MaxThemesPerPeriod
    ensures forall k :: k != "" && |Occurrences(FilterNotesByPeriod(snapshot, p, now), k)| >= MinRecurrence ==>
      && (p != AllTime ==> Reported(CollectInsights(snapshot, now, llm), p, k))
      && (p == AllTime ==> HasTheme(CollectInsights(snapshot, now, llm), k))
  {
    forall k | k != "" && |Occurrences(FilterNotesByPeriod(snapshot, p, now), k)| >= MinRecurrence
      ensures p != AllTime ==> Reported(CollectInsights(snapshot, now, llm), p, k)
      ensures p == AllTime ==> HasTheme(CollectInsights(snapshot, now, llm), k)
    {
      AllRecurringKept(snapshot, now, p, k);
      if p != AllTime {
        ShortWindowsCovered(snapshot, now, llm, p);
      } else {
        AllTimeCovered(snapshot, now, llm);
      }
    }
  }

  // ---------------------------------------------------------------------
  // Scenarios

  lemma TopOfNothing(now: int, p: Period)
    ensures Top([], now, p) == []
  {
    assert FilterNotesByPeriod([], p, now) == [];
    var gm := GroupByTags([]);
    assert gm.order == [];
    assert Values(gm) == [];
  }

  /** No notes, no insights */
  lemma NoNotesNoInsights(now: int, llm: Model)
    ensures CollectInsights([], now, llm) == []
  {
    CollectIsReference([], now, llm);
    TopOfNothing(now, Last7Days);
    TopOfNothing(now, Last30Days);
    TopOfNothing(now, AllTime);
  }

  /** A model that never answers */
  ghost predicate AlwaysFails(llm: Model) {
    forall r :: llm(r).NarrationFailed?
  }

  /** With the model unavailable every insight carries the fallback sentence
      for its own count, theme and window. */
  lemma UnavailableModelFallsBack(snapshot: seq<Note>, now: int, llm: Model)
    requires AlwaysFails(llm)
    ensures var ins := CollectInsights(snapshot, now, llm);
      forall i :: 0 <= i < |ins| ==> ins[i].insight == Fallback(ins[i].count, ins[i].theme, ins[i].period)
  {
    var ins := CollectInsights(snapshot, now, llm);
    forall i | 0 <= i < |ins|
      ensures ins[i].insight == Fallback(ins[i].count, ins[i].theme, ins[i].period)
    {
      FallsBackAt(snapshot, now, llm, i);
    }
  }

  lemma FallsBackAt(snapshot: seq<Note>, now: int, llm: Model, i: nat)
    requires AlwaysFails(llm) && i < |CollectInsights(snapshot, now, llm)|
    ensures var ins := CollectInsights(snapshot, now, llm)[i];
      ins.insight == Fallback(ins.count, ins.theme, ins.period)
  {
    InsightContents(snapshot, now, llm, i);
  }
}

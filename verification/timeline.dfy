/** The Timeline Builder of the Pattern Observer (`buildTimeline`): one entry
    per calendar week (Sunday to Saturday) that holds at least one note, with
    the number of notes and a histogram of their normalised tags. */
module Timeline {
  import opened Text
  import opened Seqs
  import opened Clock
  import opened ThemeGrouper
  import opened Wrappers

  /** A week is identified by its start: the Sunday-midnight timestamp that
      `formatDate(getStartOfWeek(..))` renders as `YYYY-MM-DD`. Ordering
      these integers is ordering the fixed-width date strings. */
  datatype TimelineEntry = TimelineEntry(
    weekStart: int,
    weekEnd: int,
    tags: map<string, nat>,
    totalNotes: nat)

  function WeekOf(n: Note): int {
    StartOfWeek(n.createdAt)
  }

  /** The count a histogram holds for `k` (`entry.tags[k] || 0`) */
  function Get(h: map<string, nat>, k: string): nat {
    if k in h then h[k] else 0
  }

  /** Adds one to the histogram for each tag with a non-empty normal form */
  function AddToHistogram(h: map<string, nat>, tags: seq<string>): map<string, nat> {
    if |tags| == 0 then h
    else
      var h' := AddToHistogram(h, tags[..|tags| - 1]);
      var k := Normalize(tags[|tags| - 1]);
      if k == "" then h' else h'[k := Get(h', k) + 1]
  }

  /** Counts note `n` in its week's entry */
  function Count(e: TimelineEntry, n: Note): TimelineEntry {
    e.(totalNotes := e.totalNotes + 1, tags := AddToHistogram(e.tags, n.tags))
  }

  /** A new entry for the week of `n`; its end is six days after its start */
  function NewEntry(n: Note): TimelineEntry {
    var w := WeekOf(n);
    TimelineEntry(w, w + 6 * DayMs, map[], 0)
  }

  /** Counts `n` in its week, keeping entries in ascending week order: the
      `weekMap` update followed by the final sort by key. */
  function Place(es: seq<TimelineEntry>, n: Note): seq<TimelineEntry> {
    if |es| == 0 then [Count(NewEntry(n), n)]
    else if es[0].weekStart == WeekOf(n) then [Count(es[0], n)] + es[1..]
    else if es[0].weekStart > WeekOf(n) then [Count(NewEntry(n), n)] + es
    else [es[0]] + Place(es[1..], n)
  }

  function Fold(notes: seq<Note>): seq<TimelineEntry> {
    if |notes| == 0 then [] else Place(Fold(notes[..|notes| - 1]), notes[|notes| - 1])
  }

  /** `buildTimeline`: entries in strictly ascending week order, each week
      summarised from exactly its notes, totals adding up to the number of
      notes */
  function BuildTimeline(notes: seq<Note>): (r: seq<TimelineEntry>)
    ensures StrictlyAscending(r)
    ensures forall w :: WeekSummarised(r, w, notes)
    ensures TotalNotes(r) == |notes|
  {
    if |notes| == 0 then []
    else
      FoldCorrect(notes);
      Fold(notes)
  }

  // ---------------------------------------------------------------------
  // Reference definition and correctness

  function InWeek(w: int): Note -> bool {
    n => WeekOf(n) == w
  }

  /** The notes created in the week starting at `w`, in input order */
  function WeekNotes(notes: seq<Note>, w: int): seq<Note> {
    Filter(notes, InWeek(w))
  }

  /** `h` counts, for every non-empty key, its occurrences in `ns` */
  ghost predicate HistogramOf(h: map<string, nat>, ns: seq<Note>) {
    && "" !in h
    && forall k :: k != "" ==> (k in h <==> |Occurrences(ns, k)| > 0) && Get(h, k) == |Occurrences(ns, k)|
  }

  /** The entry the week starting at `w` should have, given its notes `ns` */
  ghost predicate EntryOf(e: TimelineEntry, w: int, ns: seq<Note>) {
    && e.weekStart == w
    && e.weekEnd == w + 6 * DayMs
    && e.totalNotes == |ns|
    && HistogramOf(e.tags, ns)
  }

  ghost predicate StrictlyAscending(es: seq<TimelineEntry>) {
    forall i, j :: 0 <= i < j < |es| ==> es[i].weekStart < es[j].weekStart
  }

  /** The entry for week `w`, if any */
  function Lookup(es: seq<TimelineEntry>, w: int): Option<TimelineEntry> {
    if |es| == 0 then None
    else if es[0].weekStart == w then Some(es[0])
    else Lookup(es[1..], w)
  }

  /** Week `w` has an entry exactly when some note falls in it, and that
      entry is built from exactly the notes of the week. */
  ghost predicate WeekSummarised(es: seq<TimelineEntry>, w: int, notes: seq<Note>) {
    && (Lookup(es, w).Some? <==> |WeekNotes(notes, w)| > 0)
    && (Lookup(es, w).Some? ==> EntryOf(Lookup(es, w).value, w, WeekNotes(notes, w)))
  }

  /** Sum of `totalNotes` over the entries */
  function TotalNotes(es: seq<TimelineEntry>): nat {
    if |es| == 0 then 0 else es[0].totalNotes + TotalNotes(es[1..])
  }

  lemma {:induction false} HistogramStep(h: map<string, nat>, ns: seq<Note>, n: Note, tags: seq<string>, k: string)
    requires "" !in h
    ensures "" !in AddToHistogram(h, tags)
    ensures k != "" ==> Get(AddToHistogram(h, tags), k) == Get(h, k) + |Hits(n, tags, k)|
    ensures k != "" ==> (k in AddToHistogram(h, tags) <==> k in h || |Hits(n, tags, k)| > 0)
  {
    if |tags| > 0 {
      HistogramStep(h, ns, n, tags[..|tags| - 1], k);
    }
  }

  lemma CountStepKey(h: map<string, nat>, ns: seq<Note>, n: Note, k: string)
    requires k != "" && "" !in h
    requires (k in h <==> |Occurrences(ns, k)| > 0) && Get(h, k) == |Occurrences(ns, k)|
    ensures var h' := AddToHistogram(h, n.tags);
      (k in h' <==> |Occurrences(ns + [n], k)| > 0) && Get(h', k) == |Occurrences(ns + [n], k)|
  {
    HistogramStep(h, ns, n, n.tags, k);
    assert (ns + [n])[..|ns|] == ns;
  }

  lemma CountStep(e: TimelineEntry, w: int, ns: seq<Note>, n: Note)
    requires EntryOf(e, w, ns)
    ensures EntryOf(Count(e, n), w, ns + [n])
  {
    forall k | k != ""
      ensures var h' := AddToHistogram(e.tags, n.tags);
        (k in h' <==> |Occurrences(ns + [n], k)| > 0) && Get(h', k) == |Occurrences(ns + [n], k)|
    {
      CountStepKey(e.tags, ns, n, k);
    }
    HistogramStep(e.tags, ns, n, n.tags, "");
  }

  lemma NewEntryStep(n: Note)
    ensures EntryOf(Count(NewEntry(n), n), WeekOf(n), [n])
  {
    assert EntryOf(NewEntry(n), WeekOf(n), []);
    CountStep(NewEntry(n), WeekOf(n), [], n);
  }

  lemma {:induction false} LookupBelow(es: seq<TimelineEntry>, w: int)
    requires StrictlyAscending(es) && |es| > 0 && w < es[0].weekStart
    ensures Lookup(es, w) == None
  {
    if |es| > 1 {
      LookupBelow(es[1..], w);
    }
  }

  lemma {:induction false} LookupFound(es: seq<TimelineEntry>, w: int)
    requires Lookup(es, w).Some?
    ensures Lookup(es, w).value in es && Lookup(es, w).value.weekStart == w
  {
    if es[0].weekStart != w {
      LookupFound(es[1..], w);
    }
  }

  lemma {:induction false} LookupIndex(es: seq<TimelineEntry>, i: nat)
    requires StrictlyAscending(es) && i < |es|
    ensures Lookup(es, es[i].weekStart) == Some(es[i])
  {
    if i > 0 {
      LookupIndex(es[1..], i - 1);
    }
  }

  lemma PrependAscending(e: TimelineEntry, es: seq<TimelineEntry>)
    requires StrictlyAscending(es) && (|es| == 0 || e.weekStart < es[0].weekStart)
    ensures StrictlyAscending([e] + es)
  {
    var r := [e] + es;
    forall i, j | 0 <= i < j < |r|
      ensures r[i].weekStart < r[j].weekStart
    {
      assert r[j] == es[j - 1];
      if i > 0 {
        assert r[i] == es[i - 1];
      }
    }
  }

  lemma ReplaceHeadAscending(e: TimelineEntry, es: seq<TimelineEntry>)
    requires StrictlyAscending(es) && |es| > 0 && e.weekStart == es[0].weekStart
    ensures StrictlyAscending([e] + es[1..])
  {
    var r := [e] + es[1..];
    forall i, j | 0 <= i < j < |r|
      ensures r[i].weekStart < r[j].weekStart
    {
      assert r[j] == es[j];
      assert r[i].weekStart == es[i].weekStart;
    }
  }

  /** Placing a note keeps the weeks strictly ascending; the first week is
      the earlier of the note's week and the former first week. */
  lemma {:induction false} PlaceAscending(es: seq<TimelineEntry>, n: Note)
    requires StrictlyAscending(es)
    ensures StrictlyAscending(Place(es, n))
    ensures |Place(es, n)| > 0
    ensures Place(es, n)[0].weekStart
      == if |es| == 0 || WeekOf(n) < es[0].weekStart then WeekOf(n) else es[0].weekStart
  {
    var w := WeekOf(n);
    if |es| == 0 {
    } else if es[0].weekStart < w {
      PlaceAscending(es[1..], n);
      PrependAscending(es[0], Place(es[1..], n));
    } else if es[0].weekStart > w {
      PrependAscending(Count(NewEntry(n), n), es);
    } else {
      ReplaceHeadAscending(Count(es[0], n), es);
    }
  }

  /** What placing a note does to the entry of each week */
  lemma {:induction false} PlaceLookup(es: seq<TimelineEntry>, n: Note, w: int)
    requires StrictlyAscending(es)
    ensures Lookup(Place(es, n), w)
      == if w == WeekOf(n) then Some(Count(Lookup(es, w).GetOr(NewEntry(n)), n)) else Lookup(es, w)
  {
    if |es| == 0 {
    } else if es[0].weekStart == WeekOf(n) {
    } else if es[0].weekStart > WeekOf(n) {
      if w == WeekOf(n) {
        LookupBelow(es, w);
      }
    } else {
      PlaceLookup(es[1..], n, w);
    }
  }

  lemma {:induction false} PlaceTotal(es: seq<TimelineEntry>, n: Note)
    ensures TotalNotes(Place(es, n)) == TotalNotes(es) + 1
  {
    if |es| > 0 && es[0].weekStart < WeekOf(n) {
      PlaceTotal(es[1..], n);
      assert Place(es, n)[1..] == Place(es[1..], n);
    } else if |es| > 0 && es[0].weekStart == WeekOf(n) {
      assert Place(es, n)[1..] == es[1..];
    } else if |es| > 0 {
      assert Place(es, n)[1..] == es;
    }
  }

  lemma WeekNotesSnoc(notes: seq<Note>, n: Note, w: int)
    ensures WeekNotes(notes + [n], w) == WeekNotes(notes, w) + (if WeekOf(n) == w then [n] else [])
  {
    assert (notes + [n])[..|notes|] == notes;
  }

  lemma WeekStepOther(es: seq<TimelineEntry>, w: int, notes: seq<Note>, n: Note)
    requires StrictlyAscending(es) && WeekSummarised(es, w, notes) && w != WeekOf(n)
    ensures WeekSummarised(Place(es, n), w, notes + [n])
  {
    PlaceLookup(es, n, w);
    WeekNotesSnoc(notes, n, w);
    assert WeekNotes(notes + [n], w) == WeekNotes(notes, w);
  }

  lemma WeekStepSame(es: seq<TimelineEntry>, notes: seq<Note>, n: Note)
    requires StrictlyAscending(es) && WeekSummarised(es, WeekOf(n), notes)
    ensures WeekSummarised(Place(es, n), WeekOf(n), notes + [n])
  {
    var w := WeekOf(n);
    PlaceLookup(es, n, w);
    WeekNotesSnoc(notes, n, w);
    var ns := WeekNotes(notes, w);
    assert WeekNotes(notes + [n], w) == ns + [n];
    if Lookup(es, w).Some? {
      CountStep(Lookup(es, w).value, w, ns, n);
    } else {
      assert ns == [];
      assert ns + [n] == [n];
      NewEntryStep(n);
    }
  }

  lemma WeekStep(es: seq<TimelineEntry>, w: int, notes: seq<Note>, n: Note)
    requires StrictlyAscending(es) && WeekSummarised(es, w, notes)
    ensures WeekSummarised(Place(es, n), w, notes + [n])
  {
    if w == WeekOf(n) {
      WeekStepSame(es, notes, n);
    } else {
      WeekStepOther(es, w, notes, n);
    }
  }

  lemma {:induction false} FoldCorrect(notes: seq<Note>)
    ensures StrictlyAscending(Fold(notes))
    ensures forall w :: WeekSummarised(Fold(notes), w, notes)
    ensures TotalNotes(Fold(notes)) == |notes|
  {
    if |notes| > 0 {
      var init := notes[..|notes| - 1];
      var n := notes[|notes| - 1];
      FoldCorrect(init);
      assert init + [n] == notes;
      PlaceAscending(Fold(init), n);
      PlaceTotal(Fold(init), n);
      forall w
        ensures WeekSummarised(Fold(notes), w, notes)
      {
        WeekStep(Fold(init), w, init, n);
      }
    }
  }

  /** `buildTimeline` agrees with the reference definition: the week starts
      are strictly ascending (so unique); there is an entry exactly for each
      week holding a note; each entry ends six days after it starts and
      counts exactly that week's notes and their normalised tags; and the
      entry totals add up to the number of notes. */
  lemma BuildTimelineCorrect(notes: seq<Note>)
    ensures var es := BuildTimeline(notes);
      && StrictlyAscending(es)
      && (forall i :: 0 <= i < |es| ==> EntryOf(es[i], es[i].weekStart, WeekNotes(notes, es[i].weekStart)))
      && (forall i :: 0 <= i < |es| ==> es[i].totalNotes > 0)
      && (forall n :: n in notes ==> exists i :: 0 <= i < |es| && es[i].weekStart == WeekOf(n))
      && TotalNotes(es) == |notes|
  {
    var es := BuildTimeline(notes);
    forall i | 0 <= i < |es|
      ensures EntryOf(es[i], es[i].weekStart, WeekNotes(notes, es[i].weekStart))
      ensures es[i].totalNotes > 0
    {
      LookupIndex(es, i);
      assert WeekSummarised(es, es[i].weekStart, notes);
    }
    forall n | n in notes
      ensures exists i :: 0 <= i < |es| && es[i].weekStart == WeekOf(n)
    {
      var w := WeekOf(n);
      assert n in WeekNotes(notes, w);
      assert WeekSummarised(es, w, notes);
      LookupFound(es, w);
    }
  }

  /** An empty input gives an empty timeline, and only an empty input does */
  lemma BuildTimelineEmpty(notes: seq<Note>)
    ensures BuildTimeline(notes) == [] <==> |notes| == 0
  {
    if |notes| > 0 {
      BuildTimelineCorrect(notes);
      assert notes[0] in notes;
    }
  }

  /** Each note falls in the week of its entry: that week starts at a Sunday
      midnight at most seven days before the note was created. */
  lemma NoteWeekBounds(n: Note)
    ensures WeekOf(n) <= n.createdAt < WeekOf(n) + 7 * DayMs
    ensures WeekOf(n) % DayMs == 0 && WeekDay(WeekOf(n)) == 0
  {
  }
}

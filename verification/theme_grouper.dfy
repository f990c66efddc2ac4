/** The Theme Grouper of the Pattern Observer: partitions notes into groups
    keyed by normalised tag (`groupByTags`). */
module ThemeGrouper {
  import opened Text
  import opened Seqs

  /** A knowledge item as the analysis reads it; `createdAt` is a timestamp in ms */
  datatype Note = Note(id: string, title: string, tags: seq<string>, createdAt: int)

  /** All notes carrying one normalised tag. One entry per tag occurrence, so
      a note tagged both "AI" and "ai" appears twice. */
  datatype ThemeGroup = ThemeGroup(
    tag: string,
    noteIds: seq<string>,
    titles: seq<string>,
    count: nat,
    oldestDate: int,
    newestDate: int)

  /** A JavaScript `Map<string, ThemeGroup>`: the groups by key, and the keys
      in insertion order (the Map's iteration order). */
  datatype GroupMap = GroupMap(order: seq<string>, groups: map<string, ThemeGroup>)

  ghost predicate WellFormed(g: GroupMap) {
    && Distinct(g.order)
    && (forall k :: k in g.groups <==> k in g.order)
  }

  // ---------------------------------------------------------------------
  // Reference definition: the occurrences of a normalised tag

  /** One copy of `n` for each of `tags` that normalises to `k`, in tag order */
  function Hits(n: Note, tags: seq<string>, k: string): seq<Note> {
    if |tags| == 0 then []
    else Hits(n, tags[..|tags| - 1], k) + (if Normalize(tags[|tags| - 1]) == k then [n] else [])
  }

  /** The (note, tag) occurrences the grouping loops meet for `k`, in visiting order */
  function Occurrences(notes: seq<Note>, k: string): seq<Note> {
    if |notes| == 0 then []
    else Occurrences(notes[..|notes| - 1], k) + Hits(notes[|notes| - 1], notes[|notes| - 1].tags, k)
  }

  function Ids(ns: seq<Note>): (r: seq<string>)
    ensures |r| == |ns|
    ensures forall i :: 0 <= i < |ns| ==> r[i] == ns[i].id
  {
    seq(|ns|, i requires 0 <= i < |ns| => ns[i].id)
  }

  function Titles(ns: seq<Note>): (r: seq<string>)
    ensures |r| == |ns|
    ensures forall i :: 0 <= i < |ns| ==> r[i] == ns[i].title
  {
    seq(|ns|, i requires 0 <= i < |ns| => ns[i].title)
  }

  function Min(a: int, b: int): int { if a <= b then a else b }
  function Max(a: int, b: int): int { if a >= b then a else b }

  /** The earliest creation time among `ns` */
  function Oldest(ns: seq<Note>): (m: int)
    requires |ns| > 0
    ensures forall i :: 0 <= i < |ns| ==> m <= ns[i].createdAt
    ensures exists i :: 0 <= i < |ns| && m == ns[i].createdAt
  {
    if |ns| == 1 then ns[0].createdAt
    else
      var m := Oldest(ns[..|ns| - 1]);
      assert forall i :: 0 <= i < |ns| - 1 ==> ns[..|ns| - 1][i] == ns[i];
      Min(m, ns[|ns| - 1].createdAt)
  }

  /** The latest creation time among `ns` */
  function Newest(ns: seq<Note>): (m: int)
    requires |ns| > 0
    ensures forall i :: 0 <= i < |ns| ==> ns[i].createdAt <= m
    ensures exists i :: 0 <= i < |ns| && m == ns[i].createdAt
  {
    if |ns| == 1 then ns[0].createdAt
    else
      var m := Newest(ns[..|ns| - 1]);
      assert forall i :: 0 <= i < |ns| - 1 ==> ns[..|ns| - 1][i] == ns[i];
      Max(m, ns[|ns| - 1].createdAt)
  }

  /** The group a key should have, given its occurrences */
  function GroupOf(k: string, occ: seq<Note>): ThemeGroup
    requires |occ| > 0
  {
    ThemeGroup(k, Ids(occ), Titles(occ), |occ|, Oldest(occ), Newest(occ))
  }

  // ---------------------------------------------------------------------
  // The grouping as the source computes it

  /** Records one more member note in a group */
  function Absorb(grp: ThemeGroup, n: Note): ThemeGroup {
    grp.(
      noteIds := grp.noteIds + [n.id],
      titles := grp.titles + [n.title],
      count := grp.count + 1,
      oldestDate := if n.createdAt < grp.oldestDate then n.createdAt else grp.oldestDate,
      newestDate := if n.createdAt > grp.newestDate then n.createdAt else grp.newestDate)
  }

  /** The inner loop body for one tag of note `n`: skip tags that normalise to
      the empty string, create the group on first sight, then absorb `n`. */
  function AddTag(g: GroupMap, n: Note, tag: string): (r: GroupMap)
    requires WellFormed(g)
    ensures WellFormed(r)
  {
    var k := Normalize(tag);
    if k == "" then g
    else if k !in g.groups then
      var start := ThemeGroup(k, [], [], 0, n.createdAt, n.createdAt);
      assert forall j :: 0 <= j < |g.order| ==> g.order[j] in g.groups;
      GroupMap(g.order + [k], g.groups[k := Absorb(start, n)])
    else
      g.(groups := g.groups[k := Absorb(g.groups[k], n)])
  }

  function AddTags(g: GroupMap, n: Note, tags: seq<string>): (r: GroupMap)
    requires WellFormed(g)
    ensures WellFormed(r)
  {
    if |tags| == 0 then g else AddTag(AddTags(g, n, tags[..|tags| - 1]), n, tags[|tags| - 1])
  }

  /** The non-empty normal forms of `tags`, in order, repetitions included */
  function TagKeys(tags: seq<string>): seq<string> {
    if |tags| == 0 then []
    else
      var k := Normalize(tags[|tags| - 1]);
      TagKeys(tags[..|tags| - 1]) + (if k == "" then [] else [k])
  }

  /** The non-empty normal forms of all tags, in visiting order */
  function AllKeys(notes: seq<Note>): seq<string> {
    if |notes| == 0 then [] else AllKeys(notes[..|notes| - 1]) + TagKeys(notes[|notes| - 1].tags)
  }

  /** The keys in the order the loops first meet them */
  function FirstKeys(notes: seq<Note>): seq<string> {
    Dedup(AllKeys(notes))
  }

  /** Running the inner loop over `tags` appends their new keys to the order */
  lemma {:induction false} AddTagsOrder(g: GroupMap, n: Note, tags: seq<string>, seen: seq<string>)
    requires WellFormed(g) && g.order == Dedup(seen)
    ensures AddTags(g, n, tags).order == Dedup(seen + TagKeys(tags))
  {
    if |tags| == 0 {
      assert seen + TagKeys(tags) == seen;
    } else {
      var init, tag := tags[..|tags| - 1], tags[|tags| - 1];
      var k := Normalize(tag);
      var prev := AddTags(g, n, init);
      AddTagsOrder(g, n, init, seen);
      AddTagOrder(prev, n, tag);
      if k == "" {
        assert seen + TagKeys(tags) == seen + TagKeys(init);
      } else {
        assert TagKeys(tags) == TagKeys(init) + [k];
        Assoc(seen, TagKeys(init), [k]);
        DedupSnoc(seen + TagKeys(init), k);
      }
    }
  }

  /** A tag's key joins the order the first time it is met */
  lemma AddTagOrder(g: GroupMap, n: Note, tag: string)
    requires WellFormed(g)
    ensures var k := Normalize(tag);
      AddTag(g, n, tag).order == if k == "" || k in g.order then g.order else g.order + [k]
  {
  }

  /** `groupByTags`: the Map's keys come in the order the loops first meet
      them */
  function GroupByTags(notes: seq<Note>): (r: GroupMap)
    ensures WellFormed(r)
    ensures r.order == FirstKeys(notes)
  {
    if |notes| == 0 then GroupMap([], map[])
    else
      var init, last := notes[..|notes| - 1], notes[|notes| - 1];
      var prev := GroupByTags(init);
      AddTagsOrder(prev, last, last.tags, AllKeys(init));
      AddTags(prev, last, last.tags)
  }

  /** The groups in the Map's iteration order (`Array.from(groups.values())`) */
  function Values(g: GroupMap): (r: seq<ThemeGroup>)
    requires WellFormed(g)
    ensures |r| == |g.order|
    ensures forall i :: 0 <= i < |r| ==> g.order[i] in g.groups && r[i] == g.groups[g.order[i]]
  {
    seq(|g.order|, i requires 0 <= i < |g.order| => g.groups[g.order[i]])
  }

  // ---------------------------------------------------------------------
  // Correctness of the grouping against the reference definition

  /** `g` has a group for `k` exactly when `k` is a non-empty key with
      occurrences `occ`, and that group is the one `occ` determines. */
  ghost predicate KeySummarised(g: GroupMap, k: string, occ: seq<Note>) {
    && (k in g.groups <==> k != "" && |occ| > 0)
    && (k in g.groups ==> |occ| > 0 && g.groups[k] == GroupOf(k, occ))
  }

  lemma AbsorbExtends(k: string, occ: seq<Note>, n: Note)
    requires |occ| > 0
    ensures Absorb(GroupOf(k, occ), n) == GroupOf(k, occ + [n])
  {
    var occ' := occ + [n];
    assert occ'[..|occ'| - 1] == occ;
    assert Ids(occ') == Ids(occ) + [n.id];
    assert Titles(occ') == Titles(occ) + [n.title];
  }

  lemma AddTagOther(g: GroupMap, k: string, n: Note, tag: string)
    requires WellFormed(g) && (Normalize(tag) != k || k == "")
    ensures k in AddTag(g, n, tag).groups <==> k in g.groups
    ensures k in g.groups ==> AddTag(g, n, tag).groups[k] == g.groups[k]
  {
  }

  /** A further sighting of a key extends its group by the note, as if the
      note were one more occurrence, and leaves the other groups alone. */
  lemma AddTagExisting(g: GroupMap, n: Note, tag: string, occ: seq<Note>)
    requires WellFormed(g) && Normalize(tag) != "" && |occ| > 0
    requires Normalize(tag) in g.groups && g.groups[Normalize(tag)] == GroupOf(Normalize(tag), occ)
    ensures var k := Normalize(tag);
      AddTag(g, n, tag).groups == g.groups[k := GroupOf(k, occ + [n])]
  {
    AbsorbExtends(Normalize(tag), occ, n);
  }

  lemma AddTagNew(g: GroupMap, n: Note, tag: string)
    requires WellFormed(g) && Normalize(tag) != "" && Normalize(tag) !in g.groups
    ensures var k := Normalize(tag);
      AddTag(g, n, tag).groups == g.groups[k := GroupOf(k, [n])]
  {
    var k := Normalize(tag);
    var start := ThemeGroup(k, [], [], 0, n.createdAt, n.createdAt);
    assert AddTag(g, n, tag).groups == g.groups[k := Absorb(start, n)];
    assert Ids([n]) == [n.id] && Titles([n]) == [n.title];
    assert Absorb(start, n) == GroupOf(k, [n]);
  }

  lemma AddTagKey(g: GroupMap, k: string, occ: seq<Note>, n: Note, tag: string)
    requires WellFormed(g) && KeySummarised(g, k, occ)
    ensures KeySummarised(AddTag(g, n, tag), k, occ + (if Normalize(tag) == k then [n] else []))
  {
    var key := Normalize(tag);
    if k == "" {
      AddTagOther(g, k, n, tag);
    } else if key != k {
      assert occ + [] == occ;
      AddTagOther(g, k, n, tag);
    } else if k in g.groups {
      AddTagExisting(g, n, tag, occ);
    } else {
      assert occ + [n] == [n];
      AddTagNew(g, n, tag);
    }
  }

  lemma HitsSnoc(n: Note, tags: seq<string>, k: string, occ: seq<Note>)
    requires |tags| > 0
    ensures occ + Hits(n, tags, k)
         == (occ + Hits(n, tags[..|tags| - 1], k)) + (if Normalize(tags[|tags| - 1]) == k then [n] else [])
  {
  }

  lemma {:induction false} AddTagsKey(g: GroupMap, k: string, occ: seq<Note>, n: Note, tags: seq<string>)
    requires WellFormed(g) && KeySummarised(g, k, occ)
    ensures KeySummarised(AddTags(g, n, tags), k, occ + Hits(n, tags, k))
  {
    if |tags| == 0 {
      assert occ + Hits(n, tags, k) == occ;
    } else {
      var init := tags[..|tags| - 1];
      AddTagsKey(g, k, occ, n, init);
      AddTagKey(AddTags(g, n, init), k, occ + Hits(n, init, k), n, tags[|tags| - 1]);
      HitsSnoc(n, tags, k, occ);
    }
  }

  /** `groupByTags` agrees with the reference definition for every key: a
      group exists exactly for the non-empty normalised tags that occur, and
      it lists that key's occurrences (ids and titles in visiting order,
      count, earliest and latest creation time). */
  lemma {:induction false} GroupByTagsCorrect(notes: seq<Note>, k: string)
    ensures KeySummarised(GroupByTags(notes), k, Occurrences(notes, k))
  {
    if |notes| > 0 {
      var init := notes[..|notes| - 1];
      var last := notes[|notes| - 1];
      GroupByTagsCorrect(init, k);
      AddTagsKey(GroupByTags(init), k, Occurrences(init, k), last, last.tags);
    }
  }

  lemma {:induction false} HitsWitness(n: Note, tags: seq<string>, k: string)
    requires |Hits(n, tags, k)| > 0
    ensures exists t :: t in tags && Normalize(t) == k
    ensures forall i :: 0 <= i < |Hits(n, tags, k)| ==> Hits(n, tags, k)[i] == n
  {
    var init := tags[..|tags| - 1];
    if |Hits(n, init, k)| > 0 {
      HitsWitness(n, init, k);
    }
    if Normalize(tags[|tags| - 1]) != k {
      assert Hits(n, tags, k) == Hits(n, init, k);
    }
  }

  lemma {:induction false} HitsAreNote(n: Note, tags: seq<string>, k: string)
    ensures forall i :: 0 <= i < |Hits(n, tags, k)| ==> Hits(n, tags, k)[i] == n
  {
    if |Hits(n, tags, k)| > 0 {
      HitsWitness(n, tags, k);
    }
  }

  /** Every occurrence of `k` is a note of the input carrying a tag that normalises to `k` */
  lemma {:induction false} OccurrenceSource(notes: seq<Note>, k: string, i: nat)
    requires i < |Occurrences(notes, k)|
    ensures Occurrences(notes, k)[i] in notes
    ensures exists t :: t in Occurrences(notes, k)[i].tags && Normalize(t) == k
  {
    var init := notes[..|notes| - 1];
    var last := notes[|notes| - 1];
    var before := Occurrences(init, k);
    if i < |before| {
      OccurrenceSource(init, k, i);
    } else {
      HitsWitness(last, last.tags, k);
    }
  }

  /** Group invariants: every key is the non-empty normal form of some tag
      of the input (normalising it again changes nothing); the count matches
      the lengths of both member lists; the date range is ordered. */
  lemma GroupShape(notes: seq<Note>, k: string)
    requires k in GroupByTags(notes).groups
    ensures var grp := GroupByTags(notes).groups[k];
      && grp.tag == k && k != "" && k == Normalize(k)
      && (exists n, t :: n in notes && t in n.tags && Normalize(t) == k)
      && grp.count == |grp.noteIds| == |grp.titles| >= 1
      && grp.oldestDate <= grp.newestDate
  {
    GroupByTagsCorrect(notes, k);
    var occ := Occurrences(notes, k);
    OccurrenceSource(notes, k, 0);
    var t :| t in occ[0].tags && Normalize(t) == k;
    NormalizeIdempotent(t);
  }

  /** Every listed member is a note of the input that carries the group's
      tag, with the listed title, created within [oldestDate, newestDate]. */
  lemma GroupMembers(notes: seq<Note>, k: string, i: nat)
    requires k in GroupByTags(notes).groups
    requires i < |GroupByTags(notes).groups[k].noteIds|
    ensures var grp := GroupByTags(notes).groups[k];
      && i < |grp.titles|
      && exists n :: (
        && n in notes && n.id == grp.noteIds[i] && n.title == grp.titles[i]
        && grp.oldestDate <= n.createdAt <= grp.newestDate
        && (exists t :: t in n.tags && Normalize(t) == k))
  {
    GroupByTagsCorrect(notes, k);
    var occ := Occurrences(notes, k);
    OccurrenceSource(notes, k, i);
    var n := occ[i];
    var grp := GroupByTags(notes).groups[k];
    assert n.id == grp.noteIds[i] && n.title == grp.titles[i];
  }
}

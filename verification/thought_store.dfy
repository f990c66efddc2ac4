/** The browser-side thought store: a list of thoughts kept in local storage,
    synchronised with the server when it answers. The stored list is a
    value; every call takes the current list and returns the new one. What
    the server answers, the clock and the generated temporary ids are
    parameters. */
module ThoughtStore {
  import opened Wrappers
  import opened Seqs
  import opened Text
  import opened Clock

  datatype ThoughtType = NoteThought | LinkThought | InsightThought

  /** A captured thought. `createdAt` is the creation time as a timestamp. */
  datatype Thought = Thought(
    id: string,
    title: string,
    content: string,
    kind: ThoughtType,
    tags: seq<string>,
    sourceUrl: Option<string>,
    summary: Option<string>,
    pinned: bool,
    createdAt: int)

  function CreatedAt(t: Thought): int {
    t.createdAt
  }

  function ThoughtIds(store: seq<Thought>): (r: seq<string>)
    ensures |r| == |store|
    ensures forall i :: 0 <= i < |store| ==> r[i] == store[i].id
  {
    seq(|store|, i requires 0 <= i < |store| => store[i].id)
  }

  /** Applies `f` to every thought with identifier `id`, keeping the others */
  function MapWhere(store: seq<Thought>, id: string, f: Thought -> Thought): (r: seq<Thought>)
    ensures |r| == |store|
    ensures forall i :: 0 <= i < |store| ==> r[i] == if store[i].id == id then f(store[i]) else store[i]
  {
    seq(|store|, i requires 0 <= i < |store| => if store[i].id == id then f(store[i]) else store[i])
  }

  // ---------------------------------------------------------------------------
  // Reading the list
  // ---------------------------------------------------------------------------

  /** The stored list after a read, and what the read returned */
  datatype Loaded = Loaded(store: seq<Thought>, thoughts: seq<Thought>)

  /** The thought has a pinned copy in the local list */
  ghost predicate PinnedLocally(local: seq<Thought>, id: string) {
    exists j :: 0 <= j < |local| && local[j].pinned && local[j].id == id
  }

  function PinnedIds(local: seq<Thought>): set<string> {
    set j | 0 <= j < |local| && local[j].pinned :: local[j].id
  }

  /** The server's list, with the pins kept locally added */
  function Merge(local: seq<Thought>, server: seq<Thought>): (r: seq<Thought>)
    ensures |r| == |server|
    ensures forall i :: 0 <= i < |server| ==>
      && r[i].(pinned := server[i].pinned) == server[i]
      && (r[i].pinned <==> server[i].pinned || PinnedLocally(local, server[i].id))
  {
    var pins := PinnedIds(local);
    assert forall id :: id in pins <==> PinnedLocally(local, id);
    seq(|server|, i requires 0 <= i < |server| => server[i].(pinned := server[i].id in pins || server[i].pinned))
  }

  /** `getAllThoughts`: a non-empty answer from the server, merged with the
      local pins, replaces the local list; otherwise the local list is read. */
  function GetAllThoughts(local: seq<Thought>, server: Option<seq<Thought>>): (r: Loaded)
    ensures server.None? || |server.value| == 0 ==> r == Loaded(local, local)
    ensures server.Some? && |server.value| > 0 ==> r.store == r.thoughts && r.thoughts == Merge(local, server.value)
  {
    if server.Some? && |server.value| > 0 then
      var merged := Merge(local, server.value);
      Loaded(merged, merged)
    else
      Loaded(local, local)
  }

  /** Reading again with the same answer from the server changes nothing,
      provided the server lists every identifier once. */
  lemma MergeIdempotent(local: seq<Thought>, server: seq<Thought>)
    requires Distinct(ThoughtIds(server))
    ensures Merge(Merge(local, server), server) == Merge(local, server)
  {
    var once := Merge(local, server);
    var twice := Merge(once, server);
    forall i | 0 <= i < |server|
      ensures twice[i] == once[i]
    {
      if PinnedLocally(once, server[i].id) {
        var j :| 0 <= j < |once| && once[j].pinned && once[j].id == server[i].id;
        assert ThoughtIds(server)[j] == ThoughtIds(server)[i];
      }
      if once[i].pinned {
        assert PinnedLocally(once, server[i].id);
      }
    }
  }

  /** A merge never unpins: what the server or the local list had pinned is
      pinned afterwards. */
  lemma MergeKeepsPins(local: seq<Thought>, server: seq<Thought>, i: nat, j: nat)
    requires i < |server| && j < |local|
    requires local[j].id == server[i].id
    requires local[j].pinned || server[i].pinned
    ensures Merge(local, server)[i].pinned
  {
  }

  // ---------------------------------------------------------------------------
  // Adding
  // ---------------------------------------------------------------------------

  /** The caller's part of a new thought */
  datatype Draft = Draft(
    title: string,
    content: string,
    kind: ThoughtType,
    tags: seq<string>,
    sourceUrl: Option<string>,
    summary: Option<string>)

  /** The list after an addition, and the thought the addition returned */
  datatype Added = Added(store: seq<Thought>, thought: Thought)

  function FromDraft(d: Draft, id: string, createdAt: int): Thought {
    Thought(id, d.title, d.content, d.kind, d.tags, d.sourceUrl, d.summary, false, createdAt)
  }

  /** `addThought`: the thought is stored first under the temporary id
      `tempId` and creation time `now`; when the server creates it
      (`created` holds the server's copy), the entries with the temporary id
      are replaced by the server's copy, unpinned. */
  function AddThought(store: seq<Thought>, d: Draft, tempId: string, now: int, created: Option<Thought>): (r: Added)
    ensures |r.store| == |store| + 1
    ensures r.store[0] == r.thought && !r.thought.pinned
    ensures created.None? ==> r.thought == FromDraft(d, tempId, now) && r.store == [r.thought] + store
    ensures created.Some? ==> r.thought == created.value.(pinned := false)
    ensures forall i :: 0 <= i < |store| && store[i].id != tempId ==> r.store[i + 1] == store[i]
    ensures forall i :: 0 <= i < |store| && store[i].id == tempId ==> r.store[i + 1] == (if created.Some? then r.thought else store[i])
  {
    var local := FromDraft(d, tempId, now);
    var all := [local] + store;
    assert forall i :: 0 <= i < |store| ==> all[i + 1] == store[i];
    match created
      case None => Added(all, local)
      case Some(c) =>
        var synced := c.(pinned := false);
        Added(MapWhere(all, tempId, (t: Thought) => synced), synced)
  }

  /** With a temporary id no stored thought has, the new thought is simply
      put in front of the list. */
  lemma AddFreshId(store: seq<Thought>, d: Draft, tempId: string, now: int, created: Option<Thought>)
    requires tempId !in ThoughtIds(store)
    ensures AddThought(store, d, tempId, now, created).store == [AddThought(store, d, tempId, now, created).thought] + store
  {
    var r := AddThought(store, d, tempId, now, created);
    forall i | 0 <= i < |store|
      ensures r.store[i + 1] == store[i]
    {
      assert ThoughtIds(store)[i] == store[i].id;
    }
  }

  // ---------------------------------------------------------------------------
  // Pinning, editing, deleting
  // ---------------------------------------------------------------------------

  function Flip(t: Thought): Thought {
    t.(pinned := !t.pinned)
  }

  /** `togglePin`: flips the pin of the thoughts with identifier `id` */
  function TogglePin(store: seq<Thought>, id: string): (r: seq<Thought>)
    ensures |r| == |store|
    ensures forall i :: 0 <= i < |store| ==>
      && r[i].(pinned := store[i].pinned) == store[i]
      && (r[i].pinned != store[i].pinned <==> store[i].id == id)
  {
    MapWhere(store, id, Flip)
  }

  /** Toggling twice restores the list */
  lemma TogglePinInvolution(store: seq<Thought>, id: string)
    ensures TogglePin(TogglePin(store, id), id) == store
  {
  }

  /** A partial thought: the fields to overwrite (`Partial<Thought>`) */
  datatype Patch = Patch(
    id: Option<string>,
    title: Option<string>,
    content: Option<string>,
    kind: Option<ThoughtType>,
    tags: Option<seq<string>>,
    sourceUrl: Option<string>,
    summary: Option<string>,
    pinned: Option<bool>,
    createdAt: Option<int>)

  const NoChange := Patch(None, None, None, None, None, None, None, None, None)

  function Pick<T>(given: Option<T>, kept: T): T {
    if given.Some? then given.value else kept
  }

  /** `{ ...t, ...u }` */
  function ApplyPatch(t: Thought, u: Patch): Thought {
    Thought(
      Pick(u.id, t.id),
      Pick(u.title, t.title),
      Pick(u.content, t.content),
      Pick(u.kind, t.kind),
      Pick(u.tags, t.tags),
      if u.sourceUrl.Some? then u.sourceUrl else t.sourceUrl,
      if u.summary.Some? then u.summary else t.summary,
      Pick(u.pinned, t.pinned),
      Pick(u.createdAt, t.createdAt))
  }

  /** `{ ...u, ...v }`: the later patch wins field by field */
  function Then(u: Patch, v: Patch): Patch {
    Patch(
      if v.id.Some? then v.id else u.id,
      if v.title.Some? then v.title else u.title,
      if v.content.Some? then v.content else u.content,
      if v.kind.Some? then v.kind else u.kind,
      if v.tags.Some? then v.tags else u.tags,
      if v.sourceUrl.Some? then v.sourceUrl else u.sourceUrl,
      if v.summary.Some? then v.summary else u.summary,
      if v.pinned.Some? then v.pinned else u.pinned,
      if v.createdAt.Some? then v.createdAt else u.createdAt)
  }

  /** `updateThought`: overwrites the fields present in `u` on the thoughts
      with identifier `id` */
  function UpdateThought(store: seq<Thought>, id: string, u: Patch): (r: seq<Thought>)
    ensures |r| == |store|
    ensures forall i :: 0 <= i < |store| && store[i].id != id ==> r[i] == store[i]
    ensures forall i :: 0 <= i < |store| && store[i].id == id ==>
      && (u.title.None? ==> r[i].title == store[i].title)
      && (u.content.None? ==> r[i].content == store[i].content)
      && (u.kind.None? ==> r[i].kind == store[i].kind)
      && (u.tags.None? ==> r[i].tags == store[i].tags)
      && (u.sourceUrl.None? ==> r[i].sourceUrl == store[i].sourceUrl)
      && (u.summary.None? ==> r[i].summary == store[i].summary)
      && (u.pinned.None? ==> r[i].pinned == store[i].pinned)
      && (u.createdAt.None? ==> r[i].createdAt == store[i].createdAt)
      && (u.id.None? ==> r[i].id == id)
      && (u.title.Some? ==> r[i].title == u.title.value)
      && (u.content.Some? ==> r[i].content == u.content.value)
      && (u.kind.Some? ==> r[i].kind == u.kind.value)
      && (u.tags.Some? ==> r[i].tags == u.tags.value)
      && (u.sourceUrl.Some? ==> r[i].sourceUrl == u.sourceUrl)
      && (u.summary.Some? ==> r[i].summary == u.summary)
      && (u.pinned.Some? ==> r[i].pinned == u.pinned.value)
      && (u.createdAt.Some? ==> r[i].createdAt == u.createdAt.value)
      && (u.id.Some? ==> r[i].id == u.id.value)
  {
    MapWhere(store, id, (t: Thought) => ApplyPatch(t, u))
  }

  /** An empty patch changes nothing */
  lemma UpdateNothing(store: seq<Thought>, id: string)
    ensures UpdateThought(store, id, NoChange) == store
  {
  }

  /** Applying the same update twice is applying it once */
  lemma UpdateIdempotent(store: seq<Thought>, id: string, u: Patch)
    ensures UpdateThought(UpdateThought(store, id, u), id, u) == UpdateThought(store, id, u)
  {
  }

  /** Two updates that keep the identifier are one update with the combined patch */
  lemma UpdateCompose(store: seq<Thought>, id: string, u: Patch, v: Patch)
    requires u.id.None? || u.id == Some(id)
    ensures UpdateThought(UpdateThought(store, id, u), id, v) == UpdateThought(store, id, Then(u, v))
  {
  }

  function HasId(id: string): Thought -> bool {
    (t: Thought) => t.id == id
  }

  function Lacks(id: string): Thought -> bool {
    (t: Thought) => t.id != id
  }

  /** `deleteThought`: removes the thoughts with identifier `id` */
  function DeleteThought(store: seq<Thought>, id: string): (r: seq<Thought>)
    ensures forall i :: 0 <= i < |r| ==> r[i].id != id && r[i] in store
    ensures forall i :: 0 <= i < |store| && store[i].id != id ==> store[i] in r
    ensures |r| + |Filter(store, HasId(id))| == |store|
  {
    DeletedCount(store, id);
    Filter(store, Lacks(id))
  }

  lemma {:induction false} DeletedCount(store: seq<Thought>, id: string)
    ensures |Filter(store, Lacks(id))| + |Filter(store, HasId(id))| == |store|
  {
    if |store| > 0 {
      DeletedCount(store[..|store| - 1], id);
    }
  }

  /** Deleting keeps the order: it works piecewise on a split list */
  lemma DeleteSplits(a: seq<Thought>, b: seq<Thought>, id: string)
    ensures DeleteThought(a + b, id) == DeleteThought(a, id) + DeleteThought(b, id)
  {
    FilterAppend(a, b, Lacks(id));
  }

  /** Deleting an identifier the list does not hold changes nothing */
  lemma DeleteAbsent(store: seq<Thought>, id: string)
    requires id !in ThoughtIds(store)
    ensures DeleteThought(store, id) == store
  {
    assert forall i :: 0 <= i < |store| ==> ThoughtIds(store)[i] == store[i].id;
    FilterAll(store, Lacks(id));
  }

  lemma DeleteIdempotent(store: seq<Thought>, id: string)
    ensures DeleteThought(DeleteThought(store, id), id) == DeleteThought(store, id)
  {
    FilterIdempotent(store, Lacks(id));
  }

  // ---------------------------------------------------------------------------
  // Views
  // ---------------------------------------------------------------------------

  function IsPinned(t: Thought): bool {
    t.pinned
  }

  /** `getPinned`: every pinned thought, each as often as in the list, and
      nothing else */
  function GetPinned(store: seq<Thought>): (r: seq<Thought>)
    ensures forall i :: 0 <= i < |r| ==> r[i].pinned && r[i] in store
    ensures forall i :: 0 <= i < |store| && store[i].pinned ==> store[i] in r
    ensures forall t :: multiset(r)[t] == if t.pinned then multiset(store)[t] else 0
  {
    FilterCounts(store, IsPinned);
    Filter(store, IsPinned)
  }

  /** The pinned view keeps list order: it is computed piece by piece, and a
      single thought is kept exactly when it is pinned */
  lemma GetPinnedAppend(a: seq<Thought>, b: seq<Thought>)
    ensures GetPinned(a + b) == GetPinned(a) + GetPinned(b)
    ensures forall t :: GetPinned([t]) == if t.pinned then [t] else []
  {
    FilterAppend(a, b, IsPinned);
    forall t ensures GetPinned([t]) == if t.pinned then [t] else [] {
      assert [t][..0] == [];
    }
  }

  /** The pinned view of a list after a deletion is the pinned view with the deletion */
  lemma PinnedAfterDelete(store: seq<Thought>, id: string)
    ensures GetPinned(DeleteThought(store, id)) == DeleteThought(GetPinned(store), id)
  {
    FilterCommute(store, Lacks(id), IsPinned);
  }

  /** After a toggle, a thought is in the pinned view exactly when it was
      pinned and not toggled, or toggled and not pinned. */
  lemma PinnedAfterToggle(store: seq<Thought>, id: string, i: nat)
    requires i < |store|
    ensures TogglePin(store, id)[i] in GetPinned(TogglePin(store, id)) <==> (store[i].pinned != (store[i].id == id))
  {
  }

  const DefaultRecentCount := 5

  /** The end index `Array.prototype.slice(0, end)` uses on a list of `len` */
  function SliceEnd(len: nat, end: int): (r: nat)
    ensures r <= len
    ensures 0 <= end ==> r == if end < len then end else len
    ensures end < 0 ==> r == if len + end < 0 then 0 else len + end
  {
    if end < 0 then (if len + end < 0 then 0 else len + end)
    else if end < len then end
    else len
  }

  /** `getRecent(count)`: the list sorted newest first, cut to `count`
      (a negative count drops that many from the end) */
  function GetRecent(store: seq<Thought>, count: int): (r: seq<Thought>)
    ensures |r| == SliceEnd(|store|, count)
    ensures SortedDesc(r, CreatedAt)
    ensures multiset(r) <= multiset(store)
  {
    var sorted := SortDesc(store, CreatedAt);
    var n := SliceEnd(|store|, count);
    assert sorted == sorted[..n] + sorted[n..];
    sorted[..n]
  }

  /** What `getRecent` leaves out is no newer than anything it returns */
  lemma RecentAreNewest(store: seq<Thought>, count: int, x: Thought, y: Thought)
    requires y in GetRecent(store, count)
    requires multiset(GetRecent(store, count))[x] < multiset(store)[x]
    ensures x.createdAt <= y.createdAt
  {
    var sorted := SortDesc(store, CreatedAt);
    SortedPrefixTop(sorted, SliceEnd(|store|, count), CreatedAt, x, y);
  }

  // ---------------------------------------------------------------------------
  // Statistics
  // ---------------------------------------------------------------------------

  /** Every tag of every thought, in order (`flatMap(t => t.tags)`) */
  function AllTags(store: seq<Thought>): seq<string> {
    if |store| == 0 then []
    else AllTags(store[..|store| - 1]) + store[|store| - 1].tags
  }

  lemma {:induction false} AllTagsMembers(store: seq<Thought>, tag: string)
    ensures tag in AllTags(store) <==> exists i :: 0 <= i < |store| && tag in store[i].tags
  {
    if |store| > 0 {
      AllTagsMembers(store[..|store| - 1], tag);
      if tag in store[|store| - 1].tags {
        assert tag in AllTags(store);
      }
      if exists i :: 0 <= i < |store| && tag in store[i].tags {
        var i :| 0 <= i < |store| && tag in store[i].tags;
        if i < |store| - 1 {
          assert store[..|store| - 1][i] == store[i];
        }
      }
    }
  }

  function EntryCount<K>(e: Entry<K>): int {
    e.count
  }

  /** `getTagStats`: one entry per distinct tag with its number of
      occurrences, most frequent first (ties in first-seen order) */
  function GetTagStats(store: seq<Thought>): (r: seq<Entry<string>>)
    ensures Distinct(Keys(r))
    ensures forall tag :: tag in Keys(r) <==> tag in AllTags(store)
    ensures forall i :: 0 <= i < |r| ==> r[i].count == multiset(AllTags(store))[r[i].key]
    ensures SortedDesc(r, EntryCount)
    ensures Total(r) == |AllTags(store)|
  {
    var r := SortDesc(Tally(AllTags(store)), EntryCount);
    PermutedTally(r, AllTags(store));
    r
  }

  function Kinds(store: seq<Thought>): (r: seq<ThoughtType>)
    ensures |r| == |store|
    ensures forall i :: 0 <= i < |store| ==> r[i] == store[i].kind
  {
    seq(|store|, i requires 0 <= i < |store| => store[i].kind)
  }

  /** `getTypeStats`: one entry per type present with its number of
      thoughts, in first-seen order */
  function GetTypeStats(store: seq<Thought>): (r: seq<Entry<ThoughtType>>)
    ensures Distinct(Keys(r))
    ensures forall k :: k in Keys(r) <==> exists i :: 0 <= i < |store| && store[i].kind == k
    ensures forall k :: CountOf(r, k) == multiset(Kinds(store))[k]
    ensures Total(r) == |store|
  {
    var r := Tally(Kinds(store));
    forall k
      ensures k in Kinds(store) <==> exists i :: 0 <= i < |store| && store[i].kind == k
    {
      if k in Kinds(store) {
        var i :| 0 <= i < |store| && Kinds(store)[i] == k;
      }
    }
    r
  }

  /** The types are listed in the order their first thought appears */
  lemma TypeStatsOrder(store: seq<Thought>)
    ensures Keys(GetTypeStats(store)) == Dedup(Kinds(store))
  {
    TallyOrder(Kinds(store));
  }

  /** The names `getActivityByDay` reports, Sunday first */
  const DayNames: seq<string> := ["Sun", "Mon", "Tue", "Wed", "Thu", "Fri", "Sat"]

  function NoActivity(): (r: seq<Entry<string>>)
    ensures |r| == 7
    ensures forall d :: 0 <= d < 7 ==> r[d] == Entry(DayNames[d], 0)
  {
    seq(7, d requires 0 <= d < 7 => Entry(DayNames[d], 0))
  }

  /** `getActivityByDay`: thoughts per day of the week of their creation */
  function GetActivityByDay(store: seq<Thought>): (r: seq<Entry<string>>)
    ensures |r| == 7
    ensures Keys(r) == DayNames
    ensures Total(r) == |store|
  {
    if |store| == 0 then
      var r := NoActivity();
      assert Total(r[6..]) == 0;
      assert Total(r[5..]) == 0;
      assert Total(r[4..]) == 0;
      assert Total(r[3..]) == 0;
      assert Total(r[2..]) == 0;
      assert Total(r[1..]) == 0;
      r
    else
      var prev := GetActivityByDay(store[..|store| - 1]);
      var d := WeekDay(store[|store| - 1].createdAt);
      TotalBumpAt(prev, d);
      assert forall k :: 0 <= k < 7 ==> Keys(prev)[k] == prev[k].key;
      prev[d := Entry(prev[d].key, prev[d].count + 1)]
  }

  function CreatedOn(d: nat): Thought -> bool {
    (t: Thought) => WeekDay(t.createdAt) == d
  }

  /** The count for a day is the number of thoughts created on that day of the week */
  lemma {:induction false} ActivityCountsDays(store: seq<Thought>, d: nat)
    requires d < 7
    ensures GetActivityByDay(store)[d].count == |Filter(store, CreatedOn(d))|
  {
    if |store| > 0 {
      ActivityCountsDays(store[..|store| - 1], d);
    }
  }

  // ---------------------------------------------------------------------------
  // Local insights
  // ---------------------------------------------------------------------------

  const EmptyStoreLine := "Start capturing thoughts to see insights!"
  const NoteTakerLine := "You're a note-taker at heart — lots of written thoughts \U{1F4DD}"
  const CuratorLine := "You're a curator — collecting lots of links \U{1F517}"
  const IdeasLine := "You've been having insights — that's where breakthroughs happen \U{1F4A1}"
  const TopTagsShown := 3

  function Plural(n: nat): string {
    if n > 1 then "s" else ""
  }

  function TotalLine(n: nat): string {
    "You've captured " + NatToString(n) + " thought" + Plural(n) + " so far. Keep going! \U{1F9E0}"
  }

  function TagLabel(e: Entry<string>): string {
    "**" + e.key + "** (" + NatToString(e.count) + ")"
  }

  function TagLabels(es: seq<Entry<string>>): (r: seq<string>)
    ensures |r| == |es|
  {
    seq(|es|, i requires 0 <= i < |es| => TagLabel(es[i]))
  }

  function TopThemesLine(stats: seq<Entry<string>>): string {
    "Your top themes: " + Join(TagLabels(Take(stats, TopTagsShown)), ", ")
  }

  function PinnedLine(n: nat): string {
    NatToString(n) + " thought" + Plural(n) + " pinned as important ⭐"
  }

  function ThisWeekLine(n: nat): string {
    NatToString(n) + " thought" + Plural(n) + " captured this week — you're on a roll! \U{1F525}"
  }

  /** The line on the balance of types, from the numbers of notes, links and insights */
  function BalanceLine(notes: nat, links: nat, ideas: nat): (r: Option<string>)
    ensures r == Some(NoteTakerLine) <==> notes > links && notes > ideas
    ensures r == Some(CuratorLine) <==> links > notes
    ensures r == Some(IdeasLine) <==> links <= notes && (links == notes || notes <= ideas) && ideas > 0
    ensures r.None? <==> links <= notes && (links == notes || notes <= ideas) && ideas == 0
  {
    if notes > links && notes > ideas then Some(NoteTakerLine)
    else if links > notes then Some(CuratorLine)
    else if ideas > 0 then Some(IdeasLine)
    else None
  }

  /** Created less than a week before `now` */
  function RecentAt(now: int): Thought -> bool {
    (t: Thought) => now - t.createdAt < WeekMs
  }

  function Line(present: bool, line: string): seq<string> {
    if present then [line] else []
  }

  /** `generateLocalInsights` evaluated at `now` */
  function GenerateLocalInsights(store: seq<Thought>, now: int): (r: seq<string>)
    ensures |store| == 0 ==> r == [EmptyStoreLine]
    ensures |store| > 0 ==> 1 <= |r| <= 5 && r[0] == TotalLine(|store|)
  {
    if |store| == 0 then [EmptyStoreLine]
    else
      var tagStats := GetTagStats(store);
      var typeStats := GetTypeStats(store);
      var pinned := |GetPinned(store)|;
      var balance := BalanceLine(CountOf(typeStats, NoteThought), CountOf(typeStats, LinkThought), CountOf(typeStats, InsightThought));
      var recent := |Filter(store, RecentAt(now))|;
      [TotalLine(|store|)]
        + Line(|tagStats| > 0, TopThemesLine(tagStats))
        + Line(pinned > 0, PinnedLine(pinned))
        + (if balance.Some? then [balance.value] else [])
        + Line(recent > 0, ThisWeekLine(recent))
  }

  function Indicator(b: bool): nat {
    if b then 1 else 0
  }

  /** The number of thoughts of a type */
  function OfKind(store: seq<Thought>, k: ThoughtType): nat {
    multiset(Kinds(store))[k]
  }

  /** Some thought has a tag */
  predicate AnyTagged(store: seq<Thought>) {
    exists i :: 0 <= i < |store| && |store[i].tags| > 0
  }

  predicate AnyPinned(store: seq<Thought>) {
    exists i :: 0 <= i < |store| && store[i].pinned
  }

  /** Some thought was created less than a week before `now` */
  predicate AnyRecent(store: seq<Thought>, now: int) {
    exists i :: 0 <= i < |store| && now - store[i].createdAt < WeekMs
  }

  /** A non-empty store gets the total line, then one line for each of: some
      thought has a tag, some thought is pinned, the types are unbalanced in
      one of the three reported ways, some thought is less than a week old. */
  lemma InsightLines(store: seq<Thought>, now: int)
    requires |store| > 0
    ensures |GenerateLocalInsights(store, now)| ==
      1
      + Indicator(AnyTagged(store))
      + Indicator(AnyPinned(store))
      + Indicator(BalanceLine(OfKind(store, NoteThought), OfKind(store, LinkThought), OfKind(store, InsightThought)).Some?)
      + Indicator(AnyRecent(store, now))
  {
    LineCount(store, now);
    TagLinePresent(store);
    PinnedLinePresent(store);
    RecentLinePresent(store, now);
  }

  lemma LineCount(store: seq<Thought>, now: int)
    requires |store| > 0
    ensures |GenerateLocalInsights(store, now)| ==
      1
      + Indicator(|GetTagStats(store)| > 0)
      + Indicator(|GetPinned(store)| > 0)
      + Indicator(BalanceLine(OfKind(store, NoteThought), OfKind(store, LinkThought), OfKind(store, InsightThought)).Some?)
      + Indicator(|Filter(store, RecentAt(now))| > 0)
  {
  }

  lemma TagLinePresent(store: seq<Thought>)
    ensures |GetTagStats(store)| > 0 <==> AnyTagged(store)
  {
    if exists i :: 0 <= i < |store| && |store[i].tags| > 0 {
      var i :| 0 <= i < |store| && |store[i].tags| > 0;
      AllTagsMembers(store, store[i].tags[0]);
      assert store[i].tags[0] in Keys(GetTagStats(store));
    } else if |GetTagStats(store)| > 0 {
      assert Keys(GetTagStats(store))[0] in AllTags(store);
      AllTagsMembers(store, Keys(GetTagStats(store))[0]);
    }
  }

  lemma PinnedLinePresent(store: seq<Thought>)
    ensures |GetPinned(store)| > 0 <==> AnyPinned(store)
  {
    if exists i :: 0 <= i < |store| && store[i].pinned {
      var i :| 0 <= i < |store| && store[i].pinned;
      assert store[i] in GetPinned(store);
    }
  }

  lemma RecentLinePresent(store: seq<Thought>, now: int)
    ensures |Filter(store, RecentAt(now))| > 0 <==> AnyRecent(store, now)
  {
    var recent := Filter(store, RecentAt(now));
    if exists i :: 0 <= i < |store| && now - store[i].createdAt < WeekMs {
      var i :| 0 <= i < |store| && now - store[i].createdAt < WeekMs;
      assert store[i] in recent;
    }
  }
}

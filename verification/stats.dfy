/** The dashboard (backend/app/api/v1/endpoints/stats.py): read-only counts
    over the rows of the entries table, the entry_tags join table and the
    tags table. Every count is over the same snapshot; nothing is written. */
module Stats {
  import opened Base
  import opened EntryModel
  import opened TagCrud
  import Query

  /** `timedelta(days=30)` in seconds, the unit of the timestamps. */
  const ThirtyDays: int := 30 * 24 * 60 * 60
  /** `.limit(10)` of the tag-usage query. */
  const TopTagLimit: nat := 10

  // ------------------------------------------------------------- counting

  /** `count(Entry.id) WHERE severity = s`. */
  function CountSeverity(es: seq<Entry>, s: SeverityLevel): (n: nat)
    ensures n <= |es|
  {
    if es == [] then 0 else (if es[0].severity == s then 1 else 0) + CountSeverity(es[1..], s)
  }

  function CountWorkflow(es: seq<Entry>, w: WorkflowState): (n: nat)
    ensures n <= |es|
  {
    if es == [] then 0 else (if es[0].workflowState == w then 1 else 0) + CountWorkflow(es[1..], w)
  }

  function CountStatus(es: seq<Entry>, s: EntryStatus): (n: nat)
    ensures n <= |es|
  {
    if es == [] then 0 else (if es[0].status == s then 1 else 0) + CountStatus(es[1..], s)
  }

  /** `count(Entry.id) WHERE created_at >= since`. */
  function CountSince(es: seq<Entry>, since: int): (n: nat)
    ensures n <= |es|
  {
    if es == [] then 0 else (if es[0].createdAt >= since then 1 else 0) + CountSince(es[1..], since)
  }

  /** Every entry has exactly one severity: the per-member counts add up to
      the number of entries. */
  lemma {:induction false} SeverityPartition(es: seq<Entry>)
    ensures CountSeverity(es, Critical) + CountSeverity(es, High) + CountSeverity(es, Medium) +
            CountSeverity(es, Low) + CountSeverity(es, Info) == |es|
  {
    if es != [] {
      SeverityPartition(es[1..]);
    }
  }

  lemma {:induction false} WorkflowPartition(es: seq<Entry>)
    ensures CountWorkflow(es, Draft) + CountWorkflow(es, InReview) + CountWorkflow(es, Published) +
            CountWorkflow(es, Retired) + CountWorkflow(es, Merged) == |es|
  {
    if es != [] {
      WorkflowPartition(es[1..]);
    }
  }

  lemma {:induction false} StatusPartition(es: seq<Entry>)
    ensures CountStatus(es, Active) + CountStatus(es, Archived) == |es|
  {
    if es != [] {
      StatusPartition(es[1..]);
    }
  }

  // -------------------------------------------------------- distributions

  /** The distribution's values over a list of keys. */
  function SumOver(keys: seq<string>, dist: map<string, nat>): nat
    requires forall k :: k in keys ==> k in dist
  {
    if keys == [] then 0 else dist[keys[0]] + SumOver(keys[1..], dist)
  }

  /** The `.value`s of a list of enum members, in order. */
  function Names<E>(members: seq<E>, name: E -> string): (r: seq<string>)
    ensures |r| == |members|
    ensures forall j :: 0 <= j < |members| ==> r[j] == name(members[j])
  {
    seq(|members|, j requires 0 <= j < |members| => name(members[j]))
  }

  /** The members' counts added up. */
  function Total<E>(members: seq<E>, count: E -> nat): nat {
    if members == [] then 0 else count(members[0]) + Total(members[1..], count)
  }

  /** A map holding each member's count under its name sums, over the
      names, to the members' total. */
  lemma {:induction false} SumOverNames<E>(members: seq<E>, name: E -> string, count: E -> nat, dist: map<string, nat>)
    requires forall j :: 0 <= j < |members| ==> name(members[j]) in dist && dist[name(members[j])] == count(members[j])
    ensures forall k :: k in Names(members, name) ==> k in dist
    ensures SumOver(Names(members, name), dist) == Total(members, count)
  {
    var names := Names(members, name);
    forall k | k in names ensures k in dist {
      var j :| 0 <= j < |names| && names[j] == k;
    }
    if members != [] {
      assert names[1..] == Names(members[1..], name);
      SumOverNames(members[1..], name, count, dist);
    }
  }

  /** The loop shared by the three distributions: for each member, in
      order, store its count under its name. Enum values are distinct, so
      no store overwrites another. */
  method Distribution<E>(members: seq<E>, name: E -> string, count: E -> nat) returns (dist: map<string, nat>)
    requires forall i, j :: 0 <= i < j < |members| ==> name(members[i]) != name(members[j])
    ensures forall k :: k in dist <==> k in Names(members, name)
    ensures forall j :: 0 <= j < |members| ==> name(members[j]) in dist && dist[name(members[j])] == count(members[j])
    ensures SumOver(Names(members, name), dist) == Total(members, count)
  {
    dist := map[];
    for i := 0 to |members|
      invariant forall k :: k in dist <==> k in Names(members[..i], name)
      invariant forall j :: 0 <= j < i ==> name(members[j]) in dist && dist[name(members[j])] == count(members[j])
    {
      assert Names(members[..i + 1], name) == Names(members[..i], name) + [name(members[i])];
      dist := dist[name(members[i]) := count(members[i])];
    }
    assert members[..|members|] == members;
    SumOverNames(members, name, count, dist);
  }

  function SeverityName(s: SeverityLevel): string { s.Value() }
  function WorkflowName(w: WorkflowState): string { w.Value() }
  function StatusName(s: EntryStatus): string { s.Value() }
  function SeverityCounter(es: seq<Entry>): SeverityLevel -> nat { (s: SeverityLevel) => CountSeverity(es, s) }
  function WorkflowCounter(es: seq<Entry>): WorkflowState -> nat { (w: WorkflowState) => CountWorkflow(es, w) }
  function StatusCounter(es: seq<Entry>): EntryStatus -> nat { (s: EntryStatus) => CountStatus(es, s) }

  const SeverityKeys: seq<string> := ["critical", "high", "medium", "low", "info"]
  const WorkflowKeys: seq<string> := ["draft", "in_review", "published", "retired", "merged"]
  const StatusKeys: seq<string> := ["active", "archived"]

  /** The severity values are the keys, and distinct. */
  lemma SeverityNames()
    ensures Names(AllSeverities, SeverityName) == SeverityKeys
    ensures forall i, j :: 0 <= i < j < |AllSeverities| ==> SeverityName(AllSeverities[i]) != SeverityName(AllSeverities[j])
  {
  }

  lemma WorkflowNames()
    ensures Names(AllWorkflowStates, WorkflowName) == WorkflowKeys
    ensures forall i, j :: 0 <= i < j < |AllWorkflowStates| ==>
              WorkflowName(AllWorkflowStates[i]) != WorkflowName(AllWorkflowStates[j])
  {
  }

  lemma StatusNames()
    ensures Names(AllStatuses, StatusName) == StatusKeys
    ensures forall i, j :: 0 <= i < j < |AllStatuses| ==> StatusName(AllStatuses[i]) != StatusName(AllStatuses[j])
  {
  }

  /** Every entry is counted under exactly one severity. */
  lemma SeverityTotal(es: seq<Entry>)
    ensures Total(AllSeverities, SeverityCounter(es)) == |es|
  {
    assert AllSeverities[1..][1..][1..][1..][1..] == [];
    SeverityPartition(es);
  }

  lemma WorkflowTotal(es: seq<Entry>)
    ensures Total(AllWorkflowStates, WorkflowCounter(es)) == |es|
  {
    assert AllWorkflowStates[1..][1..][1..][1..][1..] == [];
    WorkflowPartition(es);
  }

  lemma StatusTotal(es: seq<Entry>)
    ensures Total(AllStatuses, StatusCounter(es)) == |es|
  {
    assert AllStatuses[1..][1..] == [];
    StatusPartition(es);
  }

  /** `for severity in SeverityLevel`: one COUNT per member, stored under
      the member's value. */
  method SeverityDistribution(es: seq<Entry>) returns (dist: map<string, nat>)
    ensures dist.Keys == set k | k in SeverityKeys
    ensures forall s: SeverityLevel :: s.Value() in dist && dist[s.Value()] == CountSeverity(es, s)
    ensures SumOver(SeverityKeys, dist) == |es|
  {
    SeverityNames();
    dist := Distribution(AllSeverities, SeverityName, SeverityCounter(es));
    forall s: SeverityLevel ensures s.Value() in dist && dist[s.Value()] == CountSeverity(es, s) {
      var j := match s case Critical => 0 case High => 1 case Medium => 2 case Low => 3 case Info => 4;
      assert AllSeverities[j] == s;
    }
    SeverityTotal(es);
  }

  method WorkflowDistribution(es: seq<Entry>) returns (dist: map<string, nat>)
    ensures dist.Keys == set k | k in WorkflowKeys
    ensures forall w: WorkflowState :: w.Value() in dist && dist[w.Value()] == CountWorkflow(es, w)
    ensures SumOver(WorkflowKeys, dist) == |es|
  {
    WorkflowNames();
    dist := Distribution(AllWorkflowStates, WorkflowName, WorkflowCounter(es));
    forall w: WorkflowState ensures w.Value() in dist && dist[w.Value()] == CountWorkflow(es, w) {
      var j := match w case Draft => 0 case InReview => 1 case Published => 2 case Retired => 3 case Merged => 4;
      assert AllWorkflowStates[j] == w;
    }
    WorkflowTotal(es);
  }

  method StatusDistribution(es: seq<Entry>) returns (dist: map<string, nat>)
    ensures dist.Keys == set k | k in StatusKeys
    ensures forall s: EntryStatus :: s.Value() in dist && dist[s.Value()] == CountStatus(es, s)
    ensures SumOver(StatusKeys, dist) == |es|
  {
    StatusNames();
    dist := Distribution(AllStatuses, StatusName, StatusCounter(es));
    forall s: EntryStatus ensures s.Value() in dist && dist[s.Value()] == CountStatus(es, s) {
      var j := match s case Active => 0 case Archived => 1;
      assert AllStatuses[j] == s;
    }
    StatusTotal(es);
  }

  // ------------------------------------------------------------- top tags

  datatype TagUsage = TagUsage(id: Id, name: string, color: Option<string>, count: nat)

  /** `count(EntryTag.id)` grouped by tag: the links pointing at the tag. */
  function Usage(links: seq<EntryTag>, tagId: Id): (n: nat)
    ensures n <= |links|
  {
    if links == [] then 0 else (if links[0].tagId == tagId then 1 else 0) + Usage(links[1..], tagId)
  }

  /** The inner join keeps the stored tags that have at least one link. */
  function UsedTags(tags: map<Id, Tag>, links: seq<EntryTag>): set<Id> {
    set k | k in tags && Usage(links, k) >= 1
  }

  /** `ORDER BY count DESC` as a "may come before" relation on tag ids. */
  function MostUsedFirst(links: seq<EntryTag>): (Id, Id) -> bool {
    (a: Id, b: Id) => Usage(links, a) >= Usage(links, b)
  }

  function UsageRows(tags: map<Id, Tag>, links: seq<EntryTag>, ids: seq<Id>): (r: seq<TagUsage>)
    requires forall i :: 0 <= i < |ids| ==> ids[i] in tags
    ensures |r| == |ids|
    ensures forall i :: 0 <= i < |ids| ==>
              r[i].id == ids[i] && r[i].name == tags[ids[i]].name &&
              r[i].color == tags[ids[i]].color && r[i].count == Usage(links, ids[i])
  {
    seq(|ids|, i requires 0 <= i < |ids| =>
      TagUsage(ids[i], tags[ids[i]].name, tags[ids[i]].color, Usage(links, ids[i])))
  }

  /** rows is what the grouped, ordered and limited query may return. */
  ghost predicate IsTopTags(rows: seq<TagUsage>, tags: map<Id, Tag>, links: seq<EntryTag>) {
    exists order :: Query.Arranges(order, UsedTags(tags, links), MostUsedFirst(links)) &&
                    (forall i :: 0 <= i < |order| ==> order[i] in tags) &&
                    rows == UsageRows(tags, links, Query.Window(order, 0, TopTagLimit))
  }

  /** The positions of an arrangement of the used tags hold stored,
      linked tags. */
  lemma ArrangedTagsAreUsed(tags: map<Id, Tag>, links: seq<EntryTag>, order: seq<Id>)
    requires Query.Arranges(order, UsedTags(tags, links), MostUsedFirst(links))
    ensures forall i :: 0 <= i < |order| ==> order[i] in tags && Usage(links, order[i]) >= 1
  {
    forall i | 0 <= i < |order| ensures order[i] in tags && Usage(links, order[i]) >= 1 {
      assert order[i] in order;
    }
  }

  /** The rows of the first window are most linked first. */
  lemma TopRowsDescend(tags: map<Id, Tag>, links: seq<EntryTag>, order: seq<Id>)
    requires Query.SortedBy(order, MostUsedFirst(links))
    requires forall i :: 0 <= i < |order| ==> order[i] in tags
    ensures var rows := UsageRows(tags, links, Query.Window(order, 0, TopTagLimit));
      forall i, j :: 0 <= i < j < |rows| ==> rows[i].count >= rows[j].count
  {
    var top := Query.Window(order, 0, TopTagLimit);
    Query.WindowKeepsOrder(order, 0, TopTagLimit, MostUsedFirst(links));
    var rows := UsageRows(tags, links, top);
    forall i, j | 0 <= i < j < |rows| ensures rows[i].count >= rows[j].count {
      assert MostUsedFirst(links)(top[i], top[j]);
    }
  }

  /** A used tag the first window leaves out is linked no more often than
      any tag it lists. */
  lemma TopRowsDominate(tags: map<Id, Tag>, links: seq<EntryTag>, order: seq<Id>, k: Id)
    requires Query.Arranges(order, UsedTags(tags, links), MostUsedFirst(links))
    requires forall i :: 0 <= i < |order| ==> order[i] in tags
    requires k in UsedTags(tags, links)
    requires var rows := UsageRows(tags, links, Query.Window(order, 0, TopTagLimit));
      forall j :: 0 <= j < |rows| ==> rows[j].id != k
    ensures var rows := UsageRows(tags, links, Query.Window(order, 0, TopTagLimit));
      forall i :: 0 <= i < |rows| ==> Usage(links, k) <= rows[i].count
  {
    var top := Query.Window(order, 0, TopTagLimit);
    var rows := UsageRows(tags, links, top);
    assert forall j :: 0 <= j < |top| ==> top[j] != k by {
      forall j | 0 <= j < |top| ensures top[j] != k {
        assert rows[j].id == top[j];
      }
    }
    Query.FirstWindowDominates(order, UsedTags(tags, links), MostUsedFirst(links), TopTagLimit, k);
    forall i | 0 <= i < |rows| ensures Usage(links, k) <= rows[i].count {
      assert MostUsedFirst(links)(top[i], k);
    }
  }

  /** Fewer than ten rows means every used tag is listed. */
  lemma ShortTopRowsComplete(tags: map<Id, Tag>, links: seq<EntryTag>, order: seq<Id>)
    requires Query.Arranges(order, UsedTags(tags, links), MostUsedFirst(links))
    requires forall i :: 0 <= i < |order| ==> order[i] in tags
    requires |UsageRows(tags, links, Query.Window(order, 0, TopTagLimit))| < TopTagLimit
    ensures var rows := UsageRows(tags, links, Query.Window(order, 0, TopTagLimit));
      forall k :: k in UsedTags(tags, links) ==> exists j :: 0 <= j < |rows| && rows[j].id == k
  {
    var rows := UsageRows(tags, links, Query.Window(order, 0, TopTagLimit));
    Query.ShortFirstWindowIsAll(order, TopTagLimit);
    forall k | k in UsedTags(tags, links) ensures exists j :: 0 <= j < |rows| && rows[j].id == k {
      var p :| 0 <= p < |order| && order[p] == k;
      assert rows[p].id == k;
    }
  }

  /** The ten (or fewer) most linked tags, most linked first; no tag left
      out is linked more often than any tag listed. */
  method TopTags(tags: map<Id, Tag>, links: seq<EntryTag>) returns (rows: seq<TagUsage>)
    ensures IsTopTags(rows, tags, links)
    ensures |rows| <= TopTagLimit
    ensures forall i :: 0 <= i < |rows| ==>
              rows[i].id in tags && rows[i].name == tags[rows[i].id].name &&
              rows[i].color == tags[rows[i].id].color &&
              rows[i].count == Usage(links, rows[i].id) && rows[i].count >= 1
    ensures forall i, j :: 0 <= i < j < |rows| ==> rows[i].count >= rows[j].count
    ensures forall k, i :: (k in UsedTags(tags, links) && 0 <= i < |rows| &&
                            (forall j :: 0 <= j < |rows| ==> rows[j].id != k)) ==>
              Usage(links, k) <= rows[i].count
    ensures |rows| < TopTagLimit ==>
              forall k :: k in UsedTags(tags, links) ==> exists j :: 0 <= j < |rows| && rows[j].id == k
  {
    var order := Query.ArrangeKeys(UsedTags(tags, links), MostUsedFirst(links));
    ArrangedTagsAreUsed(tags, links, order);
    var top := Query.Window(order, 0, TopTagLimit);
    rows := UsageRows(tags, links, top);
    assert forall i :: 0 <= i < |top| ==> top[i] == order[i];
    TopRowsDescend(tags, links, order);
    forall k | k in UsedTags(tags, links) && (forall j :: 0 <= j < |rows| ==> rows[j].id != k)
      ensures forall i :: 0 <= i < |rows| ==> Usage(links, k) <= rows[i].count
    {
      TopRowsDominate(tags, links, order, k);
    }
    if |rows| < TopTagLimit {
      ShortTopRowsComplete(tags, links, order);
    }
  }

  // ---------------------------------------------------------------- stats

  datatype DashboardStats = DashboardStats(
    totalEntries: nat,
    activeEntries: nat,
    archivedEntries: nat,
    criticalEntries: nat,
    recentEntries: nat,
    severityDistribution: map<string, nat>,
    workflowDistribution: map<string, nat>,
    statusDistribution: map<string, nat>,
    topTags: seq<TagUsage>)

  /** get_stats over one snapshot: `entries` are the rows of the entries
      table, `links` those of entry_tags, `tags` the tags table; `now` is
      the current time. */
  method GetStats(entries: seq<Entry>, tags: map<Id, Tag>, links: seq<EntryTag>, now: int)
    returns (s: DashboardStats)
    ensures s.totalEntries == |entries|
    ensures s.severityDistribution.Keys == set k | k in SeverityKeys
    ensures s.workflowDistribution.Keys == set k | k in WorkflowKeys
    ensures s.statusDistribution.Keys == set k | k in StatusKeys
    ensures s.activeEntries == CountStatus(entries, Active) == s.statusDistribution["active"]
    ensures s.archivedEntries == CountStatus(entries, Archived) == s.statusDistribution["archived"]
    ensures s.criticalEntries == CountSeverity(entries, Critical) == s.severityDistribution["critical"]
    ensures s.recentEntries == CountSince(entries, now - ThirtyDays) <= s.totalEntries
    ensures forall v: SeverityLevel :: s.severityDistribution[v.Value()] == CountSeverity(entries, v)
    ensures forall w: WorkflowState :: s.workflowDistribution[w.Value()] == CountWorkflow(entries, w)
    ensures forall v: EntryStatus :: s.statusDistribution[v.Value()] == CountStatus(entries, v)
    ensures SumOver(SeverityKeys, s.severityDistribution) == s.totalEntries
    ensures SumOver(WorkflowKeys, s.workflowDistribution) == s.totalEntries
    ensures SumOver(StatusKeys, s.statusDistribution) == s.totalEntries
    ensures s.activeEntries + s.archivedEntries == s.totalEntries
    ensures IsTopTags(s.topTags, tags, links) && |s.topTags| <= TopTagLimit
  {
    var total := |entries|;
    var active := CountStatus(entries, Active);
    var archived := CountStatus(entries, Archived);
    var critical := CountSeverity(entries, Critical);
    var severityDistribution := SeverityDistribution(entries);
    var workflowDistribution := WorkflowDistribution(entries);
    var statusDistribution := StatusDistribution(entries);
    var topTags := TopTags(tags, links);
    var recent := CountSince(entries, now - ThirtyDays);
    StatusPartition(entries);
    s := DashboardStats(total, active, archived, critical, recent,
                        severityDistribution, workflowDistribution, statusDistribution, topTags);
  }

  /** Removing one archived entry lowers archived_entries by one. */
  lemma {:induction false} ArchivedCountDropsOnRemoval(es: seq<Entry>, i: nat)
    requires i < |es| && es[i].status == Archived
    ensures CountStatus(es[..i] + es[i + 1..], Archived) + 1 == CountStatus(es, Archived)
  {
    if i == 0 {
      assert es[..0] + es[1..] == es[1..];
    } else {
      ArchivedCountDropsOnRemoval(es[1..], i - 1);
      assert es[..i] + es[i + 1..] == [es[0]] + (es[1..][..i - 1] + es[1..][i..]);
    }
  }
}

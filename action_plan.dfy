/** `src/app/admin/action-plan/page.tsx`: the stored action items of a
    report mapped to recommendations, and the three phases of the
    implementation timeline. */
module ActionPlan {
  import opened Wrappers
  import opened Seqs
  import opened ReportTypes

  /** A stored action item: its priority is a number and its effort and
      expected impact are free text. */
  datatype ActionItem = ActionItem(
    title: string, description: string, category: string,
    priority: int, effortLevel: string, expectedImpact: string)

  /** 1 is high, 2 is medium and every other number is low. */
  function PriorityLevel(priority: int): (l: Level)
    ensures l == High <==> priority == 1
    ensures l == Medium <==> priority == 2
    ensures l == Low <==> priority != 1 && priority != 2
  {
    if priority == 1 then High
    else if priority == 2 then Medium
    else Low
  }

  /** On the numbers 1 to 3 the stored priority is the inverse of the
      rank the views sort by: 1 is the highest rank. */
  lemma PriorityLevelInvertsRank(priority: int)
    requires 1 <= priority <= 3
    ensures Rank(PriorityLevel(priority)) == 4 - priority
  {
  }

  /** A level written as 'high', 'medium' or 'low' passes through; any
      other text becomes medium. */
  function LevelOrMedium(s: string): (l: Level)
    ensures ParseLevel(s).Some? ==> l == ParseLevel(s).value
    ensures ParseLevel(s).None? ==> l == Medium
    ensures Name(l) == s || l == Medium
  {
    match ParseLevel(s)
    case Some(l) => l
    case None => Medium
  }

  /** One stored item as the recommendation the views show. */
  function ToRecommendation(item: ActionItem): (r: SeoRecommendation)
    ensures r.title == item.title && r.description == item.description && r.category == item.category
    ensures r.priority == PriorityLevel(item.priority)
    ensures r.effort == LevelOrMedium(item.effortLevel)
    ensures r.impact == LevelOrMedium(item.expectedImpact)
  {
    SeoRecommendation(item.title, item.description, item.category,
      PriorityLevel(item.priority), LevelOrMedium(item.effortLevel), LevelOrMedium(item.expectedImpact))
  }

  /** A recommendation stored with its priority as the number 1, 2 or 3
      and its effort and impact as their names is read back unchanged. */
  lemma StoredRecommendationRoundTrip(r: SeoRecommendation)
    ensures ToRecommendation(ActionItem(r.title, r.description, r.category,
      4 - Rank(r.priority), Name(r.effort), Name(r.impact))) == r
  {
    LevelOrMediumOfName(r.effort);
    LevelOrMediumOfName(r.impact);
  }

  /** The mapped items: one per stored item, in order. */
  function ActionItems(items: seq<ActionItem>): (r: seq<SeoRecommendation>)
    ensures |r| == |items|
    ensures forall i :: 0 <= i < |items| ==> r[i] == ToRecommendation(items[i])
  {
    Map(items, ToRecommendation)
  }

  /** The text of every level is read back as that level. */
  lemma LevelOrMediumOfName(l: Level)
    ensures LevelOrMedium(Name(l)) == l
  {
    ParseName(l);
  }

  predicate InPhase(item: SeoRecommendation, effort: Level) {
    item.priority == High && item.effort == effort
  }

  function InPhaseOf(effort: Level): SeoRecommendation -> bool {
    (item: SeoRecommendation) => InPhase(item, effort)
  }

  /** The first five high-priority items of the given effort, in order:
      phase 1 takes low effort, phase 2 medium and phase 3 high. */
  function Phase(items: seq<SeoRecommendation>, effort: Level): (r: seq<SeoRecommendation>)
    ensures |r| == if Count(items, InPhaseOf(effort)) < 5 then Count(items, InPhaseOf(effort)) else 5
    ensures r == Filter(items, InPhaseOf(effort))[..|r|]
    ensures forall i :: 0 <= i < |r| ==> r[i] in items && r[i].priority == High && r[i].effort == effort
    ensures r == [] <==> forall i :: 0 <= i < |items| ==> !InPhase(items[i], effort)
  {
    var all := Filter(items, InPhaseOf(effort));
    assert all != [] ==> all[0] in items;
    Take(all, 5)
  }

  /** No item appears in two different phases. */
  lemma PhasesDisjoint(items: seq<SeoRecommendation>, a: Level, b: Level, item: SeoRecommendation)
    requires a != b
    ensures !(item in Phase(items, a) && item in Phase(items, b))
  {
    if item in Phase(items, a) {
      var i :| 0 <= i < |Phase(items, a)| && Phase(items, a)[i] == item;
    }
  }

  predicate IsHighPriority(item: SeoRecommendation) {
    item.priority == High
  }

  /** Every high-priority item falls in exactly one of the three effort
      groups. */
  lemma {:induction false} PhaseGroupsPartitionHighPriority(items: seq<SeoRecommendation>)
    ensures Count(items, InPhaseOf(Low)) + Count(items, InPhaseOf(Medium)) + Count(items, InPhaseOf(High))
      == Count(items, IsHighPriority)
  {
    if items != [] {
      PhaseGroupsPartitionHighPriority(items[1..]);
    }
  }

  /** The timeline schedules only high-priority items, and at most
      fifteen. */
  lemma TimelineBound(items: seq<SeoRecommendation>)
    ensures |Phase(items, Low)| + |Phase(items, Medium)| + |Phase(items, High)| <= Count(items, IsHighPriority)
    ensures |Phase(items, Low)| + |Phase(items, Medium)| + |Phase(items, High)| <= 15
  {
    PhaseGroupsPartitionHighPriority(items);
  }

  function PhaseTitle(item: SeoRecommendation): string {
    item.title
  }

  /** The line a phase with nothing in it shows. */
  function EmptyPhaseLine(effort: Level): string {
    match effort
    case Low => "No quick wins identified"
    case Medium => "No strategic improvements identified"
    case High => "No long-term projects identified"
  }

  /** The list rows a phase shows: the titles of its items, or its fixed
      empty line when it has none. */
  function PhaseLines(items: seq<SeoRecommendation>, effort: Level): (lines: seq<string>)
    ensures 1 <= |lines| <= 5
    ensures Phase(items, effort) == [] ==> lines == [EmptyPhaseLine(effort)]
    ensures Phase(items, effort) != [] ==> lines == Map(Phase(items, effort), PhaseTitle)
  {
    var phase := Phase(items, effort);
    if |Filter(items, InPhaseOf(effort))| == 0 then [EmptyPhaseLine(effort)] else Map(phase, PhaseTitle)
  }

  /** The action-item list is shown exactly when there is at least one
      item; otherwise the page says none are available. */
  function ShowsActionableItems(items: seq<ActionItem>): (shown: bool)
    ensures shown <==> |ActionItems(items)| > 0
  {
    |items| > 0
  }
}

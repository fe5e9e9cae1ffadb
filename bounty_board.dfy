/** The bounty board page (src/app/code/bounty/page.tsx): the search,
    difficulty and status filters, the split of the filtered list into the
    active, completed and other sections, and the two reward totals. */
module BountyBoard {
  import opened Seqs
  import opened Text
  import opened BountyData

  /** A drop-down value: "all", or one particular value. */
  datatype Selector<T> = All | Only(value: T)

  predicate Selected<T(==)>(selector: Selector<T>, v: T) {
    selector.All? || selector.value == v
  }

  function AnyTagIncludes(tags: seq<string>, query: string): (r: bool)
    ensures r <==> exists i :: 0 <= i < |tags| && Includes(Lower(tags[i]), query)
  {
    if tags == [] then false
    else
      var r := AnyTagIncludes(tags[1..], query);
      assert forall i :: 1 <= i < |tags| ==> tags[1..][i - 1] == tags[i];
      Includes(Lower(tags[0]), query) || r
  }

  /** The search test, for an already lower-cased query. */
  predicate MatchesQuery(b: Bounty, query: string) {
    Includes(Lower(b.title), query) ||
    Includes(Lower(b.description), query) ||
    AnyTagIncludes(b.tags, query)
  }

  /** `filteredBounties`: the search filter (only for a non-empty query), then the
      difficulty filter, then the status filter (each only when not "all"). */
  function FilteredBounties(
    all: seq<Bounty>, searchQuery: string,
    difficulty: Selector<Difficulty>, status: Selector<Status>): (r: seq<Bounty>)
    ensures |r| <= |all|
    ensures forall b :: b in r ==> b in all && Selected(difficulty, b.difficulty) && Selected(status, b.status)
  {
    StatusStep(DifficultyStep(SearchStep(all, searchQuery), difficulty), status)
  }

  function SearchStep(bounties: seq<Bounty>, searchQuery: string): (r: seq<Bounty>)
    ensures |r| <= |bounties| && forall b :: b in r ==> b in bounties
    ensures searchQuery == "" ==> r == bounties
    ensures searchQuery != "" ==>
      forall b :: b in r <==> b in bounties && MatchesQuery(b, Lower(searchQuery))
  {
    if searchQuery != "" then
      var query := Lower(searchQuery);
      Filter((b: Bounty) => MatchesQuery(b, query), bounties)
    else bounties
  }

  function DifficultyStep(bounties: seq<Bounty>, difficulty: Selector<Difficulty>): (r: seq<Bounty>)
    ensures |r| <= |bounties| && forall b :: b in r ==> b in bounties && Selected(difficulty, b.difficulty)
  {
    if difficulty.Only? then Filter((b: Bounty) => b.difficulty == difficulty.value, bounties)
    else bounties
  }

  function StatusStep(bounties: seq<Bounty>, status: Selector<Status>): (r: seq<Bounty>)
    ensures |r| <= |bounties| && forall b :: b in r ==> b in bounties && Selected(status, b.status)
  {
    if status.Only? then Filter((b: Bounty) => b.status == status.value, bounties)
    else bounties
  }

  /** Whether one bounty survives the three filters. */
  predicate Kept(b: Bounty, searchQuery: string, difficulty: Selector<Difficulty>, status: Selector<Status>) {
    (searchQuery != "" ==> MatchesQuery(b, Lower(searchQuery))) &&
    Selected(difficulty, b.difficulty) &&
    Selected(status, b.status)
  }

  function SearchTest(searchQuery: string): Bounty -> bool {
    (b: Bounty) => searchQuery != "" ==> MatchesQuery(b, Lower(searchQuery))
  }

  function DifficultyTest(difficulty: Selector<Difficulty>): Bounty -> bool {
    (b: Bounty) => Selected(difficulty, b.difficulty)
  }

  function StatusTest(status: Selector<Status>): Bounty -> bool {
    (b: Bounty) => Selected(status, b.status)
  }

  lemma SearchStepIsFilter(bounties: seq<Bounty>, searchQuery: string)
    ensures SearchStep(bounties, searchQuery) == Filter(SearchTest(searchQuery), bounties)
  {
    if searchQuery != "" {
      var query := Lower(searchQuery);
      FilterAgree((b: Bounty) => MatchesQuery(b, query), SearchTest(searchQuery), bounties);
    } else {
      FilterKeepsAll(SearchTest(searchQuery), bounties);
    }
  }

  lemma DifficultyStepIsFilter(bounties: seq<Bounty>, difficulty: Selector<Difficulty>)
    ensures DifficultyStep(bounties, difficulty) == Filter(DifficultyTest(difficulty), bounties)
  {
    if difficulty.Only? {
      FilterAgree((b: Bounty) => b.difficulty == difficulty.value, DifficultyTest(difficulty), bounties);
    } else {
      FilterKeepsAll(DifficultyTest(difficulty), bounties);
    }
  }

  lemma StatusStepIsFilter(bounties: seq<Bounty>, status: Selector<Status>)
    ensures StatusStep(bounties, status) == Filter(StatusTest(status), bounties)
  {
    if status.Only? {
      FilterAgree((b: Bounty) => b.status == status.value, StatusTest(status), bounties);
    } else {
      FilterKeepsAll(StatusTest(status), bounties);
    }
  }

  /** The chain of filters is one filter by `Kept`. */
  lemma FilteredIsOneFilter(
    all: seq<Bounty>, searchQuery: string,
    difficulty: Selector<Difficulty>, status: Selector<Status>)
    ensures FilteredBounties(all, searchQuery, difficulty, status) ==
            Filter((b: Bounty) => Kept(b, searchQuery, difficulty, status), all)
  {
    var search, byDifficulty, byStatus := SearchTest(searchQuery), DifficultyTest(difficulty), StatusTest(status);
    var searchAndDifficulty := (b: Bounty) => search(b) && byDifficulty(b);
    var kept := (b: Bounty) => Kept(b, searchQuery, difficulty, status);
    var afterSearch := SearchStep(all, searchQuery);
    var afterDifficulty := DifficultyStep(afterSearch, difficulty);
    SearchStepIsFilter(all, searchQuery);
    DifficultyStepIsFilter(afterSearch, difficulty);
    StatusStepIsFilter(afterDifficulty, status);
    FilterFilter(search, byDifficulty, searchAndDifficulty, all);
    FilterFilter(searchAndDifficulty, byStatus, kept, all);
  }

  /** A bounty is shown exactly when it is in the list and passes every active
      filter; with a non-empty query that means the lower-cased query occurs in
      its lower-cased title, description or one of its tags. */
  lemma FilteredMembership(
    all: seq<Bounty>, searchQuery: string,
    difficulty: Selector<Difficulty>, status: Selector<Status>, b: Bounty)
    ensures b in FilteredBounties(all, searchQuery, difficulty, status) <==>
      b in all &&
      (searchQuery != "" ==>
        var query := Lower(searchQuery);
        Includes(Lower(b.title), query) || Includes(Lower(b.description), query) ||
        exists i :: 0 <= i < |b.tags| && Includes(Lower(b.tags[i]), query)) &&
      Selected(difficulty, b.difficulty) &&
      Selected(status, b.status)
  {
    FilteredIsOneFilter(all, searchQuery, difficulty, status);
  }

  /** The shown list keeps the order of the full list and the multiplicity of
      every entry it keeps; with no filter at all it is the full list. */
  lemma FilteredOrderAndIdentity(
    all: seq<Bounty>, searchQuery: string,
    difficulty: Selector<Difficulty>, status: Selector<Status>)
    ensures IsSubsequence(FilteredBounties(all, searchQuery, difficulty, status), all)
    ensures forall b :: multiset(FilteredBounties(all, searchQuery, difficulty, status))[b] ==
                        if Kept(b, searchQuery, difficulty, status) then multiset(all)[b] else 0
    ensures searchQuery == "" && difficulty.All? && status.All? ==>
            FilteredBounties(all, searchQuery, difficulty, status) == all
  {
    FilteredIsOneFilter(all, searchQuery, difficulty, status);
    FilterIsSubsequence((b: Bounty) => Kept(b, searchQuery, difficulty, status), all);
    FilterCounts((b: Bounty) => Kept(b, searchQuery, difficulty, status), all);
  }

  /** The three sections of the page. */
  datatype Sections = Sections(active: seq<Bounty>, completed: seq<Bounty>, other: seq<Bounty>)

  /** `displayActiveBounties`, `displayCompletedBounties`, `displayOtherBounties`. */
  function DisplaySections(filtered: seq<Bounty>): (d: Sections)
    ensures forall b :: b in d.active <==> b in filtered && b.status == Active
    ensures forall b :: b in d.completed <==> b in filtered && b.status == Completed
    ensures forall b :: b in d.other <==> b in filtered && b.status != Active && b.status != Completed
  {
    Sections(
      Filter((b: Bounty) => b.status == Active, filtered),
      Filter((b: Bounty) => b.status == Completed, filtered),
      Filter((b: Bounty) => b.status != Active && b.status != Completed, filtered))
  }

  /** The sections share no entry and together hold every filtered entry exactly
      as often as the filtered list does. */
  lemma DisplaySectionsPartition(filtered: seq<Bounty>)
    ensures var d := DisplaySections(filtered);
      (forall b :: !(b in d.active && b in d.completed)) &&
      (forall b :: !(b in d.active && b in d.other)) &&
      (forall b :: !(b in d.completed && b in d.other)) &&
      multiset(d.active) + multiset(d.completed) + multiset(d.other) == multiset(filtered)
  {
    var d := DisplaySections(filtered);
    FilterCounts((b: Bounty) => b.status == Active, filtered);
    FilterCounts((b: Bounty) => b.status == Completed, filtered);
    FilterCounts((b: Bounty) => b.status != Active && b.status != Completed, filtered);
    assert forall b :: (multiset(d.active) + multiset(d.completed) + multiset(d.other))[b] == multiset(filtered)[b];
  }

  /** `reduce((sum, b) => sum + b.reward, 0)`; integer addition makes the fold
      order immaterial. */
  function SumRewards(bounties: seq<Bounty>): int {
    if bounties == [] then 0 else bounties[0].reward + SumRewards(bounties[1..])
  }

  lemma {:induction false} SumRewardsNonNegative(bounties: seq<Bounty>)
    ensures (forall i :: 0 <= i < |bounties| ==> bounties[i].reward >= 0) ==> SumRewards(bounties) >= 0
  {
    if bounties != [] {
      SumRewardsNonNegative(bounties[1..]);
    }
  }

  /** Splitting a list by a test splits its reward sum. */
  lemma {:induction false} SumRewardsSplit(p: Bounty -> bool, bounties: seq<Bounty>)
    ensures SumRewards(Filter(p, bounties)) + SumRewards(Filter((b: Bounty) => !p(b), bounties)) ==
            SumRewards(bounties)
  {
    if bounties != [] {
      SumRewardsSplit(p, bounties[1..]);
      var kept := Filter(p, bounties[1..]);
      var dropped := Filter((b: Bounty) => !p(b), bounties[1..]);
      if p(bounties[0]) {
        assert Filter(p, bounties) == [bounties[0]] + kept;
        assert ([bounties[0]] + kept)[1..] == kept;
        assert Filter((b: Bounty) => !p(b), bounties) == dropped;
      } else {
        assert Filter(p, bounties) == kept;
        assert Filter((b: Bounty) => !p(b), bounties) == [bounties[0]] + dropped;
        assert ([bounties[0]] + dropped)[1..] == dropped;
      }
    }
  }

  /** `totalRewardPaid`: the rewards of all completed bounties (the whole
      catalogue, not the filtered list). */
  function TotalRewardPaid(all: seq<Bounty>): (total: int)
    ensures (forall i :: 0 <= i < |all| ==> all[i].reward >= 0) ==> total >= 0
  {
    var completed := CompletedBounties(all);
    assert forall i :: 0 <= i < |completed| ==> completed[i] in all;
    SumRewardsNonNegative(completed);
    SumRewards(completed)
  }

  /** `totalActiveReward`: the rewards of all active bounties. */
  function TotalActiveReward(all: seq<Bounty>): (total: int)
    ensures (forall i :: 0 <= i < |all| ==> all[i].reward >= 0) ==> total >= 0
  {
    var active := ActiveBounties(all);
    assert forall i :: 0 <= i < |active| ==> active[i] in all;
    SumRewardsNonNegative(active);
    SumRewards(active)
  }

  /** Paid and outstanding rewards never exceed the catalogue's total when no
      reward is negative. */
  lemma TotalsWithinCatalogue(all: seq<Bounty>)
    requires forall i :: 0 <= i < |all| ==> all[i].reward >= 0
    ensures TotalRewardPaid(all) + TotalActiveReward(all) <= SumRewards(all)
  {
    var completed := (b: Bounty) => b.status == Completed;
    var notCompleted := (b: Bounty) => !completed(b);
    var active := (b: Bounty) => b.status == Active;
    var both := (b: Bounty) => notCompleted(b) && active(b);
    SumRewardsSplit(completed, all);
    var rest := Filter(notCompleted, all);
    SumRewardsSplit(active, rest);
    var rest2 := Filter((b: Bounty) => !active(b), rest);
    assert forall i :: 0 <= i < |rest2| ==> rest2[i] in all;
    SumRewardsNonNegative(rest2);
    FilterFilter(notCompleted, active, both, all);
    FilterAgree(both, active, all);
    FilterAgree(completed, (b: Bounty) => b.status == Completed, all);
  }

  /** The shipped catalogue has paid out 400 and has nothing outstanding. */
  lemma CatalogTotals()
    ensures TotalRewardPaid(Catalog) == 400
    ensures TotalActiveReward(Catalog) == 0
  {
    CatalogStatuses();
    var tail := [JobBoard, ProfileWidget];
    assert Catalog[1..] == tail && tail[1..] == [ProfileWidget] && [ProfileWidget][1..] == [];
    assert SumRewards(Catalog) == LandingPage.reward + SumRewards(tail);
    assert SumRewards([ProfileWidget]) == ProfileWidget.reward;
    assert SumRewards(tail) == JobBoard.reward + ProfileWidget.reward;
  }
}

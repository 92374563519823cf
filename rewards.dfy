/** The rewards screen (app/rewards/index.tsx): the list shown for the
    active tab, an order-preserving category filter, and the points check
    in front of a claim. */
module Rewards {

  datatype RewardType = Cashback | Discount | Freebie | Experience

  /** A reward (display-only fields such as dates, icons and colours
      dropped). */
  datatype Reward = Reward(id: string, title: string, points: int, category: string, rewardType: RewardType)

  datatype UserStats = UserStats(
    totalPoints: int, pointsEarned: int, pointsRedeemed: int, tier: string,
    nextTierPoints: int, cashbackEarned: real, rewardsRedeemed: int)

  const Stats := UserStats(2450, 5680, 3230, "Gold", 550, 234.50, 12)

  /** The catalogue of available rewards; reward '6' belongs to the
      category 'all'. */
  const AvailableRewards: seq<Reward> := [
    Reward("1", "10% Cashback at Starbucks", 500, "dining", Cashback),
    Reward("2", "Free Dubai Mall Parking", 200, "shopping", Freebie),
    Reward("3", "AED 50 ADNOC Fuel Credit", 1000, "fuel", Cashback),
    Reward("4", "25% Off Emirates Flight", 2000, "travel", Discount),
    Reward("5", "VOX Cinema Free Ticket", 800, "entertainment", Freebie),
    Reward("6", "Double Points Weekend", 0, "all", Experience),
    Reward("7", "Carrefour AED 100 Voucher", 1500, "shopping", Discount),
    Reward("8", "Premium Dining Experience", 3500, "dining", Experience)
  ]

  const ClaimedRewards: seq<Reward> := [
    Reward("c1", "AED 25 Starbucks Credit", 500, "dining", Cashback),
    Reward("c2", "Free Mall of Emirates Parking", 200, "shopping", Freebie)
  ]

  const ExpiredRewards: seq<Reward> := [
    Reward("e1", "15% Off Noon.com", 750, "shopping", Discount)
  ]

  /** The category id that disables filtering. */
  const AllCategories := "all"

  datatype Tab = Available | Claimed | Expired

  /** The three lists a tab can show. */
  datatype RewardLists = RewardLists(available: seq<Reward>, claimed: seq<Reward>, expired: seq<Reward>)

  const Catalogue := RewardLists(AvailableRewards, ClaimedRewards, ExpiredRewards)

  /** The list the active tab selects. */
  function ListForTab(tab: Tab, lists: RewardLists): (l: seq<Reward>)
    ensures tab == Available ==> l == lists.available
    ensures tab == Claimed ==> l == lists.claimed
    ensures tab == Expired ==> l == lists.expired
  {
    match tab
    case Available => lists.available
    case Claimed => lists.claimed
    case Expired => lists.expired
  }

  /** `list.filter(reward => reward.category === category)`. */
  function FilterByCategory(list: seq<Reward>, category: string): (r: seq<Reward>)
    ensures |r| <= |list|
    ensures forall x :: x in r <==> x in list && x.category == category
  {
    if |list| == 0 then []
    else if list[0].category == category then [list[0]] + FilterByCategory(list[1..], category)
    else FilterByCategory(list[1..], category)
  }

  /** `a` is `b` with some elements left out, the rest in their order. */
  predicate IsSubsequence<T(==)>(a: seq<T>, b: seq<T>)
    decreases |b|
  {
    |a| == 0 || (|b| > 0 && if a[0] == b[0] then IsSubsequence(a[1..], b[1..]) else IsSubsequence(a, b[1..]))
  }

  /** The filter keeps the order of the list. */
  lemma {:induction false} FilterPreservesOrder(list: seq<Reward>, category: string)
    ensures IsSubsequence(FilterByCategory(list, category), list)
  {
    if |list| > 0 {
      FilterPreservesOrder(list[1..], category);
      var rest := FilterByCategory(list[1..], category);
      if list[0].category == category {
        assert FilterByCategory(list, category) == [list[0]] + rest;
        assert ([list[0]] + rest)[1..] == rest;
      } else if |rest| > 0 {
        // every kept reward matches the category and the head does not,
        // so the head of the list is skipped
        assert rest[0] in rest;
        assert rest[0] != list[0];
      }
    }
  }

  /** The filter keeps every copy of every matching reward and no other:
      each reward occurs in the result exactly as often as in the list when
      its category matches, and never otherwise. */
  lemma {:induction false} FilterMultiplicity(list: seq<Reward>, category: string, x: Reward)
    ensures multiset(FilterByCategory(list, category))[x] ==
            if x.category == category then multiset(list)[x] else 0
  {
    if |list| > 0 {
      FilterMultiplicity(list[1..], category, x);
      assert list == [list[0]] + list[1..];
      assert multiset(list) == multiset([list[0]]) + multiset(list[1..]);
      if list[0].category == category {
        var rest := FilterByCategory(list[1..], category);
        assert multiset([list[0]] + rest) == multiset([list[0]]) + multiset(rest);
      }
    }
  }

  /** `filteredRewards()`: the active tab's list, unchanged for the 'all'
      category and filtered by category otherwise. */
  function FilteredRewards(tab: Tab, category: string, lists: RewardLists): (r: seq<Reward>)
    ensures category == AllCategories ==> r == ListForTab(tab, lists)
    ensures category != AllCategories ==>
              forall x :: x in r <==> x in ListForTab(tab, lists) && x.category == category
  {
    var list := ListForTab(tab, lists);
    if category == AllCategories then list else FilterByCategory(list, category)
  }

  /** The shown list is always an order-preserving sublist of the tab's
      list. */
  lemma FilteredRewardsPreservesOrder(tab: Tab, category: string, lists: RewardLists)
    ensures IsSubsequence(FilteredRewards(tab, category, lists), ListForTab(tab, lists))
  {
    var list := ListForTab(tab, lists);
    if category == AllCategories {
      SubsequenceReflexive(list);
    } else {
      FilterPreservesOrder(list, category);
    }
  }

  lemma {:induction false} SubsequenceReflexive<T>(s: seq<T>)
    ensures IsSubsequence(s, s)
  {
    if |s| > 0 {
      SubsequenceReflexive(s[1..]);
    }
  }

  /** A reward whose own category is 'all' is shown exactly when the 'all'
      filter is selected and it is on the active tab's list. */
  lemma AllCategoryRewardOnlyUnderAllFilter(tab: Tab, category: string, lists: RewardLists, x: Reward)
    requires x.category == AllCategories
    ensures x in FilteredRewards(tab, category, lists) <==>
            category == AllCategories && x in ListForTab(tab, lists)
  {
  }

  /** What a press of a claim button leads to. */
  datatype ClaimOutcome =
    | InsufficientPoints(shortfall: int)
    | ConfirmClaim(title: string, points: int)

  /** `handleClaimReward`: with fewer points than the reward costs, the
      shortfall is reported; otherwise a confirmation is asked for. */
  function ClaimReward(totalPoints: int, reward: Reward): (o: ClaimOutcome)
    ensures o.InsufficientPoints? <==> totalPoints < reward.points
    ensures o.InsufficientPoints? ==> o.shortfall > 0 && totalPoints + o.shortfall == reward.points
    ensures o.ConfirmClaim? ==> o.title == reward.title && o.points == reward.points
  {
    if totalPoints < reward.points then InsufficientPoints(reward.points - totalPoints)
    else ConfirmClaim(reward.title, reward.points)
  }

  /** The claim button of an available reward. */
  datatype ClaimButton = ClaimButton(disabled: bool, caption: string)

  function ClaimButtonFor(totalPoints: int, reward: Reward): ClaimButton
  {
    if totalPoints < reward.points then ClaimButton(true, "Insufficient Points")
    else ClaimButton(false, "Claim Reward")
  }

  /** The button is disabled, and captioned "Insufficient Points", exactly
      when the claim would be refused. */
  lemma ClaimButtonMatchesClaim(totalPoints: int, reward: Reward)
    ensures ClaimButtonFor(totalPoints, reward).disabled <==> ClaimReward(totalPoints, reward).InsufficientPoints?
    ensures ClaimButtonFor(totalPoints, reward).caption == "Insufficient Points" <==> ClaimButtonFor(totalPoints, reward).disabled
  {
  }

  /** With the screen's 2450 points, only the dining experience (3500) is
      out of reach among the available rewards, 1050 points short. */
  lemma CatalogueClaims()
    ensures ClaimReward(Stats.totalPoints, AvailableRewards[7]) == InsufficientPoints(1050)
    ensures forall i :: 0 <= i < 7 ==> ClaimReward(Stats.totalPoints, AvailableRewards[i]).ConfirmClaim?
  {
  }

  class RewardsScreen {
    var selectedCategory: string
    var activeTab: Tab
    const userStats: UserStats
    const lists: RewardLists

    constructor(userStats: UserStats, lists: RewardLists)
      ensures selectedCategory == AllCategories && activeTab == Available
      ensures this.userStats == userStats && this.lists == lists
    {
      selectedCategory, activeTab := AllCategories, Available;
      this.userStats, this.lists := userStats, lists;
    }

    method SelectCategory(category: string)
      modifies this
      ensures selectedCategory == category && activeTab == old(activeTab)
    {
      selectedCategory := category;
    }

    method SelectTab(tab: Tab)
      modifies this
      ensures activeTab == tab && selectedCategory == old(selectedCategory)
    {
      activeTab := tab;
    }

    /** Claiming only shows dialogs: no state, statistic or list changes,
        which the empty frame of this method guarantees. */
    method HandleClaimReward(reward: Reward) returns (o: ClaimOutcome)
      ensures o.InsufficientPoints? <==> userStats.totalPoints < reward.points
      ensures o.InsufficientPoints? ==> o.shortfall == reward.points - userStats.totalPoints
      ensures o.ConfirmClaim? ==> o == ConfirmClaim(reward.title, reward.points)
    {
      if userStats.totalPoints < reward.points {
        o := InsufficientPoints(reward.points - userStats.totalPoints);
        return;
      }
      o := ConfirmClaim(reward.title, reward.points);
    }
  }
}

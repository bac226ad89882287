/**
 * The achievements screen (src/screens/AchievementsScreen.tsx): the list
 * and counters loaded from the service, the unlocked/locked/all filter,
 * the progress percentage, and the check that reloads only when something
 * new was unlocked. The service answers are parameters.
 */
module Achievements {
  import opened Wrappers
  import opened Text
  import opened Lists
  import opened Alerts
  import opened UseToast

  /** The parts of an achievement the screen's logic reads. */
  datatype Achievement = Achievement(id: string, unlocked: bool)

  /** `getMyAchievements`'s answer. */
  datatype AchievementData = AchievementData(achievements: seq<Achievement>, totalPoints: int, unlockedCount: int, totalCount: int)

  datatype FilterChoice = All | UnlockedOnly | LockedOnly

  const LoadFailure: string := "Não foi possível carregar as conquistas"
  const CheckFailure: string := "Erro ao verificar conquistas"
  const NothingNew: Alert := Alert("Conquistas", "Nenhuma nova conquista desbloqueada")

  /** The success toast of a check that unlocked `count` achievements. */
  function NewAchievementsMessage(count: nat): string {
    NatToString(count) + " nova(s) conquista(s)!"
  }

  /** The filter's test for one achievement. */
  function Keeps(filter: FilterChoice): Achievement -> bool {
    (a: Achievement) =>
      match filter
      case UnlockedOnly => a.unlocked
      case LockedOnly => !a.unlocked
      case All => true
  }

  /**
   * `filteredAchievements`: the achievements the filter keeps, in their
   * order, each as often as in the list; `all` keeps the list.
   */
  function Filtered(items: seq<Achievement>, filter: FilterChoice): (shown: seq<Achievement>)
    ensures filter == All ==> shown == items
    ensures filter == UnlockedOnly ==> forall i :: 0 <= i < |shown| ==> shown[i].unlocked
    ensures filter == LockedOnly ==> forall i :: 0 <= i < |shown| ==> !shown[i].unlocked
    ensures forall a :: Keeps(filter)(a) ==> multiset(shown)[a] == multiset(items)[a]
    ensures forall a :: !Keeps(filter)(a) ==> multiset(shown)[a] == 0
  {
    FilterAll(items, filter);
    Filter(items, Keeps(filter))
  }

  /** What `Filtered` needs about `Filter` with the filter's test. */
  lemma FilterAll(items: seq<Achievement>, filter: FilterChoice)
    ensures filter == All ==> Filter(items, Keeps(filter)) == items
    ensures forall a :: multiset(Filter(items, Keeps(filter)))[a] == if Keeps(filter)(a) then multiset(items)[a] else 0
  {
    if filter == All {
      FilterKeepsAll(items, Keeps(filter));
    }
    forall a {
      FilterCount(items, Keeps(filter), a);
    }
  }

  /** The unlocked view and the locked view together are the whole list. */
  lemma UnlockedAndLockedPartition(items: seq<Achievement>)
    ensures multiset(Filtered(items, UnlockedOnly)) + multiset(Filtered(items, LockedOnly)) == multiset(items)
    ensures |Filtered(items, UnlockedOnly)| + |Filtered(items, LockedOnly)| == |items|
  {
    FilterPartition(items, Keeps(UnlockedOnly), Keeps(LockedOnly));
    assert |multiset(Filtered(items, UnlockedOnly)) + multiset(Filtered(items, LockedOnly))| == |multiset(items)|;
  }

  /** `progressPercentage`, in exact arithmetic: 0 without achievements, between 0 and 100 for counts that fit. */
  function ProgressPercentage(unlockedCount: int, totalCount: int): (percent: real)
    ensures totalCount <= 0 ==> percent == 0.0
    ensures 0 < totalCount && 0 <= unlockedCount <= totalCount ==> 0.0 <= percent <= 100.0
    ensures 0 < totalCount && unlockedCount == totalCount ==> percent == 100.0
  {
    if totalCount > 0 then (unlockedCount as real / totalCount as real) * 100.0 else 0.0
  }

  class AchievementsScreen {
    const toast: ToastHook
    var loading: bool
    var refreshing: bool
    var achievements: seq<Achievement>
    var totalPoints: int
    var unlockedCount: int
    var totalCount: int
    var filter: FilterChoice

    constructor (toast: ToastHook)
      ensures this.toast == toast && loading && !refreshing && achievements == []
      ensures totalPoints == 0 && unlockedCount == 0 && totalCount == 0 && filter == All
    {
      this.toast := toast;
      loading, refreshing := true, false;
      achievements := [];
      totalPoints, unlockedCount, totalCount := 0, 0, 0;
      filter := All;
    }

    /** What the screen lists under the current filter. */
    function Shown(): seq<Achievement>
      reads this
    {
      Filtered(achievements, filter)
    }

    /** `loadAchievements`: an answer replaces the list and counters; a failure keeps them and shows the error toast. Either way loading is over. */
    method LoadAchievements(answer: Option<AchievementData>)
      modifies this`achievements, this`totalPoints, this`unlockedCount, this`totalCount, this`loading, this`refreshing, toast
      ensures answer.Some? ==>
        achievements == answer.value.achievements && totalPoints == answer.value.totalPoints
        && unlockedCount == answer.value.unlockedCount && totalCount == answer.value.totalCount
        && toast.toast == old(toast.toast)
      ensures answer.None? ==>
        achievements == old(achievements) && totalPoints == old(totalPoints)
        && unlockedCount == old(unlockedCount) && totalCount == old(totalCount)
        && toast.toast == ToastState(true, LoadFailure, ErrorToast)
      ensures !loading && !refreshing
    {
      if answer.Some? {
        achievements := answer.value.achievements;
        totalPoints := answer.value.totalPoints;
        unlockedCount := answer.value.unlockedCount;
        totalCount := answer.value.totalCount;
      } else {
        toast.Error(LoadFailure);
      }
      loading, refreshing := false, false;
    }

    /** `handleRefresh`: the pull-to-refresh runs a load. */
    method HandleRefresh(answer: Option<AchievementData>)
      modifies this`achievements, this`totalPoints, this`unlockedCount, this`totalCount, this`loading, this`refreshing, toast
      ensures answer.Some? ==>
        achievements == answer.value.achievements && totalPoints == answer.value.totalPoints
        && unlockedCount == answer.value.unlockedCount && totalCount == answer.value.totalCount
        && toast.toast == old(toast.toast)
      ensures answer.None? ==>
        achievements == old(achievements) && totalPoints == old(totalPoints)
        && unlockedCount == old(unlockedCount) && totalCount == old(totalCount)
        && toast.toast == ToastState(true, LoadFailure, ErrorToast)
      ensures !loading && !refreshing
    {
      refreshing := true;
      LoadAchievements(answer);
    }

    /** The filter tabs. */
    method ChooseFilter(choice: FilterChoice)
      modifies this`filter
      ensures filter == choice
    {
      filter := choice;
    }

    /**
     * `handleCheckAchievements`: `unlocked` is the number of new
     * achievements the check reported, `None` when it failed. Some new
     * ones give the success toast and a reload, whose own failure replaces
     * that toast with the load-error toast; none gives the alert and no
     * reload; a failed check gives the error toast.
     */
    method HandleCheckAchievements(unlocked: Option<nat>, reload: Option<AchievementData>)
      returns (alert: Option<Alert>, reloaded: bool)
      modifies this`achievements, this`totalPoints, this`unlockedCount, this`totalCount, this`loading, this`refreshing, toast
      ensures reloaded <==> unlocked.Some? && unlocked.value > 0
      ensures alert.Some? <==> unlocked == Some(0)
      ensures alert.Some? ==> alert.value == NothingNew
      ensures !reloaded ==>
        achievements == old(achievements) && totalPoints == old(totalPoints)
        && unlockedCount == old(unlockedCount) && totalCount == old(totalCount)
        && loading == old(loading) && refreshing == old(refreshing)
      ensures reloaded ==> !loading && !refreshing
      ensures reloaded && reload.Some? ==>
        achievements == reload.value.achievements && totalPoints == reload.value.totalPoints
        && unlockedCount == reload.value.unlockedCount && totalCount == reload.value.totalCount
        && toast.toast == ToastState(true, NewAchievementsMessage(unlocked.value), SuccessToast)
      ensures reloaded && reload.None? ==>
        achievements == old(achievements) && totalPoints == old(totalPoints)
        && unlockedCount == old(unlockedCount) && totalCount == old(totalCount)
        && toast.toast == ToastState(true, LoadFailure, ErrorToast)
      ensures unlocked == Some(0) ==> toast.toast == old(toast.toast)
      ensures unlocked.None? ==> toast.toast == ToastState(true, CheckFailure, ErrorToast)
    {
      alert, reloaded := None, false;
      if unlocked.None? {
        toast.Error(CheckFailure);
      } else if unlocked.value > 0 {
        toast.Success(NewAchievementsMessage(unlocked.value));
        LoadAchievements(reload);
        reloaded := true;
      } else {
        alert := Some(NothingNew);
      }
    }
  }
}

/**
  The "Auto Lock Action Bars" tweak: on entering combat, or on a zone
  change, it sends a lock callback to the main action bar and, when
  configured, to the cross hotbar.

  The callback itself goes to the game's UI and is not modelled; a handler
  here returns the callbacks it would send, in order. The UI is given as the
  set of addon names the lookup finds.
 */
module AutoLock {

  /** A territory id, the C# `ushort` the zone-change handler receives. */
  newtype uint16 = x: int | 0 <= x < 0x1_0000

  /** The tweak's three options; each defaults to true. */
  datatype Config = Config(combatStart: bool, zoneChange: bool, crossHotbar: bool)

  const DefaultConfig: Config := Config(true, true, true)

  /** The condition flags the host reports: InCombat, and OtherFlag standing for every other flag, none of which matters here. */
  datatype ConditionFlag = InCombat | OtherFlag

  /** An event delivered to the tweak. */
  datatype Event =
    | ConditionChanged(flag: ConditionFlag, value: bool)
    | TerritoryChanged(territory: uint16)

  datatype Bar = MainBar | CrossBar

  /** The UI state: names of the addons the host's lookup currently finds. */
  datatype Ui = Ui(loaded: set<string>)

  /** A callback sent to a bar: the leading numeric arguments, then the lock flag. */
  datatype Callback = Callback(bar: Bar, args: seq<int>, lock: bool)

  function AddonName(bar: Bar): string {
    match bar
    case MainBar => "_ActionBar"
    case CrossBar => "_ActionCross"
  }

  /** The fixed numeric arguments each bar's callback carries before the lock flag. */
  function LockArgs(bar: Bar): seq<int> {
    match bar
    case MainBar => [10, 3, 51, 0]
    case CrossBar => [10, 4, 62, 10]
  }

  /** Whether some callback in `r` goes to `bar`. */
  predicate Targets(r: seq<Callback>, bar: Bar) {
    exists k :: 0 <= k < |r| && r[k].bar == bar
  }

  /** The callbacks one bar receives: one when its addon is found, none when the lookup fails. */
  function SetLockOn(bar: Bar, ui: Ui, lock: bool): (r: seq<Callback>)
    ensures |r| <= 1
    ensures Targets(r, bar) <==> AddonName(bar) in ui.loaded
    ensures forall k :: 0 <= k < |r| ==> r[k].bar == bar && r[k].args == LockArgs(bar) && r[k].lock == lock
  {
    if AddonName(bar) !in ui.loaded then []
    else
      var r := [Callback(bar, LockArgs(bar), lock)];
      assert r[0].bar == bar;
      r
  }

  /** SetLockBar: the main action bar's callback. */
  function SetLockBar(ui: Ui, lock: bool): (r: seq<Callback>)
    ensures |r| <= 1
    ensures r == [] <==> "_ActionBar" !in ui.loaded
    ensures forall k :: 0 <= k < |r| ==> r[k] == Callback(MainBar, [10, 3, 51, 0], lock)
  {
    SetLockOn(MainBar, ui, lock)
  }

  /** SetLockCross: the cross hotbar's callback. */
  function SetLockCross(ui: Ui, lock: bool): (r: seq<Callback>)
    ensures |r| <= 1
    ensures r == [] <==> "_ActionCross" !in ui.loaded
    ensures forall k :: 0 <= k < |r| ==> r[k] == Callback(CrossBar, [10, 4, 62, 10], lock)
  {
    SetLockOn(CrossBar, ui, lock)
  }

  /**
    SetLock: the main bar always, the cross hotbar only when configured, the
    main bar first; a bar whose addon is missing is skipped without affecting
    the other.
   */
  function SetLock(cfg: Config, ui: Ui, lock: bool): (r: seq<Callback>)
    ensures |r| <= 2
    ensures Targets(r, MainBar) <==> AddonName(MainBar) in ui.loaded
    ensures Targets(r, CrossBar) <==> cfg.crossHotbar && AddonName(CrossBar) in ui.loaded
    ensures forall i, j :: 0 <= i < j < |r| ==> r[i].bar == MainBar && r[j].bar == CrossBar
    ensures forall k :: 0 <= k < |r| ==> r[k].lock == lock && r[k].args == LockArgs(r[k].bar)
  {
    var main := SetLockBar(ui, lock);
    var cross := if cfg.crossHotbar then SetLockCross(ui, lock) else [];
    var r := main + cross;
    assert forall k :: 0 <= k < |cross| ==> r[|main| + k] == cross[k];
    assert main != [] ==> r[0].bar == MainBar;
    assert cross != [] ==> r[|main|].bar == CrossBar;
    r
  }

  /** The combat handler locks only when the option is on and the InCombat flag turns on. */
  function OnConditionChange(cfg: Config, ui: Ui, flag: ConditionFlag, value: bool): (r: seq<Callback>)
    ensures r != [] ==> cfg.combatStart && flag == InCombat && value
    ensures cfg.combatStart && flag == InCombat && value ==> r == SetLock(cfg, ui, true)
    ensures cfg.combatStart && flag == InCombat && value ==>
      (Targets(r, MainBar) <==> AddonName(MainBar) in ui.loaded) &&
      (Targets(r, CrossBar) <==> cfg.crossHotbar && AddonName(CrossBar) in ui.loaded)
    ensures forall k :: 0 <= k < |r| ==> r[k].lock
  {
    if cfg.combatStart && flag == InCombat && value then SetLock(cfg, ui, true) else []
  }

  /** The zone-change handler locks exactly when the option is on, whatever the territory. */
  function OnTerritoryChanged(cfg: Config, ui: Ui, territory: uint16): (r: seq<Callback>)
    ensures !cfg.zoneChange ==> r == []
    ensures cfg.zoneChange ==> r == SetLock(cfg, ui, true)
    ensures cfg.zoneChange ==>
      (Targets(r, MainBar) <==> AddonName(MainBar) in ui.loaded) &&
      (Targets(r, CrossBar) <==> cfg.crossHotbar && AddonName(CrossBar) in ui.loaded)
    ensures forall k :: 0 <= k < |r| ==> r[k].lock
  {
    if cfg.zoneChange then SetLock(cfg, ui, true) else []
  }

  /** The callbacks one event produces; none of them ever unlocks a bar. */
  function Dispatch(cfg: Config, ui: Ui, ev: Event): (r: seq<Callback>)
    ensures |r| <= 2
    ensures forall i, j :: 0 <= i < j < |r| ==> r[i].bar == MainBar && r[j].bar == CrossBar
    ensures forall k :: 0 <= k < |r| ==> r[k].lock && r[k].args == LockArgs(r[k].bar)
  {
    match ev
    case ConditionChanged(flag, value) => OnConditionChange(cfg, ui, flag, value)
    case TerritoryChanged(territory) => OnTerritoryChanged(cfg, ui, territory)
  }

  /** Leaving combat, or any flag other than InCombat, produces nothing. */
  lemma OnlyCombatStartLocks(cfg: Config, ui: Ui, flag: ConditionFlag, value: bool)
    requires flag != InCombat || !value
    ensures Dispatch(cfg, ui, ConditionChanged(flag, value)) == []
  {
  }

  /** The territory id never influences what is locked. */
  lemma TerritoryIdIrrelevant(cfg: Config, ui: Ui, t1: uint16, t2: uint16)
    ensures Dispatch(cfg, ui, TerritoryChanged(t1)) == Dispatch(cfg, ui, TerritoryChanged(t2))
  {
  }

  /** With both bars present and all options on, entering combat locks the main bar, then the cross hotbar. */
  lemma CombatStartLocksBoth(ui: Ui)
    requires "_ActionBar" in ui.loaded && "_ActionCross" in ui.loaded
    ensures Dispatch(DefaultConfig, ui, ConditionChanged(InCombat, true)) ==
      [Callback(MainBar, [10, 3, 51, 0], true), Callback(CrossBar, [10, 4, 62, 10], true)]
  {
  }

  /** A missing main bar skips only its own callback; the cross hotbar is still locked. */
  lemma MissingMainBarSkipsOnlyIt(cfg: Config, ui: Ui)
    requires cfg.crossHotbar
    requires "_ActionBar" !in ui.loaded && "_ActionCross" in ui.loaded
    ensures SetLock(cfg, ui, true) == [Callback(CrossBar, [10, 4, 62, 10], true)]
  {
  }

  /** A missing cross hotbar skips only its own callback; the main bar is still locked. */
  lemma MissingCrossBarSkipsOnlyIt(cfg: Config, ui: Ui)
    requires "_ActionBar" in ui.loaded && "_ActionCross" !in ui.loaded
    ensures SetLock(cfg, ui, true) == [Callback(MainBar, [10, 3, 51, 0], true)]
  {
  }

  /** The tweak object, as far as its subscription to the host's condition-change event goes. */
  class AutoLockHotbar {
    /** How many times OnConditionChange is subscribed to the condition-change event. */
    var subscriptions: nat

    constructor ()
      ensures subscriptions == 0
    {
      subscriptions := 0;
    }

    /** Subscribes the condition-change handler once more. */
    method Enable()
      modifies this
      ensures subscriptions == old(subscriptions) + 1
    {
      subscriptions := subscriptions + 1;
    }

    /** Removes one subscription; removing a handler that is not subscribed does nothing. */
    method Disable()
      modifies this
      ensures subscriptions == if old(subscriptions) > 0 then old(subscriptions) - 1 else 0
    {
      if subscriptions > 0 {
        subscriptions := subscriptions - 1;
      }
    }

    /** Enable followed by Disable restores the count the tweak started with. */
    method EnableThenDisable()
      modifies this
      ensures subscriptions == old(subscriptions)
    {
      Enable();
      Disable();
    }
  }
}

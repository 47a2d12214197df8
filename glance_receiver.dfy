/**
 * The Android widget receivers: the remapping of active widget ids when
 * widgets are restored from a backup, the removal of deleted widgets, and
 * the time of the next clock-widget tick.
 */
module GlanceReceiver {
  import opened Base
  import opened WeatherWidgetManager

  /** The active ids after the first k pairs of onRestored: each old id removed, then its new id added. */
  function Restored(ids: set<int>, oldIds: seq<int>, newIds: seq<int>, k: nat): (r: set<int>)
    requires k <= |oldIds| && k <= |newIds|
    ensures k > 0 ==> newIds[k - 1] in r
  {
    if k == 0 then ids else (Restored(ids, oldIds, newIds, k - 1) - {oldIds[k - 1]}) + {newIds[k - 1]}
  }

  /**
   * When no old id is also a new id, the restored set holds exactly the
   * new ids and the ids that were active and are not among the old ones.
   */
  lemma {:induction false} RestoredMembers(ids: set<int>, oldIds: seq<int>, newIds: seq<int>, k: nat, x: int)
    requires k <= |oldIds| && k <= |newIds|
    requires forall i, j :: 0 <= i < k && 0 <= j < k ==> oldIds[i] != newIds[j]
    ensures x in Restored(ids, oldIds, newIds, k) <==> x in newIds[..k] || (x in ids && x !in oldIds[..k])
  {
    if k > 0 {
      RestoredMembers(ids, oldIds, newIds, k - 1, x);
      assert newIds[..k] == newIds[..k - 1] + [newIds[k - 1]];
      assert oldIds[..k] == oldIds[..k - 1] + [oldIds[k - 1]];
      if x == oldIds[k - 1] {
        assert x !in newIds[..k] by {
          forall j | 0 <= j < k ensures newIds[..k][j] != x { }
        }
      }
    }
  }


  /** onRestored: for each index both arrays have, removeActiveWidget(old) then addActiveWidget(new). */
  method OnRestored(m: WidgetManager, oldIds: seq<int>, newIds: seq<int>)
    modifies m`storedIds
    ensures m.ActiveIds() == Restored(old(m.ActiveIds()), oldIds, newIds, Min(|oldIds|, |newIds|))
  {
    ghost var n := Min(|oldIds|, |newIds|);
    for i := 0 to |oldIds|
      invariant m.ActiveIds() == Restored(old(m.ActiveIds()), oldIds, newIds, Min(i, n))
    {
      if i < |newIds| {
        m.RemoveActiveWidget(oldIds[i]);
        m.AddActiveWidget(newIds[i]);
      }
    }
  }

  /** onDeleted: onWidgetRemoved for each deleted id. */
  method OnDeleted(m: WidgetManager, widgetIds: seq<int>)
    modifies m`storedIds, m`storedConfigs, m`widgetDataCache, m`cacheLoaded, m`storedCache
    ensures m.ActiveIds() == old(m.ActiveIds()) - set i | 0 <= i < |widgetIds| :: widgetIds[i]
    ensures AllConfigsOf(m.storedConfigs) == old(AllConfigsOf(m.storedConfigs)) - set i | 0 <= i < |widgetIds| :: widgetIds[i]
    ensures widgetIds != [] ==> m.cacheLoaded && m.widgetDataCache == old(m.LoadedCache()) - set i | 0 <= i < |widgetIds| :: widgetIds[i]
  {
    for k := 0 to |widgetIds|
      invariant m.ActiveIds() == old(m.ActiveIds()) - set i | 0 <= i < k :: widgetIds[i]
      invariant AllConfigsOf(m.storedConfigs) == old(AllConfigsOf(m.storedConfigs)) - set i | 0 <= i < k :: widgetIds[i]
      invariant k > 0 ==> m.cacheLoaded && m.widgetDataCache == old(m.LoadedCache()) - set i | 0 <= i < k :: widgetIds[i]
      invariant k == 0 ==> m.cacheLoaded == old(m.cacheLoaded) && m.widgetDataCache == old(m.widgetDataCache) && m.storedCache == old(m.storedCache)
    {
      m.OnWidgetRemoved(widgetIds[k]);
      assert (set i | 0 <= i < k + 1 :: widgetIds[i]) == (set i | 0 <= i < k :: widgetIds[i]) + {widgetIds[k]};
    }
  }

  /** Kotlin's Long division, which truncates toward zero. */
  function TruncDiv(a: int, b: int): (q: int)
    requires b > 0
    ensures a >= 0 ==> q == a / b
    ensures a < 0 ==> q == -((-a) / b)
  {
    if a >= 0 then a / b else -((-a) / b)
  }

  /** scheduleNextClockUpdate: the next whole minute after now, plus 200 ms. */
  function NextClockTick(now: int): (r: int)
    ensures r > now && r % 60000 == 200
  {
    var q := TruncDiv(now, 60000);
    assert now < 0 ==> (-now) / 60000 * 60000 <= -now;
    (q + 1) * 60000 + 200
  }

  /** The tick is strictly after now; from a non-negative clock it is the next minute boundary, 200 ms late. */
  lemma NextClockTickProperties(now: int)
    ensures NextClockTick(now) > now
    ensures now >= 0 ==> var t := NextClockTick(now);
      (t - 200) % 60000 == 0 && now < t - 200 <= now + 60000 && t % 60000 == 200
  {
    if now < 0 {
      var q := (-now) / 60000;
      assert q * 60000 <= -now;
    }
  }
}

/**
 * Shared helpers: the bracket of a value in a list of thresholds, the
 * colour of a value on an indexed scale, and the fixed bounding box
 * (BRA_BOUNDS, over France) that isBRABounds tests a location against.
 */
module UtilsCommon {
  import opened Base

  // ---------------------------------------------------------------------
  // nearest
  // ---------------------------------------------------------------------

  /**
   * The loop of nearest from position low: it moves on while the next
   * element exists and n is above it (past the end, arr[low + 1] is
   * undefined and the comparison is false). None for n is NaN.
   */
  function NearestFrom(arr: seq<real>, n: Option<real>, low: nat): (r: nat)
    requires low == 0 || low < |arr|
    ensures r >= low && (r == 0 || r < |arr|)
    ensures r + 1 < |arr| ==> n.None? || n.value <= arr[r + 1]
    ensures forall j :: low < j <= r ==> n.Some? && n.value > arr[j]
    decreases |arr| - low
  {
    if low + 1 < |arr| && n.Some? && n.value > arr[low + 1] then NearestFrom(arr, n, low + 1) else low
  }

  /** The upper end of the bracket: the next index, or low itself at the end. */
  function High(arr: seq<real>, low: nat): (r: nat)
    ensures r == low || r == low + 1
    ensures low < |arr| ==> r < |arr|
  {
    if low < |arr| - 1 then low + 1 else low
  }

  /** nearest(arr, n) = [low, high]. */
  method Nearest(arr: seq<real>, n: Option<real>) returns (low: nat, high: nat)
    ensures low == NearestFrom(arr, n, 0) && high == High(arr, low)
  {
    low := 0;
    var index := 0;
    while index + 1 < |arr| && n.Some? && n.value > arr[index + 1]
      invariant index == low && (low == 0 || low < |arr|)
      invariant NearestFrom(arr, n, low) == NearestFrom(arr, n, 0)
      decreases |arr| - index
    {
      low := low + 1;
      index := index + 1;
    }
    high := if low < |arr| - 1 then low + 1 else low;
  }

  /** The bracket lies inside the list: 0 <= low <= len - 1 and high = min(low + 1, len - 1). */
  lemma NearestBounds(arr: seq<real>, n: Option<real>)
    requires arr != []
    ensures var low := NearestFrom(arr, n, 0);
      0 <= low <= |arr| - 1 && High(arr, low) == (if low + 1 <= |arr| - 1 then low + 1 else |arr| - 1)
  {
  }

  predicate Sorted(arr: seq<real>)
  {
    forall i, j :: 0 <= i <= j < |arr| ==> arr[i] <= arr[j]
  }

  /** How many elements lie strictly below n. */
  function CountBelow(xs: seq<real>, n: real): (c: nat)
    ensures c <= |xs|
  {
    if xs == [] then 0 else (if xs[0] < n then 1 else 0) + CountBelow(xs[1..], n)
  }

  lemma {:induction false} CountBelowSortedPrefix(xs: seq<real>, n: real, k: nat)
    requires Sorted(xs) && k <= |xs|
    requires forall j :: 0 <= j < k ==> xs[j] < n
    requires k < |xs| ==> n <= xs[k]
    ensures CountBelow(xs, n) == k
    decreases |xs|
  {
    if xs != [] {
      assert Sorted(xs[1..]) by {
        forall i, j | 0 <= i <= j < |xs[1..]| ensures xs[1..][i] <= xs[1..][j] {
          assert xs[1..][i] == xs[i + 1] && xs[1..][j] == xs[j + 1];
        }
      }
      if k == 0 {
        CountBelowSortedPrefix(xs[1..], n, 0);
      } else {
        CountBelowSortedPrefix(xs[1..], n, k - 1);
      }
    }
  }

  /**
   * On a sorted list, low counts the thresholds after the first that lie
   * below n: the bracket is arr[low] < n <= arr[low + 1] inside the list.
   */
  lemma NearestOnSorted(arr: seq<real>, n: real)
    requires Sorted(arr) && arr != []
    ensures NearestFrom(arr, Some(n), 0) == CountBelow(arr[1..], n)
    ensures var low := NearestFrom(arr, Some(n), 0);
      (low > 0 ==> arr[low] < n) && (low + 1 < |arr| ==> n <= arr[low + 1])
  {
    var low := NearestFrom(arr, Some(n), 0);
    var xs := arr[1..];
    assert Sorted(xs) by {
      forall i, j | 0 <= i <= j < |xs| ensures xs[i] <= xs[j] {
        assert xs[i] == arr[i + 1] && xs[j] == arr[j + 1];
      }
    }
    forall j | 0 <= j < low ensures xs[j] < n {
      assert xs[j] == arr[j + 1];
    }
    if low < |xs| {
      assert xs[low] == arr[low + 1];
    }
    CountBelowSortedPrefix(xs, n, low);
  }

  // ---------------------------------------------------------------------
  // getIndexedColor
  // ---------------------------------------------------------------------

  /** The result of getIndexedColor: null, undefined (no colour at that index) or a colour. */
  datatype IndexedColor = NullColor | UndefinedColor | Color(hex: string)

  /** getIndexedColor without mixing; None for value is NaN. */
  function GetIndexedColor(value: Option<real>, indexes: seq<real>, colors: seq<string>): (r: IndexedColor)
    ensures value.None? <==> r.NullColor?
  {
    if value.None? then NullColor
    else
      var low := NearestFrom(indexes, value, 0);
      if low < |colors| then Color(colors[low]) else UndefinedColor
  }

  /** The colour is the one at the lower end of the value's bracket. */
  lemma IndexedColorOfBracket(value: real, indexes: seq<real>, colors: seq<string>)
    requires Sorted(indexes) && indexes != [] && |colors| == |indexes|
    ensures var low := CountBelow(indexes[1..], value);
      low < |colors| && GetIndexedColor(Some(value), indexes, colors) == Color(colors[low])
  {
    NearestOnSorted(indexes, value);
  }

  // ---------------------------------------------------------------------
  // isBRABounds
  // ---------------------------------------------------------------------

  const BraLonMin: real := -4.855957
  const BraLatMin: real := 41.310824
  const BraLonMax: real := 9.645996
  const BraLatMax: real := 51.124213

  /** The inclusive box of BRA_BOUNDS = [lon min, lat min, lon max, lat max]. */
  predicate IsBRABounds(lat: real, lon: real)
  {
    lon >= BraLonMin && lon <= BraLonMax && lat >= BraLatMin && lat <= BraLatMax
  }

  /** The box includes its edges, and any point between two points inside it is inside. */
  lemma BRABoundsBox(lat1: real, lon1: real, lat2: real, lon2: real, lat: real, lon: real)
    requires IsBRABounds(lat1, lon1) && IsBRABounds(lat2, lon2)
    requires (lat1 <= lat <= lat2 || lat2 <= lat <= lat1) && (lon1 <= lon <= lon2 || lon2 <= lon <= lon1)
    ensures IsBRABounds(lat, lon)
    ensures IsBRABounds(BraLatMin, BraLonMin) && IsBRABounds(BraLatMax, BraLonMax)
    ensures !IsBRABounds(BraLatMax + 0.000001, lon)
  {
  }
}

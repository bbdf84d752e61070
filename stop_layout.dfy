/**
 * Stop layout (class `Stop` in main.py): the ordered stop list of a route and
 * the evenly spaced LED number each stop is given.
 */
module StopLayout {
  import opened Wrappers

  /** The exception `assign_locations` raises on an empty stop list. */
  datatype Error = ZeroDivisionError

  /** One decoded entry of the stops response: its name, coordinates and id. */
  datatype StopAttributes = StopAttributes(name: string, latitude: real, longitude: real, id: string)

  /** A stop dictionary of `stop_list`; its `number` key is absent until the layout writes it. */
  datatype StopEntry = StopEntry(name: string, latitude: real, longitude: real, id: string, number: Option<int>)

  /**
   * Python's `round(w / n)` on the exact quotient: the nearest integer, and on
   * a tie (a quotient ending in .5) the even one. The spacing of the layout is
   * this value; `math.floor` of an integer leaves it unchanged.
   */
  function StopSpacing(w: int, n: int): (r: int)
    requires n > 0
    ensures n * (2 * r - 1) <= 2 * w <= n * (2 * r + 1)
    ensures (2 * w == n * (2 * r - 1) || 2 * w == n * (2 * r + 1)) ==> r % 2 == 0
  {
    var q, m := w / n, w % n;
    var up := if 2 * m < n then 0 else if 2 * m > n then 1 else if q % 2 == 0 then 0 else 1;
    RoundingBounds(w, n, q, m, up);
    q + up
  }

  /** The bounds of rounding `w / n` down (`up == 0`) or up (`up == 1`) from its floor `q`. */
  lemma RoundingBounds(w: int, n: int, q: int, m: int, up: int)
    requires n > 0 && w == n * q + m && 0 <= m < n
    requires (up == 0 && 2 * m <= n) || (up == 1 && 2 * m >= n)
    ensures n * (2 * (q + up) - 1) <= 2 * w <= n * (2 * (q + up) + 1)
    ensures (2 * w == n * (2 * (q + up) - 1) || 2 * w == n * (2 * (q + up) + 1)) ==> 2 * m == n
  {
    assert n * (2 * (q + up) - 1) == 2 * (n * q) + 2 * (n * up) - n;
    assert n * (2 * (q + up) + 1) == 2 * (n * q) + 2 * (n * up) + n;
  }

  /** `a * b < a * c` for a positive `a` and `b < c`. */
  lemma MulStrictlyMonotonic(a: int, b: int, c: int)
    requires a > 0 && b < c
    ensures a * b < a * c
  {
    assert a * c - a * b == a * (c - b);
  }

  /**
   * The two properties of `StopSpacing` (nearest integer, ties to even)
   * determine it: no other integer has both.
   */
  lemma StopSpacingUnique(w: int, n: int, r: int)
    requires n > 0
    requires n * (2 * r - 1) <= 2 * w <= n * (2 * r + 1)
    requires (2 * w == n * (2 * r - 1) || 2 * w == n * (2 * r + 1)) ==> r % 2 == 0
    ensures r == StopSpacing(w, n)
  {
    var s := StopSpacing(w, n);
    if r < s {
      if r + 1 < s {
        MulStrictlyMonotonic(n, 2 * r + 1, 2 * s - 1);
      }
      assert false;
    } else if r > s {
      if s + 1 < r {
        MulStrictlyMonotonic(n, 2 * s + 1, 2 * r - 1);
      }
      assert false;
    }
  }

  /** True when every stop has been given a number. */
  predicate Numbered(stops: seq<StopEntry>) {
    forall k :: 0 <= k < |stops| ==> stops[k].number.Some?
  }

  /** The numbers of a numbered stop list, in list order. */
  function NumbersOf(stops: seq<StopEntry>): (nums: seq<int>)
    requires Numbered(stops)
    ensures |nums| == |stops|
  {
    seq(|stops|, k requires 0 <= k < |stops| => stops[k].number.value)
  }

  /** The list with stop `k` numbered `k * spacing` and every other key kept. */
  function Spaced(stops: seq<StopEntry>, spacing: int): seq<StopEntry> {
    seq(|stops|, k requires 0 <= k < |stops| => stops[k].(number := Some(k * spacing)))
  }

  /** The outcome of `assign_locations` on a stop list that has been fetched. */
  function Layout(stops: seq<StopEntry>, numLights: int): (r: Result<seq<StopEntry>, Error>)
    ensures r.Failure? <==> stops == []
    ensures r.Failure? ==> r.error == ZeroDivisionError
  {
    if |stops| == 0 then Failure(ZeroDivisionError)
    else Success(Spaced(stops, StopSpacing(numLights, |stops|)))
  }

  /** The unnumbered stop dictionaries `get_stops` builds from decoded entries. */
  function FromAttributes(data: seq<StopAttributes>): (r: seq<StopEntry>)
    ensures |r| == |data|
    ensures forall k :: 0 <= k < |r| ==>
      r[k].number == None && r[k].name == data[k].name && r[k].id == data[k].id &&
      r[k].latitude == data[k].latitude && r[k].longitude == data[k].longitude
  {
    seq(|data|, k requires 0 <= k < |data| =>
      StopEntry(data[k].name, data[k].latitude, data[k].longitude, data[k].id, None))
  }

  /**
   * The layout keeps the list's length and order and only adds or overwrites
   * the `number` key; stop `k` gets `k * spacing`.
   */
  lemma LayoutNumbers(stops: seq<StopEntry>, numLights: int, k: int)
    requires stops != [] && 0 <= k < |stops|
    ensures var r := Layout(stops, numLights).value;
      |r| == |stops| && Numbered(r) &&
      r[k] == stops[k].(number := Some(k * StopSpacing(numLights, |stops|)))
  {
  }

  /** The first stop is numbered 0 and consecutive stops differ by exactly the spacing. */
  lemma LayoutSteps(stops: seq<StopEntry>, numLights: int)
    requires stops != []
    ensures var r := Layout(stops, numLights).value;
      Numbered(r) && NumbersOf(r)[0] == 0 &&
      forall k :: 0 <= k < |r| - 1 ==>
        NumbersOf(r)[k + 1] - NumbersOf(r)[k] == StopSpacing(numLights, |stops|)
  {
  }

  /** With two or more stops, the numbers are strictly increasing exactly when the spacing is positive. */
  lemma {:induction false} LayoutIncreasingIff(stops: seq<StopEntry>, numLights: int)
    requires |stops| >= 2
    ensures var nums := NumbersOf(Layout(stops, numLights).value);
      (forall i, j :: 0 <= i < j < |nums| ==> nums[i] < nums[j])
      <==> StopSpacing(numLights, |stops|) > 0
  {
    var nums := NumbersOf(Layout(stops, numLights).value);
    var sp := StopSpacing(numLights, |stops|);
    if sp > 0 {
      forall i, j | 0 <= i < j < |nums| ensures nums[i] < nums[j] {
        MulStrictlyMonotonic(sp, i, j);
      }
    } else {
      assert nums[0] == 0 && nums[1] == sp;
    }
  }

  /** Running the layout again on its own output gives the same list. */
  lemma LayoutIdempotent(stops: seq<StopEntry>, numLights: int)
    requires stops != []
    ensures Layout(Layout(stops, numLights).value, numLights) == Layout(stops, numLights)
  {
    var r := Layout(stops, numLights).value;
    assert Spaced(r, StopSpacing(numLights, |r|)) == r;
  }

  /** A non-negative number of lights never gives a negative spacing. */
  lemma SpacingNonNegative(w: int, n: int)
    requires w >= 0 && n > 0
    ensures StopSpacing(w, n) >= 0
  {
    var sp := StopSpacing(w, n);
    if sp < 0 {
      MulStrictlyMonotonic(n, 2 * sp + 1, 0);
    }
  }

  /** `k * sp` lies in `[0, n * sp]` for `0 <= k < n` and a non-negative `sp`. */
  lemma MulBetween(sp: int, k: int, n: int)
    requires sp >= 0 && 0 <= k < n
    ensures 0 <= k * sp <= n * sp
    ensures sp > 0 ==> k * sp < n * sp
  {
    if sp > 0 {
      MulStrictlyMonotonic(sp, k, n);
    }
  }

  /**
   * For a positive number of lights, every number lies in `[0, numLights)`
   * exactly when the last stop's number `(n - 1) * spacing` does.
   */
  lemma LayoutInRangeIff(stops: seq<StopEntry>, numLights: int)
    requires stops != [] && numLights > 0
    ensures var nums := NumbersOf(Layout(stops, numLights).value);
      (forall k :: 0 <= k < |nums| ==> 0 <= nums[k] < numLights)
      <==> (|stops| - 1) * StopSpacing(numLights, |stops|) < numLights
  {
    var nums := NumbersOf(Layout(stops, numLights).value);
    var n, sp := |stops|, StopSpacing(numLights, |stops|);
    assert nums[n - 1] == (n - 1) * sp;
    if (n - 1) * sp < numLights {
      SpacingNonNegative(numLights, n);
      forall k | 0 <= k < n ensures 0 <= nums[k] < numLights {
        assert nums[k] == k * sp;
        if k < n - 1 {
          MulBetween(sp, k, n - 1);
        }
      }
    }
  }

  /**
   * Nothing clamps the numbers: 6 lights over 4 stops give spacing 2 and a
   * last number of 6, and 40 lights over 11 stops round 3.64 up to 4, so the
   * last stop gets 40. Both lie outside the strip.
   */
  lemma LayoutNotClamped(stops: seq<StopEntry>)
    ensures |stops| == 4 ==> NumbersOf(Layout(stops, 6).value)[3] == 6
    ensures |stops| == 11 ==> NumbersOf(Layout(stops, 40).value)[10] == 40
  {
  }

  /** Four stops over 40 lights are numbered 0, 10, 20 and 30. */
  lemma LayoutFourOverForty(stops: seq<StopEntry>)
    requires |stops| == 4
    ensures NumbersOf(Layout(stops, 40).value) == [0, 10, 20, 30]
  {
  }

  /** Ties go to the even neighbour: 10 / 4 = 2.5 gives 2, 14 / 4 = 3.5 gives 4. */
  lemma SpacingTiesToEven()
    ensures StopSpacing(10, 4) == 2 && StopSpacing(14, 4) == 4
  {
  }

  /** The object holding a route's stop list; `stopList` is updated in place. */
  class Stop {
    const apiFilter: Option<string>
    var stopList: seq<StopEntry>

    constructor (apiFilter: Option<string>)
      ensures this.apiFilter == apiFilter && stopList == []
    {
      this.apiFilter := apiFilter;
      stopList := [];
    }

    /**
     * `get_stops` after the response has been decoded: one unnumbered
     * dictionary per entry is appended, in response order.
     */
    method GetStops(data: seq<StopAttributes>) returns (r: seq<StopEntry>)
      modifies this
      ensures stopList == old(stopList) + FromAttributes(data)
      ensures r == stopList
    {
      var i := 0;
      while i < |data|
        invariant 0 <= i <= |data|
        invariant stopList == old(stopList) + FromAttributes(data)[..i]
      {
        var s := data[i];
        stopList := stopList + [StopEntry(s.name, s.latitude, s.longitude, s.id, None)];
        i := i + 1;
      }
      assert FromAttributes(data)[..i] == FromAttributes(data);
      r := stopList;
    }

    /**
     * `assign_locations`: an empty list is first fetched (`fetched` is the
     * decoded response), then stop `k` is numbered `k * spacing` in place.
     * An empty list after the fetch raises ZeroDivisionError.
     */
    method AssignLocations(numLights: int, fetched: seq<StopAttributes>)
      returns (r: Result<seq<StopEntry>, Error>)
      modifies this
      ensures r == Layout(if old(stopList) == [] then FromAttributes(fetched) else old(stopList), numLights)
      ensures r.Success? ==> stopList == r.value
      ensures r.Failure? ==> stopList == []
    {
      if stopList == [] {
        var _ := GetStops(fetched);
        assert stopList == FromAttributes(fetched);
      }
      assert stopList == if old(stopList) == [] then FromAttributes(fetched) else old(stopList);
      if |stopList| == 0 {
        return Failure(ZeroDivisionError);
      }
      var spacing := StopSpacing(numLights, |stopList|);
      ghost var before := stopList;
      var stopIndex := 0;
      var i := 0;
      while i < |stopList|
        invariant |stopList| == |before| && 0 <= i <= |stopList|
        invariant stopIndex == i * spacing
        invariant forall k :: 0 <= k < i ==> stopList[k] == before[k].(number := Some(k * spacing))
        invariant forall k :: i <= k < |stopList| ==> stopList[k] == before[k]
      {
        stopList := stopList[i := stopList[i].(number := Some(stopIndex))];
        assert (i + 1) * spacing == i * spacing + spacing;
        stopIndex := stopIndex + spacing;
        i := i + 1;
      }
      assert stopList == Spaced(before, spacing);
      r := Success(stopList);
    }
  }
}

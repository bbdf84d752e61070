/**
 * Vehicle locator (class `Train` in main.py): each vehicle of a batch is
 * matched to a stop number by a forward scan over its distances to the stops.
 */
module VehicleLocator {
  import opened Wrappers
  import opened StopLayout

  /** Travel direction derived from the API's `direction_id`. */
  datatype Direction = North | South

  /** One decoded vehicle entry of the vehicles response (its `attributes`). */
  datatype VehicleAttributes = VehicleAttributes(
    currentStopSequence: int, bearing: int, latitude: real, longitude: real,
    vehicleLabel: string, currentStatus: string, directionId: Option<int>)

  /** A train dictionary of `trains`; `stopNum` is absent until the scan writes it. */
  datatype Vehicle = Vehicle(
    stopSequence: int, bearing: int, latitude: real, longitude: real,
    number: string, status: string, direction: Option<Direction>, stopNum: Option<int>)

  /**
   * The distance in km between a stop (first two arguments: latitude,
   * longitude) and a vehicle (last two). The source computes it with the
   * haversine formula in floating point; here it is a parameter.
   */
  type Distance = (real, real, real, real) -> real

  /** A vehicle closer than this many km to a stop is at that stop. */
  const AtStopKm: real := 0.2

  /** `direction_id` 1 is North, 0 is South, anything else (or null) is no direction. */
  function DirectionOf(directionId: Option<int>): (d: Option<Direction>)
    ensures d == Some(North) <==> directionId == Some(1)
    ensures d == Some(South) <==> directionId == Some(0)
  {
    if directionId == Some(1) then Some(North)
    else if directionId == Some(0) then Some(South)
    else None
  }

  /** The `direction_id` the API uses for a direction. */
  function DirectionId(d: Direction): int {
    match d
    case North => 1
    case South => 0
  }

  /** Every direction is recovered from its id, and distinct directions have distinct ids. */
  lemma DirectionRoundTrip(d: Direction, e: Direction)
    ensures DirectionOf(Some(DirectionId(d))) == Some(d)
    ensures DirectionId(d) == DirectionId(e) ==> d == e
  {
  }

  /** The train dictionary `get_vehicles` builds from one decoded entry. */
  function TrainDict(a: VehicleAttributes): (v: Vehicle)
    ensures v.direction == DirectionOf(a.directionId) && v.stopNum == None
    ensures v.latitude == a.latitude && v.longitude == a.longitude
    ensures v.stopSequence == a.currentStopSequence && v.bearing == a.bearing
    ensures v.number == a.vehicleLabel && v.status == a.currentStatus
  {
    Vehicle(a.currentStopSequence, a.bearing, a.latitude, a.longitude,
            a.vehicleLabel, a.currentStatus, DirectionOf(a.directionId), None)
  }

  /** The train dictionaries of a decoded response, in response order. */
  function TrainDicts(data: seq<VehicleAttributes>): (r: seq<Vehicle>)
    ensures |r| == |data|
    ensures forall i :: 0 <= i < |r| ==> r[i] == TrainDict(data[i]) && r[i].stopNum == None
  {
    seq(|data|, i requires 0 <= i < |data| => TrainDict(data[i]))
  }

  /** The distance list of one vehicle: entry `k` is its distance to stop `k`. */
  function DistanceRow(sList: seq<StopEntry>, vehicle: Vehicle, dist: Distance): (d: seq<real>)
    ensures |d| == |sList|
  {
    seq(|sList|, k requires 0 <= k < |sList| =>
      dist(sList[k].latitude, sList[k].longitude, vehicle.latitude, vehicle.longitude))
  }

  /**
   * The rest of the scan from stop `k` (k >= 1) with `tentative` as the
   * current result: a stop within the threshold wins, a strictly smaller
   * distance than the previous stop's moves the result to just past this
   * stop and the scan goes on, anything else ends the scan.
   */
  function ScanFrom(d: seq<real>, nums: seq<int>, k: nat, tentative: int): (r: int)
    requires 1 <= k <= |d| == |nums|
    ensures r == tentative || exists j :: k <= j < |d| && (r == nums[j] || r == nums[j] + 1)
    decreases |d| - k
  {
    if k == |d| then tentative
    else if d[k] < AtStopKm then nums[k]
    else if d[k] < d[k - 1] then ScanFrom(d, nums, k + 1, nums[k] + 1)
    else tentative
  }

  /**
   * The `stop_num` the scan gives a vehicle with distances `d` to stops
   * numbered `nums`; `None` when there are no stops (the key is never set).
   */
  function Locate(d: seq<real>, nums: seq<int>): (r: Option<int>)
    requires |d| == |nums|
    ensures r.Some? <==> |d| > 0
  {
    if |d| == 0 then None
    else if d[0] < AtStopKm then Some(nums[0])
    else Some(ScanFrom(d, nums, 1, nums[0] + 1))
  }

  /** `x` is a stop's number or one past it. */
  ghost predicate AtOrJustPast(x: int, nums: seq<int>) {
    exists j :: 0 <= j < |nums| && (x == nums[j] || x == nums[j] + 1)
  }

  /**
   * The scan arrives at stop `k`: no stop before it was within the threshold
   * and the distances strictly decreased from stop 0 to stop `k - 1`.
   */
  ghost predicate Reaches(d: seq<real>, k: nat)
    requires k <= |d|
  {
    forall j :: 0 <= j < k ==> d[j] >= AtStopKm && (j >= 1 ==> d[j] < d[j - 1])
  }

  /**
   * Result range: with at least one stop every vehicle gets a stop number or
   * one past a stop number; with none it gets nothing.
   */
  lemma LocateRange(d: seq<real>, nums: seq<int>)
    requires |d| == |nums|
    ensures |d| == 0 ==> Locate(d, nums) == None
    ensures |d| > 0 ==> Locate(d, nums).Some? && AtOrJustPast(Locate(d, nums).value, nums)
  {
    if |d| > 0 && d[0] >= AtStopKm {
      var r := ScanFrom(d, nums, 1, nums[0] + 1);
      if r != nums[0] + 1 {
        var j :| 1 <= j < |d| && (r == nums[j] || r == nums[j] + 1);
      }
    }
  }

  /** Having reached stop `m`, the scan continues exactly as if it had started there. */
  lemma {:induction false} ScanSkipsReached(d: seq<real>, nums: seq<int>, k: nat, m: nat)
    requires 1 <= k <= m <= |d| == |nums|
    requires Reaches(d, m)
    ensures ScanFrom(d, nums, k, nums[k - 1] + 1) == ScanFrom(d, nums, m, nums[m - 1] + 1)
    decreases m - k
  {
    if k < m {
      ScanSkipsReached(d, nums, k + 1, m);
    }
  }

  /** The scan's value once it has reached stop `k`. */
  lemma ReachedValue(d: seq<real>, nums: seq<int>, k: nat)
    requires 1 <= k <= |d| == |nums|
    requires Reaches(d, k)
    ensures Locate(d, nums) == Some(ScanFrom(d, nums, k, nums[k - 1] + 1))
  {
    ScanSkipsReached(d, nums, 1, k);
  }

  /**
   * Proximity beats trend: a stop within the threshold wins whenever the
   * scan reaches it, whether or not its distance is smaller than the
   * previous stop's (for stop 0, whenever it is within the threshold).
   */
  lemma ProximityBeatsTrend(d: seq<real>, nums: seq<int>, k: nat)
    requires |d| == |nums| && k < |d|
    requires Reaches(d, k) && d[k] < AtStopKm
    ensures Locate(d, nums) == Some(nums[k])
  {
    if k >= 1 {
      ReachedValue(d, nums, k);
    }
  }

  /**
   * Scan termination: at the first stop `k >= 1` that is not within the
   * threshold and not closer than stop `k - 1`, the result is one past
   * stop `k - 1`'s number.
   */
  lemma StopsAtFirstNonDecrease(d: seq<real>, nums: seq<int>, k: nat)
    requires |d| == |nums| && 1 <= k < |d|
    requires Reaches(d, k) && d[k] >= AtStopKm && d[k] >= d[k - 1]
    ensures Locate(d, nums) == Some(nums[k - 1] + 1)
  {
    ReachedValue(d, nums, k);
  }

  /**
   * Distances strictly decreasing to the last stop with no threshold hit
   * give one past the last stop's number (for a single stop: one past the
   * first stop's number).
   */
  lemma DecreasingToEnd(d: seq<real>, nums: seq<int>)
    requires |d| == |nums| && |d| > 0
    requires Reaches(d, |d|)
    ensures Locate(d, nums) == Some(nums[|d| - 1] + 1)
  {
    ReachedValue(d, nums, |d|);
  }

  /**
   * The three rules above decide every non-empty case: the scan either
   * reaches the end, or reaches a stop within the threshold, or reaches a
   * stop `k >= 1` whose distance does not decrease.
   */
  lemma {:induction false} ScanEndsSomewhere(d: seq<real>, k: nat)
    requires k <= |d|
    requires Reaches(d, k)
    ensures Reaches(d, |d|) ||
      exists i :: k <= i < |d| && Reaches(d, i) &&
        (d[i] < AtStopKm || (i >= 1 && d[i] >= d[i - 1]))
    decreases |d| - k
  {
    if k < |d| {
      if d[k] < AtStopKm || (k >= 1 && d[k] >= d[k - 1]) {
      } else {
        assert Reaches(d, k + 1);
        ScanEndsSomewhere(d, k + 1);
      }
    }
  }

  /**
   * A vehicle exactly at a stop is not always put on that stop: distances
   * 5, 6, 0 to stops 0, 10, 20 end the scan at the second stop, giving 1.
   */
  lemma AtStopButNotReached()
    ensures Locate([5.0, 6.0, 0.0], [0, 10, 20]) == Some(1)
  {
  }

  /**
   * A vehicle between the stops numbered 10 and 20, closer to 20, with
   * the distance rising again at stop 30, is given 21.
   */
  lemma BetweenStopsExample()
    ensures Locate([3.0, 1.0, 0.5, 1.5], [0, 10, 20, 30]) == Some(21)
  {
  }

  /** The first loop of `map_to_stop_number`: the vehicle's distance to each stop, in stop order. */
  method DistanceList(sList: seq<StopEntry>, vehicle: Vehicle, dist: Distance)
    returns (distanceList: seq<real>)
    ensures distanceList == DistanceRow(sList, vehicle, dist)
  {
    distanceList := [];
    for i := 0 to |sList|
      invariant distanceList == DistanceRow(sList[..i], vehicle, dist)
    {
      var stop := sList[i];
      var distance := dist(stop.latitude, stop.longitude, vehicle.latitude, vehicle.longitude);
      distanceList := distanceList + [distance];
    }
    assert sList[..|sList|] == sList;
  }

  /**
   * The second loop of `map_to_stop_number` for one vehicle: the early-exit
   * scan over the distances and the stops, as the source writes it.
   */
  method ScanStops(distanceList: seq<real>, sList: seq<StopEntry>) returns (stopNum: Option<int>)
    requires |distanceList| == |sList| && Numbered(sList)
    ensures stopNum == Locate(distanceList, NumbersOf(sList))
  {
    ghost var nums := NumbersOf(sList);
    stopNum := None;
    var idx := 0;
    while idx < |sList|
      invariant 0 <= idx <= |sList|
      invariant idx == 0 ==> stopNum == None
      invariant idx >= 1 ==> stopNum == Some(nums[idx - 1] + 1)
      invariant idx >= 1 ==> Locate(distanceList, nums) == Some(ScanFrom(distanceList, nums, idx, nums[idx - 1] + 1))
    {
      var distance := distanceList[idx];
      var stop := sList[idx];
      if idx == 0 {
        if distance < AtStopKm {
          stopNum := Some(stop.number.value);
          break;
        } else {
          stopNum := Some(stop.number.value + 1);
        }
      }
      if idx >= 1 {
        if distance < AtStopKm {
          stopNum := Some(stop.number.value);
          break;
        } else if distance < distanceList[idx - 1] {
          stopNum := Some(stop.number.value + 1);
        } else {
          break;
        }
      }
      idx := idx + 1;
    }
  }

  /** A vehicle after the scan: `stop_num` is written when the scan gives a value and kept otherwise. */
  function WithStopNum(v: Vehicle, located: Option<int>): Vehicle {
    if located.Some? then v.(stopNum := located) else v
  }

  /** The train list after `map_to_stop_number` with stops `sList`. */
  function Located(trains: seq<Vehicle>, sList: seq<StopEntry>, dist: Distance): (r: seq<Vehicle>)
    requires Numbered(sList)
    ensures |r| == |trains|
  {
    seq(|trains|, i requires 0 <= i < |trains| =>
      WithStopNum(trains[i], Locate(DistanceRow(sList, trains[i], dist), NumbersOf(sList))))
  }

  /**
   * Order preserved: the mapping keeps the vehicle list's order and length
   * and only adds `stop_num`; with at least one stop every vehicle gets a
   * stop number or one past it, with none nothing changes.
   */
  lemma LocatedKeepsTrains(trains: seq<Vehicle>, sList: seq<StopEntry>, dist: Distance, i: int)
    requires Numbered(sList) && 0 <= i < |trains|
    ensures var r := Located(trains, sList, dist);
      r[i] == trains[i].(stopNum := r[i].stopNum) &&
      (sList == [] ==> r[i] == trains[i]) &&
      (sList != [] ==> r[i].stopNum.Some? && AtOrJustPast(r[i].stopNum.value, NumbersOf(sList)))
  {
    LocateRange(DistanceRow(sList, trains[i], dist), NumbersOf(sList));
  }

  /** The object holding a batch of trains; `trains` is updated in place. */
  class Train {
    const apiFilter: Option<string>
    var trains: seq<Vehicle>

    constructor (apiFilter: Option<string>)
      ensures this.apiFilter == apiFilter && trains == []
    {
      this.apiFilter := apiFilter;
      trains := [];
    }

    /**
     * `get_vehicles` after the response has been decoded: one train
     * dictionary per entry, with its direction converted, is appended.
     */
    method GetVehicles(data: seq<VehicleAttributes>) returns (r: seq<Vehicle>)
      modifies this
      ensures trains == old(trains) + TrainDicts(data)
      ensures r == trains
    {
      for i := 0 to |data|
        invariant trains == old(trains) + TrainDicts(data)[..i]
      {
        var vehicle := data[i];
        var direction: Option<Direction>;
        if vehicle.directionId == Some(1) {
          direction := Some(North);
        } else if vehicle.directionId == Some(0) {
          direction := Some(South);
        } else {
          direction := None;
        }
        var trainDict := Vehicle(vehicle.currentStopSequence, vehicle.bearing,
                                 vehicle.latitude, vehicle.longitude, vehicle.vehicleLabel,
                                 vehicle.currentStatus, direction, None);
        trains := trains + [trainDict];
      }
      assert TrainDicts(data)[..|data|] == TrainDicts(data);
      r := trains;
    }

    /**
     * `map_to_stop_number`: an empty batch is first fetched (`fetched` is the
     * decoded response); then each train gets the scan's stop number, in place.
     */
    method MapToStopNumber(sList: seq<StopEntry>, fetched: seq<VehicleAttributes>, dist: Distance)
      returns (r: seq<Vehicle>)
      requires Numbered(sList)
      modifies this
      ensures trains == Located(if old(trains) == [] then TrainDicts(fetched) else old(trains), sList, dist)
      ensures r == trains
    {
      if trains == [] {
        var _ := GetVehicles(fetched);
        assert trains == TrainDicts(fetched);
      }
      ghost var before := trains;
      for i := 0 to |trains|
        invariant |trains| == |before|
        invariant forall j :: 0 <= j < i ==> trains[j] == Located(before, sList, dist)[j]
        invariant forall j :: i <= j < |trains| ==> trains[j] == before[j]
      {
        var vehicle := trains[i];
        var distanceList := DistanceList(sList, vehicle, dist);
        var stopNum := ScanStops(distanceList, sList);
        if stopNum.Some? {
          trains := trains[i := vehicle.(stopNum := stopNum)];
        }
      }
      assert trains == Located(before, sList, dist);
      r := trains;
    }
  }
}

# mbtamap position mapping, modelled in Dafny

mbtamap polls the MBTA v3 API for the stops and vehicles of one route (the
Orange line) and lights one LED of a 40-pixel strip per train. This project
models the logic between the two API responses and the strip:

- **Stop layout** (`StopLayout`, class `Stop`): each stop, in the order the
  API lists them, gets the number `k * spacing`, where the spacing is
  Python's `round(num_lights / len(stop_list))` — the nearest integer to the
  exact quotient, ties to even. Nothing clamps the numbers to the strip. An
  empty stop list raises ZeroDivisionError.
- **Vehicle locator** (`VehicleLocator`, class `Train`): for each train, the
  list of its distances to the stops is scanned forward. A stop closer than
  0.2 km wins at once; otherwise the result moves to one past each stop that
  is strictly closer than the stop before it, and the scan ends at the first
  stop that is not. The scan is a loop with `break`s (`ScanStops`), proved
  equal to a recursive definition (`Locate`), about which the scan rules are
  proved as lemmas.
- **URL building** (`ApiRequest`): endpoint and optional filter appended to
  the base URL, with a round-trip lemma recovering the filter.
- **Display** (`Display`): `get_data`'s light list (one stop number per
  train, in train order), the in-memory strip `LightMock` over an array of
  strings, and the render loop that turns pixel `i < 40` on exactly when `i`
  is in the light list.

Python dictionaries become datatypes (`StopEntry`, `Vehicle`) whose
optional keys (`number`, `stop_num`) are `Option` fields. The lists the
source's objects mutate (`stop_list`, `trains`) are `seq` fields of the
classes `Stop` and `Train`; the pixel list of `LightMock` is an `array`.
The great-circle distance is a function-valued parameter `dist`, and the
decoded API responses are parameters.

Three behaviours of the code are easy to miss: the spacing is rounded half
to even, not floored (40 lights over 11 stops give spacing 4, not 3); stop
numbers and vehicle positions are not confined to `[0, 40)` (a vehicle past
the last stop gets its number plus one); and a vehicle exactly at a stop is
placed there only if the scan reaches that stop (`AtStopButNotReached`).

## Model

| member | source | states |
|---|---|---|
| `ApiRequest.BuildApiUrl` | main.py:59-64 | the URL starts with base URL + endpoint, and is longer, continuing with `?`, exactly when the filter is truthy (not `None`, not empty) |
| `ApiRequest.QueryRoundTrip` | main.py:59-64 | when base URL and endpoint hold no `?`, the query string of the built URL is the filter if it is truthy and absent otherwise |
| `ApiRequest.QueryOf` | main.py:61 | a query string exists exactly when the URL contains `?`, and is a proper suffix of the URL |
| `ApiRequest.OrangeVehiclesUrl` | main.py:47 | the vehicle request of the polling program is `https://api-v3.mbta.com/vehicles?filter%5Broute%5D=Orange` |
| `ApiRequest.OrangeStopsQuery` | main.py:59-64 | the stop request of the polling program carries the Orange-line filter as its query string |
| `StopLayout.StopSpacing` | main.py:175 | the spacing is the integer nearest to `num_lights / n`, and on a tie it is even (Python `round`) |
| `StopLayout.StopSpacingUnique` | main.py:175 | nearest-integer and ties-to-even together determine the spacing: any integer with both properties equals it |
| `StopLayout.SpacingNonNegative` | main.py:175 | a non-negative number of lights never gives a negative spacing |
| `StopLayout.SpacingTiesToEven` | main.py:175 | 10 / 4 rounds to 2 and 14 / 4 rounds to 4 |
| `StopLayout.Layout` | main.py:172-182 | the layout fails with ZeroDivisionError exactly when the stop list is empty |
| `StopLayout.LayoutNumbers` | main.py:177-180 | the layout keeps length and order, numbers every stop, gives stop `k` the number `k * spacing` and changes no other key |
| `StopLayout.LayoutSteps` | main.py:177-181 | the first stop is numbered 0 and consecutive numbers differ by exactly the spacing |
| `StopLayout.LayoutIncreasingIff` | main.py:175-181 | with two or more stops, the numbers strictly increase if and only if the spacing is positive |
| `StopLayout.LayoutIdempotent` | main.py:175-181 | laying out an already laid-out list again gives the same list |
| `StopLayout.LayoutInRangeIff` | main.py:175-181 | for a positive number of lights, every number lies in `[0, num_lights)` if and only if the last one, `(n - 1) * spacing`, is below `num_lights` |
| `StopLayout.LayoutNotClamped` | main.py:175-181 | 6 lights over 4 stops put the last stop at 6, and 40 lights over 11 stops put it at 40: nothing clamps to the strip |
| `StopLayout.LayoutFourOverForty` | main.py:175-181 | four stops over 40 lights are numbered 0, 10, 20, 30 |
| `StopLayout.FromAttributes` | main.py:158-163 | one stop dictionary per decoded entry, with its name, coordinates and id, and no number |
| `StopLayout.Stop.constructor` | main.py:149-153 | a new stop object has the given filter and an empty stop list |
| `StopLayout.Stop.GetStops` | main.py:158-164 | one unnumbered stop dictionary per decoded entry is appended to the stop list, in order, and the list is returned |
| `StopLayout.Stop.AssignLocations` | main.py:166-182 | an empty list is fetched first; the result is the layout of the list (ZeroDivisionError if still empty), and on success the stop list is updated in place to it |
| `VehicleLocator.DirectionOf` | main.py:83-88 | `direction_id` 1 gives North, 0 gives South, and any other value gives no direction |
| `VehicleLocator.DirectionRoundTrip` | main.py:83-88 | the direction id of North or South maps back to that direction, and the two ids differ |
| `VehicleLocator.Locate` | main.py:121-143 | the scan gives a stop number exactly when there is at least one stop |
| `VehicleLocator.ScanFrom` | main.py:132-143 | the scan continued from stop `k >= 1` ends on its tentative value or on the number of some stop `j >= k`, or one past it |
| `VehicleLocator.LocateRange` | main.py:121-143 | with no stops `stop_num` is never set; otherwise it is some stop's number or that number plus one |
| `VehicleLocator.ScanSkipsReached` | main.py:132-141 | once the scan has reached stop `m`, its result is the scan continued from `m` with one past stop `m - 1` as the tentative value |
| `VehicleLocator.ReachedValue` | main.py:124-141 | a scan that reaches stop `k` ends as the scan continued from `k` with tentative value `number[k-1] + 1` |
| `VehicleLocator.ProximityBeatsTrend` | main.py:124-136 | a stop within 0.2 km that the scan reaches wins, whether or not it is closer than the previous stop; for stop 0 that is `number[0]` |
| `VehicleLocator.StopsAtFirstNonDecrease` | main.py:137-143 | at the first stop `k >= 1` that is neither within 0.2 km nor strictly closer than stop `k-1`, the result is `number[k-1] + 1` |
| `VehicleLocator.DecreasingToEnd` | main.py:121-141 | distances strictly decreasing to the end with no stop within 0.2 km give `number[n-1] + 1` (a single far stop gives `number[0] + 1`) |
| `VehicleLocator.ScanEndsSomewhere` | main.py:121-143 | every scan either reaches the end or reaches a stop within the threshold or a stop whose distance does not decrease, so the three rules above cover all inputs |
| `VehicleLocator.AtStopButNotReached` | main.py:132-143 | distances 5, 6, 0 to stops 0, 10, 20 give 1: a vehicle at a stop the scan does not reach is not placed there |
| `VehicleLocator.BetweenStopsExample` | main.py:132-143 | distances 3, 1, 0.5, 1.5 to stops 0, 10, 20, 30 give 21 |
| `VehicleLocator.DistanceList` | main.py:112-119 | the distance list holds the vehicle's distance to each stop, in stop order |
| `VehicleLocator.ScanStops` | main.py:121-143 | the loop with its `break`s computes exactly the scan's result `Locate` |
| `VehicleLocator.Located` | main.py:111-145 | mapping keeps the number of trains |
| `VehicleLocator.LocatedKeepsTrains` | main.py:111-145 | each train keeps its position and every key but `stop_num`; with no stops it is unchanged, otherwise `stop_num` is a stop's number or one past it |
| `VehicleLocator.TrainDict` | main.py:90-97 | the train dictionary takes stop sequence, bearing, coordinates, label and status from the entry, converts the direction and has no `stop_num` |
| `VehicleLocator.TrainDicts` | main.py:79-98 | one train dictionary per decoded entry, in order, none with a `stop_num` |
| `VehicleLocator.Train.constructor` | main.py:68-72 | a new train object has the given filter and no trains |
| `VehicleLocator.Train.GetVehicles` | main.py:79-100 | one train dictionary per decoded entry, with its direction converted, is appended to the train list, in order |
| `VehicleLocator.Train.MapToStopNumber` | main.py:102-145 | an empty train list is fetched first; then each train's `stop_num` is set to the scan's result in place, trains in the same order |
| `Display.JoinSingleChars` | main.py:221-223 | joining one-character pixels gives one character per pixel, in order |
| `Display.LightMock.constructor` | main.py:211-213 | a new strip has `num_lights` pixels, all empty strings |
| `Display.LightMock.SetItem` | main.py:215-216 | a key in `[-n, n)` sets that pixel (negative keys count from the end) and nothing else; any other key is an IndexError that changes nothing |
| `Display.LightMock.ShowOneCharPerPixel` | main.py:221-223 | when every pixel is one character, `show` returns one character per pixel, in pixel order |
| `Display.LightMock.GetItem` | main.py:218-219 | a key in `[-n, n)` reads that pixel, negative keys from the end; any other key is an IndexError |
| `Display.FrameLightsListed` | main.py:285-289 | the pixels a frame turns on are exactly the light-list entries in `[0, width)`; entries of 40 or more are never shown |
| `Display.ShownFrame` | main.py:268-291 | the text strip shows one `O` or `-` per pixel of the 40, `O` exactly where the position is in the light list |
| `Display.Render` | main.py:285-291 | the loop sets each of the first 40 pixels to on if its index is in the list and off otherwise, leaving the rest of the strip unchanged; on a 40-pixel strip `show` then returns the joined frame |
| `Display.LightsAtOrJustPastStops` | main.py:257-263 | every light of a poll is some stop's number `k * spacing` or one past it |
| `Display.GetData` | main.py:245-263 | an empty stop response raises ZeroDivisionError; otherwise the light list is the scan result of each train, in train order |

## Left out

- `point_distance` (haversine in floating point, with `abs()` on the coordinates): not modelled; the distance is the parameter `dist`, so no property depends on its formula.
- HTTP and JSON (`call_api`, the request headers and API key, decoding the `data` entries): the decoded entries are parameters of `GetStops`, `GetVehicles`, `AssignLocations`, `MapToStopNumber` and `GetData`.
- The `Lights` NeoPixel driver, its ASCII logging and the `board`/`neopixel` import fallback: hardware I/O.
- Logging, the infinite polling loop and `time.sleep`: I/O and timing; one pass of the loop body is `GetData` followed by `Render`.
- StopLayout.StopSpacing: the source divides in floating point before rounding; the model uses the exact quotient, which differs only for values too large for a double to hold exactly.
- VehicleLocator.Train.MapToStopNumber: requires every stop to carry a number; the source would raise KeyError at the first unnumbered stop the scan reads, which its only caller never lets happen.
- VehicleLocator.DirectionOf: `direction_id` is an optional integer; JSON booleans (which Python would compare equal to 0 and 1) are not modelled.
- Display.Render: requires a strip of at least 40 pixels, as the polling program always creates; a shorter strip would raise IndexError.
- Aliasing: the stop and train dictionaries are values, so the model does not capture that `assign_locations` and `map_to_stop_number` return the very list they mutate, or that a caller holding a dictionary sees its update.
- `LightMock.show` logging: `Show` returns the joined text; the log line is not modelled.

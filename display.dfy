/**
 * The display side of main.py: the in-memory pixel strip `LightMock`,
 * `get_data`'s light list and the render loop of the polling program.
 */
module Display {
  import opened Wrappers
  import opened StopLayout
  import opened VehicleLocator

  /** Number of pixels the polling program drives. */
  const NumLights: nat := 40
  /** Pixel values of the text strip. */
  const LightOn: string := "O"
  const LightOff: string := "-"

  /** The position a Python list index `key` refers to in a list of length `n`. */
  function PyIndex(key: int, n: nat): int {
    if key < 0 then n + key else key
  }

  /** `''.join(pixels)`: the pixel strings concatenated in order. */
  function Join(pixels: seq<string>): string {
    if pixels == [] then "" else pixels[0] + Join(pixels[1..])
  }

  /** When every pixel is one character, the joined text has one character per pixel, in order. */
  lemma {:induction false} JoinSingleChars(pixels: seq<string>)
    requires forall i :: 0 <= i < |pixels| ==> |pixels[i]| == 1
    ensures |Join(pixels)| == |pixels|
    ensures forall i :: 0 <= i < |pixels| ==> Join(pixels)[i] == pixels[i][0]
  {
    if pixels != [] {
      JoinSingleChars(pixels[1..]);
      forall i | 0 <= i < |pixels| ensures Join(pixels)[i] == pixels[i][0] {
        if i > 0 {
          assert Join(pixels)[i] == Join(pixels[1..])[i - 1];
        }
      }
    }
  }

  /** The in-memory pixel strip; `pixel` is written in place through `SetItem`. */
  class LightMock {
    const numPixels: nat
    var pixel: array<string>

    ghost predicate Valid()
      reads this
    {
      pixel.Length == numPixels
    }

    /** A strip of `numLights` empty pixels. */
    constructor (numLights: nat)
      ensures Valid() && numPixels == numLights && fresh(pixel)
      ensures forall i :: 0 <= i < numLights ==> pixel[i] == ""
    {
      numPixels := numLights;
      pixel := new string[numLights](_ => "");
    }

    /**
     * `__setitem__`: Python list assignment, so a negative key counts from
     * the end; a key outside `[-numPixels, numPixels)` raises IndexError
     * (`ok` is false) and changes nothing.
     */
    method SetItem(key: int, value: string) returns (ok: bool)
      requires Valid()
      modifies pixel
      ensures ok <==> -(numPixels as int) <= key < numPixels
      ensures ok ==> pixel[..] == old(pixel[..])[PyIndex(key, numPixels) := value]
      ensures !ok ==> pixel[..] == old(pixel[..])
    {
      ok := -(numPixels as int) <= key < numPixels;
      if ok {
        pixel[PyIndex(key, numPixels)] := value;
      }
    }

    /** `__getitem__`, with the same indexing; `None` stands for IndexError. */
    function GetItem(idx: int): (r: Option<string>)
      requires Valid()
      reads this, pixel
      ensures r.Some? <==> -(numPixels as int) <= idx < numPixels
      ensures idx < 0 && r.Some? ==> r.value == pixel[numPixels + idx]
      ensures 0 <= idx && r.Some? ==> r.value == pixel[idx]
    {
      if -(numPixels as int) <= idx < numPixels then Some(pixel[PyIndex(idx, numPixels)]) else None
    }

    /** `show`: the pixels joined into one line of text. */
    function Show(): string
      reads this, pixel
    {
      Join(pixel[..])
    }

    /** When every pixel is one character, `show` gives one character per pixel, in order. */
    lemma ShowOneCharPerPixel()
      requires Valid()
      requires forall i :: 0 <= i < numPixels ==> |pixel[i]| == 1
      ensures |Show()| == numPixels
      ensures forall i :: 0 <= i < numPixels ==> Show()[i] == pixel[i][0]
    {
      JoinSingleChars(pixel[..]);
    }
  }

  /** The pixel values of a frame: pixel `i` is on exactly when `i` is in the light list. */
  function Frame(lightList: seq<int>, width: nat, on: string, off: string): (f: seq<string>)
    ensures |f| == width
  {
    seq(width, i requires 0 <= i < width => if i in lightList then on else off)
  }

  /**
   * The pixels a frame lights are exactly the light-list entries inside the
   * strip: entries at or past `width`, or negative, are never shown.
   */
  lemma FrameLightsListed(lightList: seq<int>, width: nat, on: string, off: string)
    requires on != off
    ensures (set i | 0 <= i < width && Frame(lightList, width, on, off)[i] == on)
            == (set x | x in lightList && 0 <= x < width)
  {
  }

  /** A rendered text frame reads as one `O` or `-` per pixel, `O` exactly at the listed positions. */
  lemma ShownFrame(lightList: seq<int>)
    ensures var text := Join(Frame(lightList, NumLights, LightOn, LightOff));
      |text| == NumLights &&
      forall i :: 0 <= i < NumLights ==> (text[i] == 'O' <==> i in lightList) && (text[i] == 'O' || text[i] == '-')
  {
    var f := Frame(lightList, NumLights, LightOn, LightOff);
    JoinSingleChars(f);
  }

  /** One pass of the render loop: pixel `pix` of the first 40 is turned on iff it is in the list. */
  method Render(pixels: LightMock, pixelList: seq<int>, lightOn: string, lightOff: string)
    requires pixels.Valid() && pixels.numPixels >= NumLights
    modifies pixels.pixel
    ensures pixels.pixel[..NumLights] == Frame(pixelList, NumLights, lightOn, lightOff)
    ensures pixels.pixel[NumLights..] == old(pixels.pixel[NumLights..])
    ensures pixels.numPixels == NumLights ==>
      pixels.Show() == Join(Frame(pixelList, NumLights, lightOn, lightOff))
  {
    for pix := 0 to NumLights
      invariant pixels.pixel[..pix] == Frame(pixelList, NumLights, lightOn, lightOff)[..pix]
      invariant pixels.pixel[NumLights..] == old(pixels.pixel[NumLights..])
    {
      var ok;
      if pix in pixelList {
        ok := pixels.SetItem(pix, lightOn);
      } else {
        ok := pixels.SetItem(pix, lightOff);
      }
    }
    assert pixels.numPixels == NumLights ==> pixels.pixel[..] == pixels.pixel[..NumLights];
  }

  /** The stops of the route once laid out, for a non-empty decoded response. */
  function LaidOut(stopData: seq<StopAttributes>, numLights: int): (stops: seq<StopEntry>)
    requires stopData != []
    ensures |stops| == |stopData| && Numbered(stops)
  {
    Spaced(FromAttributes(stopData), StopSpacing(numLights, |stopData|))
  }

  /** The light list of one poll: the stop number of each vehicle, in vehicle order. */
  function LightList(stopData: seq<StopAttributes>, vehicleData: seq<VehicleAttributes>,
                  numLights: int, dist: Distance): seq<int>
    requires stopData != []
  {
    var stops := LaidOut(stopData, numLights);
    seq(|vehicleData|, i requires 0 <= i < |vehicleData| =>
      ScanValue(DistanceRow(stops, TrainDict(vehicleData[i]), dist), NumbersOf(stops)))
  }

  /** The value of a scan over at least one stop. */
  function ScanValue(d: seq<real>, nums: seq<int>): int
    requires |d| == |nums| > 0
  {
    Locate(d, nums).value
  }

  /**
   * Every light of a poll is a stop's number `k * spacing` or one past it;
   * positions are not clamped to the strip.
   */
  lemma LightsAtOrJustPastStops(stopData: seq<StopAttributes>, vehicleData: seq<VehicleAttributes>,
                                numLights: int, dist: Distance, i: int)
    requires stopData != [] && 0 <= i < |vehicleData|
    ensures var sp := StopSpacing(numLights, |stopData|);
      exists k :: 0 <= k < |stopData| &&
        (LightList(stopData, vehicleData, numLights, dist)[i] == k * sp ||
         LightList(stopData, vehicleData, numLights, dist)[i] == k * sp + 1)
  {
    var stops := LaidOut(stopData, numLights);
    var d := DistanceRow(stops, TrainDict(vehicleData[i]), dist);
    LocateRange(d, NumbersOf(stops));
    var j :| 0 <= j < |stops| && (Locate(d, NumbersOf(stops)).value == NumbersOf(stops)[j]
                                  || Locate(d, NumbersOf(stops)).value == NumbersOf(stops)[j] + 1);
    assert NumbersOf(stops)[j] == j * StopSpacing(numLights, |stopData|);
  }

  /**
   * `get_data`: lays out the route's stops, locates the vehicles and
   * collects each vehicle's stop number in vehicle order. The decoded
   * responses of the two requests are parameters; no stops raise
   * ZeroDivisionError.
   */
  method GetData(apiFilter: Option<string>, numLights: int, stopData: seq<StopAttributes>,
                 vehicleData: seq<VehicleAttributes>, dist: Distance)
    returns (r: Result<seq<int>, Error>)
    ensures stopData == [] <==> r == Failure(ZeroDivisionError)
    ensures stopData != [] ==> r == Success(LightList(stopData, vehicleData, numLights, dist))
  {
    var stops := new Stop(apiFilter);
    var trains := new Train(apiFilter);
    var layout := stops.AssignLocations(numLights, stopData);
    if layout.Failure? {
      return Failure(layout.error);
    }
    var stopList := layout.value;
    var trainList := trains.MapToStopNumber(stopList, vehicleData, dist);
    ghost var expected := LightList(stopData, vehicleData, numLights, dist);
    assert stopList == LaidOut(stopData, numLights);
    assert trainList == Located(TrainDicts(vehicleData), stopList, dist);
    var lightList := [];
    for i := 0 to |trainList|
      invariant |trainList| == |vehicleData|
      invariant lightList == expected[..i]
    {
      ghost var d := DistanceRow(stopList, TrainDict(vehicleData[i]), dist);
      LocateRange(d, NumbersOf(stopList));
      assert trainList[i].stopNum == Locate(d, NumbersOf(stopList));
      assert expected[i] == Locate(d, NumbersOf(stopList)).value;
      var stopNum := trainList[i].stopNum.value;
      lightList := lightList + [stopNum];
    }
    assert expected[..|trainList|] == expected;
    r := Success(lightList);
  }
}

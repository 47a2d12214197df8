/**
 * The Gadgetbridge broadcast of the app: the "WeatherGz" byte layout of
 * the current conditions and of the daily forecast (big-endian integers
 * pushed into a growing buffer), the conversion to signed Java bytes, and
 * the enabled flag that gates the broadcast.
 */
module Gadgetbridge {
  import opened Base
  import opened Strings

  const TwoTo32: int := 0x1_0000_0000
  const TwoTo64: int := 0x1_0000_0000_0000_0000

  /** The fields of the current conditions the buffer reads; None is undefined. */
  datatype Currently = Currently(
    time: int,
    temperature: Option<real>,
    iconId: Option<int>,
    relativeHumidity: Option<real>,
    windSpeed: Option<real>,
    windBearing: Option<real>)

  /** The fields of one forecast day the buffer reads. */
  datatype DailyData = DailyData(
    time: int,
    temperatureMin: Option<real>,
    temperatureMax: Option<real>,
    temperature: Option<real>,
    iconId: Option<int>)

  // ---------------------------------------------------------------------
  // Byte layout
  // ---------------------------------------------------------------------

  /** writeInt: the four bytes of value >>> 0, most significant first. */
  function IntBytes(value: int): (r: seq<int>)
    ensures |r| == 4 && forall i :: 0 <= i < 4 ==> 0 <= r[i] < 256
  {
    var u := value % TwoTo32;
    [u / 0x100_0000, (u / 0x1_0000) % 256, (u / 256) % 256, u % 256]
  }

  /** writeLong: floor(ms / 1000) split into a high and a low 32-bit word, high word first. */
  function LongBytes(ms: int): (r: seq<int>)
    ensures |r| == 8 && forall i :: 0 <= i < 8 ==> 0 <= r[i] < 256
  {
    var seconds := ms / 1000;
    var high := seconds / TwoTo32;
    var low := seconds % TwoTo32;
    IntBytes(high) + IntBytes(low)
  }

  /** The unsigned big-endian value of four bytes, as a reader of the buffer computes it. */
  function ReadUint32(b: seq<int>): (r: int)
    requires |b| == 4
    ensures (forall i :: 0 <= i < 4 ==> 0 <= b[i] < 256) ==> 0 <= r < TwoTo32
  {
    b[0] * 0x100_0000 + b[1] * 0x1_0000 + b[2] * 256 + b[3]
  }

  /** The same four bytes read as a signed (two's complement) 32-bit integer. */
  function ReadInt32(b: seq<int>): (r: int)
    requires |b| == 4
    ensures 0 <= ReadUint32(b) < TwoTo32 ==>
      -TwoTo32 / 2 <= r < TwoTo32 / 2 && r % TwoTo32 == ReadUint32(b)
  {
    var u := ReadUint32(b);
    if u >= TwoTo32 / 2 then u - TwoTo32 else u
  }

  function ReadUint64(b: seq<int>): (r: int)
    requires |b| == 8
    ensures (forall i :: 0 <= i < 8 ==> 0 <= b[i] < 256) ==> 0 <= r < TwoTo64
  {
    ReadUint32(b[..4]) * TwoTo32 + ReadUint32(b[4..])
  }

  /** Reading the four bytes back gives the value modulo 2^32. */
  lemma IntBytesRoundTrip(value: int)
    ensures ReadUint32(IntBytes(value)) == value % TwoTo32
  {
    var u := value % TwoTo32;
    var b := IntBytes(value);
    assert u / 256 == (u / 0x1_0000) * 256 + (u / 256) % 256;
    assert u / 0x1_0000 == (u / 0x100_0000) * 256 + (u / 0x1_0000) % 256;
    assert b[0] * 0x100_0000 + b[1] * 0x1_0000 == (u / 0x1_0000) * 0x1_0000;
    assert b[0] * 0x100_0000 + b[1] * 0x1_0000 + b[2] * 256 == (u / 256) * 256;
  }

  /** A value that fits a signed 32-bit integer reads back exactly. */
  lemma IntBytesSigned(value: int)
    requires -TwoTo32 / 2 <= value < TwoTo32 / 2
    ensures ReadInt32(IntBytes(value)) == value
  {
    IntBytesRoundTrip(value);
  }

  /** If s = q * 2^64 + r with 0 <= r < 2^64, then r is s modulo 2^64. */
  lemma ModTwoTo64(s: int, q: int, r: int)
    requires 0 <= r < TwoTo64 && s == q * TwoTo64 + r
    ensures s % TwoTo64 == r
  {
  }

  /** The eight bytes read back as floor(ms / 1000) modulo 2^64. */
  lemma LongBytesRoundTrip(ms: int)
    ensures ReadUint64(LongBytes(ms)) == (ms / 1000) % TwoTo64
  {
    var seconds := ms / 1000;
    var high := seconds / TwoTo32;
    var low := seconds % TwoTo32;
    var b := LongBytes(ms);
    assert b[..4] == IntBytes(high) && b[4..] == IntBytes(low);
    IntBytesRoundTrip(high);
    IntBytesRoundTrip(low);
    assert low % TwoTo32 == low;
    var h := high % TwoTo32;
    var q := high / TwoTo32;
    assert high == q * TwoTo32 + h;
    assert seconds == high * TwoTo32 + low;
    assert seconds == q * TwoTo64 + (h * TwoTo32 + low);
    ModTwoTo64(seconds, q, h * TwoTo32 + low);
  }

  /** x || 0 on an optional number: undefined and 0 both give 0. */
  function OrZero(x: Option<real>): (r: real)
    ensures x.None? ==> r == 0.0
  {
    if x.Some? then x.value else 0.0
  }

  /** a || b on optional numbers: a unless it is undefined or 0. */
  function OrElse(a: Option<real>, b: Option<real>): (r: Option<real>)
    ensures r == a || r == b
    ensures a.Some? && a.value != 0.0 ==> r == a
  {
    if a.Some? && a.value != 0.0 then a else b
  }

  function IconOrZero(iconId: Option<int>): (r: int)
  {
    if iconId.Some? then iconId.value else 0
  }

  /** createCurrentWeatherGz: version, time, temperature, condition, humidity, wind speed, wind direction. */
  function CurrentWeatherBytes(c: Currently): (r: seq<int>)
    ensures |r| == 29 && forall i :: 0 <= i < 29 ==> 0 <= r[i] < 256
  {
    [0x01] + LongBytes(c.time)
    + IntBytes(Round(OrZero(c.temperature) * 100.0))
    + IntBytes(IconOrZero(c.iconId))
    + IntBytes(Round(OrZero(c.relativeHumidity)))
    + IntBytes(Round(OrZero(c.windSpeed) * 100.0))
    + IntBytes(Round(OrZero(c.windBearing)))
  }

  /** The 20 bytes of one forecast day. */
  function ForecastEntryBytes(d: DailyData): (r: seq<int>)
    ensures |r| == 20
  {
    LongBytes(d.time)
    + IntBytes(Round(OrZero(OrElse(d.temperatureMin, d.temperature)) * 100.0))
    + IntBytes(Round(OrZero(OrElse(d.temperatureMax, d.temperature)) * 100.0))
    + IntBytes(IconOrZero(d.iconId))
  }

  function ForecastEntries(days: seq<DailyData>): (r: seq<int>)
    ensures |r| == 20 * |days|
  {
    if days == [] then []
    else ForecastEntries(days[..|days| - 1]) + ForecastEntryBytes(days[|days| - 1])
  }

  lemma Associative(a: seq<int>, b: seq<int>, c: seq<int>)
    ensures (a + b) + c == a + (b + c)
  {
  }

  lemma ForecastEntriesSnoc(days: seq<DailyData>, i: nat)
    requires i < |days|
    ensures ForecastEntries(days[..i + 1]) == ForecastEntries(days[..i]) + ForecastEntryBytes(days[i])
  {
    assert days[..i + 1][..i] == days[..i];
  }

  /** createForecastWeatherGz: version, the entry count, then the first min(len, 7) days. */
  function ForecastWeatherBytes(daily: seq<DailyData>): (r: seq<int>)
    ensures |r| == 5 + 20 * Min(|daily|, 7)
  {
    var count := Min(|daily|, 7);
    [0x01] + IntBytes(count) + ForecastEntries(daily[..count])
  }

  // ---------------------------------------------------------------------
  // What the layout promises
  // ---------------------------------------------------------------------

  /** The current-weather buffer is 29 bytes: version 1, then each field at its fixed offset. */
  lemma CurrentWeatherLayout(c: Currently)
    ensures var b := CurrentWeatherBytes(c);
      |b| == 29 && b[0] == 0x01 &&
      ReadUint64(b[1..9]) == (c.time / 1000) % TwoTo64 &&
      ReadUint32(b[9..13]) == Round(OrZero(c.temperature) * 100.0) % TwoTo32 &&
      ReadUint32(b[13..17]) == IconOrZero(c.iconId) % TwoTo32 &&
      ReadUint32(b[17..21]) == Round(OrZero(c.relativeHumidity)) % TwoTo32 &&
      ReadUint32(b[21..25]) == Round(OrZero(c.windSpeed) * 100.0) % TwoTo32 &&
      ReadUint32(b[25..29]) == Round(OrZero(c.windBearing)) % TwoTo32
  {
    var b := CurrentWeatherBytes(c);
    assert b[1..9] == LongBytes(c.time);
    assert b[9..13] == IntBytes(Round(OrZero(c.temperature) * 100.0));
    assert b[13..17] == IntBytes(IconOrZero(c.iconId));
    assert b[17..21] == IntBytes(Round(OrZero(c.relativeHumidity)));
    assert b[21..25] == IntBytes(Round(OrZero(c.windSpeed) * 100.0));
    assert b[25..29] == IntBytes(Round(OrZero(c.windBearing)));
    LongBytesRoundTrip(c.time);
    IntBytesRoundTrip(Round(OrZero(c.temperature) * 100.0));
    IntBytesRoundTrip(IconOrZero(c.iconId));
    IntBytesRoundTrip(Round(OrZero(c.relativeHumidity)));
    IntBytesRoundTrip(Round(OrZero(c.windSpeed) * 100.0));
    IntBytesRoundTrip(Round(OrZero(c.windBearing)));
  }

  /** A temperature whose hundredths fit 32 bits reads back as round(t * 100). */
  lemma CurrentTemperatureReadsBack(c: Currently)
    requires -TwoTo32 / 2 <= Round(OrZero(c.temperature) * 100.0) < TwoTo32 / 2
    ensures ReadInt32(CurrentWeatherBytes(c)[9..13]) == Round(OrZero(c.temperature) * 100.0)
  {
    var b := CurrentWeatherBytes(c);
    assert b[9..13] == IntBytes(Round(OrZero(c.temperature) * 100.0));
    IntBytesSigned(Round(OrZero(c.temperature) * 100.0));
  }

  /** Entry k of a forecast sits at offset 20 * k. */
  lemma {:induction false} ForecastEntryAt(days: seq<DailyData>, k: nat)
    requires k < |days|
    ensures ForecastEntries(days)[20 * k..20 * k + 20] == ForecastEntryBytes(days[k])
  {
    var init := days[..|days| - 1];
    if k < |days| - 1 {
      ForecastEntryAt(init, k);
      assert ForecastEntries(days)[..20 * |init|] == ForecastEntries(init);
    }
  }

  /** The forecast header: version 1 and the entry count min(len, 7); the entries follow. */
  lemma ForecastHeader(daily: seq<DailyData>)
    ensures var b := ForecastWeatherBytes(daily);
      var count := Min(|daily|, 7);
      |b| == 5 + 20 * count && b[0] == 0x01 && ReadUint32(b[1..5]) == count &&
      b[5..] == ForecastEntries(daily[..count])
  {
    var count := Min(|daily|, 7);
    var b := ForecastWeatherBytes(daily);
    var header := IntBytes(count);
    var entries := ForecastEntries(daily[..count]);
    assert b == [0x01] + header + entries;
    assert b[1..5] == header && b[5..] == entries;
    SmallCountReadsBack(count);
  }

  lemma SmallCountReadsBack(count: int)
    requires 0 <= count <= 7
    ensures ReadUint32(IntBytes(count)) == count
  {
    IntBytesRoundTrip(count);
  }

  /** Entry k of the forecast buffer, at offset 5 + 20 * k, is day k. */
  lemma ForecastLayout(daily: seq<DailyData>, k: nat)
    requires k < Min(|daily|, 7)
    ensures ForecastWeatherBytes(daily)[5 + 20 * k..25 + 20 * k] == ForecastEntryBytes(daily[k])
  {
    var count := Min(|daily|, 7);
    var b := ForecastWeatherBytes(daily);
    ForecastHeader(daily);
    ForecastEntryAt(daily[..count], k);
    assert b[5 + 20 * k..25 + 20 * k] == b[5..][20 * k..20 * k + 20];
  }

  /** A day whose minimum is undefined or exactly 0 falls back to its temperature. */
  lemma ForecastMinFallback(d: DailyData)
    ensures var e := ForecastEntryBytes(d);
      e[8..12] == IntBytes(Round(OrZero(
        if d.temperatureMin.Some? && d.temperatureMin.value != 0.0 then d.temperatureMin else d.temperature) * 100.0))
  {
  }

  // ---------------------------------------------------------------------
  // Java bytes
  // ---------------------------------------------------------------------

  /** buffer[i] & 0xFF, then into the signed byte range. */
  function JavaByte(b: int): (r: int)
    ensures -128 <= r <= 127 && r % 256 == b % 256
  {
    var x := b % 256;
    if x > 127 then x - 256 else x
  }

  function JavaBytes(buffer: seq<int>): (r: seq<int>)
    ensures |r| == |buffer| && forall i :: 0 <= i < |buffer| ==> r[i] == JavaByte(buffer[i])
  {
    seq(|buffer|, i requires 0 <= i < |buffer| => JavaByte(buffer[i]))
  }

  /** The Java byte is in -128..127 and keeps the low eight bits; bytes above 127 lose 256. */
  lemma JavaByteRange(b: int)
    ensures -128 <= JavaByte(b) <= 127 && JavaByte(b) % 256 == b % 256
    ensures 0 <= b <= 127 ==> JavaByte(b) == b
    ensures 127 < b < 256 ==> JavaByte(b) == b - 256
  {
  }

  // ---------------------------------------------------------------------
  // The service
  // ---------------------------------------------------------------------

  const EnabledKey := "gadgetbridge_enabled"

  /** The broadcast intent's extras; the two buffers as signed Java bytes. */
  datatype WeatherIntent = WeatherIntent(
    locationId: string,
    locationName: string,
    weather: seq<int>,
    forecast: seq<int>)

  /** A push-only byte list: the buffer the writers append to. */
  class ByteBuffer {
    var bytes: seq<int>

    constructor ()
      ensures bytes == []
    {
      bytes := [];
    }

    method Push(b: int)
      modifies this
      ensures bytes == old(bytes) + [b]
    {
      bytes := bytes + [b];
    }
  }

  /** The service; `settings` stands for the persisted boolean settings. */
  class GadgetbridgeService {
    var enabled: bool
    var settings: map<string, bool>

    constructor (settings: map<string, bool>)
      ensures this.settings == settings
      ensures enabled == (EnabledKey in settings && settings[EnabledKey])
    {
      this.settings := settings;
      enabled := EnabledKey in settings && settings[EnabledKey];
    }

    method SetEnabled(value: bool)
      modifies this
      ensures enabled == value && settings == old(settings)[EnabledKey := value]
    {
      enabled := value;
      settings := settings[EnabledKey := value];
    }

    method IsEnabled() returns (r: bool)
      ensures r == enabled
    {
      return enabled;
    }

    method WriteInt(buffer: ByteBuffer, value: int)
      modifies buffer
      ensures buffer.bytes == old(buffer.bytes) + IntBytes(value)
    {
      var u := value % TwoTo32;
      buffer.Push(u / 0x100_0000);
      buffer.Push((u / 0x1_0000) % 256);
      buffer.Push((u / 256) % 256);
      buffer.Push(u % 256);
    }

    method WriteLong(buffer: ByteBuffer, ms: int)
      modifies buffer
      ensures buffer.bytes == old(buffer.bytes) + LongBytes(ms)
    {
      var seconds := ms / 1000;
      var high := seconds / TwoTo32;
      var low := seconds % TwoTo32;
      WriteInt(buffer, high);
      WriteInt(buffer, low);
    }

    method CreateCurrentWeatherGz(current: Currently) returns (r: seq<int>)
      ensures r == CurrentWeatherBytes(current)
    {
      var buffer := new ByteBuffer();
      buffer.Push(0x01);
      assert buffer.bytes == [0x01];
      WriteLong(buffer, current.time);
      WriteInt(buffer, Round(OrZero(current.temperature) * 100.0));
      WriteInt(buffer, IconOrZero(current.iconId));
      WriteInt(buffer, Round(OrZero(current.relativeHumidity)));
      WriteInt(buffer, Round(OrZero(current.windSpeed) * 100.0));
      WriteInt(buffer, Round(OrZero(current.windBearing)));
      r := buffer.bytes;
    }

    method CreateForecastWeatherGz(daily: seq<DailyData>) returns (r: seq<int>)
      ensures r == ForecastWeatherBytes(daily)
    {
      var buffer := new ByteBuffer();
      buffer.Push(0x01);
      var count := Min(|daily|, 7);
      WriteInt(buffer, count);
      WriteForecastEntries(buffer, daily[..count]);
      r := buffer.bytes;
    }

    /** The loop over the first min(len, 7) days. */
    method WriteForecastEntries(buffer: ByteBuffer, days: seq<DailyData>)
      modifies buffer
      ensures buffer.bytes == old(buffer.bytes) + ForecastEntries(days)
    {
      ghost var start := buffer.bytes;
      var i := 0;
      while i < |days|
        invariant 0 <= i <= |days|
        invariant buffer.bytes == start + ForecastEntries(days[..i])
      {
        ghost var before := buffer.bytes;
        WriteForecastEntry(buffer, days[i]);
        ForecastEntriesSnoc(days, i);
        Associative(start, ForecastEntries(days[..i]), ForecastEntryBytes(days[i]));
        i := i + 1;
      }
      assert days[..i] == days;
    }

    method WriteForecastEntry(buffer: ByteBuffer, forecast: DailyData)
      modifies buffer
      ensures buffer.bytes == old(buffer.bytes) + ForecastEntryBytes(forecast)
    {
      WriteLong(buffer, forecast.time);
      WriteInt(buffer, Round(OrZero(OrElse(forecast.temperatureMin, forecast.temperature)) * 100.0));
      WriteInt(buffer, Round(OrZero(OrElse(forecast.temperatureMax, forecast.temperature)) * 100.0));
      WriteInt(buffer, IconOrZero(forecast.iconId));
    }

    /** toJavaByteArray on Android (a new signed byte array); null elsewhere. */
    method ToJavaByteArray(buffer: seq<int>, android: bool) returns (r: array?<int>)
      ensures !android <==> r == null
      ensures r != null ==> fresh(r) && r[..] == JavaBytes(buffer)
    {
      if !android {
        return null;
      }
      var a := new int[|buffer|];
      var i := 0;
      while i < |buffer|
        invariant 0 <= i <= |buffer|
        invariant forall j :: 0 <= j < i ==> a[j] == JavaByte(buffer[j])
      {
        a[i] := JavaByte(buffer[i]);
        i := i + 1;
      }
      assert a[..] == JavaBytes(buffer);
      return a;
    }

    /**
     * broadcastWeather: nothing when disabled or not on Android; otherwise
     * the intent with the location id "lat,lon", the name (or the id when
     * the name is empty) and both buffers.
     */
    method BroadcastWeather(lat: real, lon: real, name: string, current: Currently,
                            daily: seq<DailyData>, android: bool) returns (sent: Option<WeatherIntent>)
      ensures sent.None? <==> !enabled || !android
      ensures sent.Some? ==>
        sent.value.locationId == NumberToString(lat) + "," + NumberToString(lon) &&
        sent.value.locationName == (if name != [] then name else sent.value.locationId) &&
        sent.value.weather == JavaBytes(CurrentWeatherBytes(current)) &&
        sent.value.forecast == JavaBytes(ForecastWeatherBytes(daily))
    {
      if !enabled || !android {
        return None;
      }
      var current := CreateCurrentWeatherGz(current);
      var forecast := CreateForecastWeatherGz(daily);
      var locationId := NumberToString(lat) + "," + NumberToString(lon);
      var weatherArray := ToJavaByteArray(current, android);
      var forecastArray := ToJavaByteArray(forecast, android);
      return Some(WeatherIntent(locationId, if name != [] then name else locationId,
                                weatherArray[..], forecastArray[..]));
    }
  }
}

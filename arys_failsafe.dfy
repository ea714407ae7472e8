/** `AC_Arys_Failsafe`: four stored failsafe values (latitude, longitude,
    altitude, sprayer status) that the ground station asks for. A request
    checks them in a fixed order, resets what is invalid, and on success
    reports all four and resets them. */
module ArysFailsafe {
  import opened Common

  /** The four AP_Int32 parameters. */
  datatype Coords = Coords(lat: int32, lon: int32, alt: int32, sprayer: int32)

  /** FS_DEFAULTS, each parameter's default. */
  const FS_DEFAULT: int32 := 0

  /** The value a reported or rejected field is reset to. */
  const RESET: int32 := INT32_MAX

  datatype MavResult = Accepted | Failed

  /** What a request sends out: a status text, or a NAMED_VALUE_INT with its
      name, boot time in ms and value. */
  datatype Message = StatusText(text: string) | NamedValueInt(name: string, timeBootMs: uint32, value: int32)

  /** The outcome of `handle_send_fs_coords_to_gcs` on the stored values `c`
      at time `now`: the result, the new stored values and the messages. */
  datatype Outcome = Outcome(result: MavResult, coords: Coords, sent: seq<Message>)

  function HandleRequest(c: Coords, now: uint32): (o: Outcome)
    ensures o.result == Accepted ==> o.coords == Coords(RESET, RESET, RESET, RESET) && |o.sent| == 4
    ensures o.result == Failed ==> |o.sent| == 1 && o.sent[0].StatusText?
    ensures (o.coords.lat == c.lat || o.coords.lat == RESET) && (o.coords.lon == c.lon || o.coords.lon == RESET)
    ensures (o.coords.alt == c.alt || o.coords.alt == RESET)
    ensures (o.coords.sprayer == c.sprayer || o.coords.sprayer == RESET)
  {
    if c.lat == 0 && c.lon == 0 then
      Outcome(Failed, c.(lat := RESET, lon := RESET), [StatusText("failed cause lat/long")])
    else if c.alt <= 0 then
      Outcome(Failed, c.(alt := RESET), [StatusText("failed cause alt")])
    else if c.sprayer != 0 && c.sprayer != 1 then
      Outcome(Failed, c.(sprayer := RESET), [StatusText("failed cause sprayer status")])
    else
      Outcome(Accepted, Coords(RESET, RESET, RESET, RESET),
              [NamedValueInt("FS_LAT", now, c.lat), NamedValueInt("FS_LON", now, c.lon),
               NamedValueInt("FS_ALT", now, c.alt), NamedValueInt("FS_SPR", now, c.sprayer)])
  }

  /** The values a ground station may be given: a position other than
      (0, 0), a positive altitude and a sprayer status of 0 or 1. */
  predicate Reportable(c: Coords) {
    !(c.lat == 0 && c.lon == 0) && c.alt > 0 && (c.sprayer == 0 || c.sprayer == 1)
  }

  predicate IsNamedValue(m: Message) {
    m.NamedValueInt?
  }

  /** A request is accepted exactly when the values are reportable; then the
      four values go out in the order FS_LAT, FS_LON, FS_ALT, FS_SPR, all
      stamped with the same time, and every field is reset. */
  lemma AcceptedIffReportable(c: Coords, now: uint32)
    ensures HandleRequest(c, now).result == Accepted <==> Reportable(c)
    ensures Reportable(c) ==>
              && HandleRequest(c, now).coords == Coords(RESET, RESET, RESET, RESET)
              && |HandleRequest(c, now).sent| == 4
              && (forall k :: 0 <= k < 4 ==> HandleRequest(c, now).sent[k].NamedValueInt?
                                              && HandleRequest(c, now).sent[k].timeBootMs == now)
              && [HandleRequest(c, now).sent[0].name, HandleRequest(c, now).sent[1].name,
                  HandleRequest(c, now).sent[2].name, HandleRequest(c, now).sent[3].name]
                 == ["FS_LAT", "FS_LON", "FS_ALT", "FS_SPR"]
              && [HandleRequest(c, now).sent[0].value, HandleRequest(c, now).sent[1].value,
                  HandleRequest(c, now).sent[2].value, HandleRequest(c, now).sent[3].value]
                 == [c.lat, c.lon, c.alt, c.sprayer]
  {
  }

  /** A rejected request sends one status text and no value, and resets only
      the field (or the lat/lon pair) of the first check that failed,
      checked in the order position, altitude, sprayer. */
  lemma FailedResetsOnlyCulprit(c: Coords, now: uint32)
    requires !Reportable(c)
    ensures var o := HandleRequest(c, now);
      && o.result == Failed
      && |o.sent| == 1 && !IsNamedValue(o.sent[0])
      && o.coords == (if c.lat == 0 && c.lon == 0 then c.(lat := RESET, lon := RESET)
                      else if c.alt <= 0 then c.(alt := RESET)
                      else c.(sprayer := RESET))
  {
  }

  /** Right after an accepted request the stored values are all INT32_MAX,
      which passes the position and altitude checks and fails the sprayer
      check and leaves them as they are, so every later request fails the same
      way until new values are saved. */
  lemma SecondRequestFailsOnSprayer(c: Coords, now: uint32, now2: uint32)
    requires Reportable(c)
    ensures var second := HandleRequest(HandleRequest(c, now).coords, now2);
      && second.result == Failed
      && second.sent == [StatusText("failed cause sprayer status")]
      && second.coords == Coords(RESET, RESET, RESET, RESET)
  {
  }

  /** A request that stores a reportable position, altitude and sprayer
      status with `save_failsafe_status` is then accepted with those values. */
  lemma SavedIsReported(lat: int32, lon: int32, alt: int32, sprayer: uint8, now: uint32)
    requires !(lat == 0 && lon == 0) && alt > 0 && sprayer <= 1
    ensures var o := HandleRequest(Coords(lat, lon, alt, sprayer), now);
      && o.result == Accepted
      && o.sent == [NamedValueInt("FS_LAT", now, lat), NamedValueInt("FS_LON", now, lon),
                    NamedValueInt("FS_ALT", now, alt), NamedValueInt("FS_SPR", now, sprayer)]
  {
  }

  /** Fresh parameters hold the default 0: the first request fails on the
      position and leaves altitude and sprayer at 0. */
  lemma DefaultsFail(now: uint32)
    ensures HandleRequest(Coords(FS_DEFAULT, FS_DEFAULT, FS_DEFAULT, FS_DEFAULT), now)
            == Outcome(Failed, Coords(RESET, RESET, 0, 0), [StatusText("failed cause lat/long")])
  {
  }

  class Failsafe {
    var latitude: int32
    var longitude: int32
    var altitude: int32
    var sprayerStatus: int32

    function Stored(): Coords
      reads this
    {
      Coords(latitude, longitude, altitude, sprayerStatus)
    }

    /** The parameters at their FS_DEFAULTS value. */
    constructor ()
      ensures Stored() == Coords(FS_DEFAULT, FS_DEFAULT, FS_DEFAULT, FS_DEFAULT)
    {
      latitude, longitude, altitude, sprayerStatus := FS_DEFAULT, FS_DEFAULT, FS_DEFAULT, FS_DEFAULT;
    }

    /** `handle_send_fs_coords_to_gcs` at `now` (`AP_HAL::millis()`). */
    method HandleSendFsCoordsToGcs(now: uint32) returns (result: MavResult, sent: seq<Message>)
      modifies this
      ensures HandleRequest(old(Stored()), now) == Outcome(result, Stored(), sent)
    {
      if latitude == 0 && longitude == 0 {
        sent := [StatusText("failed cause lat/long")];
        latitude := RESET;
        longitude := RESET;
        return Failed, sent;
      } else if altitude <= 0 {
        sent := [StatusText("failed cause alt")];
        altitude := RESET;
        return Failed, sent;
      } else if sprayerStatus != 0 && sprayerStatus != 1 {
        sent := [StatusText("failed cause sprayer status")];
        sprayerStatus := RESET;
        return Failed, sent;
      } else {
        sent := [];
        sent := sent + [NamedValueInt("FS_LAT", now, latitude)];
        sent := sent + [NamedValueInt("FS_LON", now, longitude)];
        sent := sent + [NamedValueInt("FS_ALT", now, altitude)];
        sent := sent + [NamedValueInt("FS_SPR", now, sprayerStatus)];
        latitude := RESET;
        longitude := RESET;
        altitude := RESET;
        sprayerStatus := RESET;
        return Accepted, sent;
      }
    }

    /** `save_failsafe_status`: the sprayer status widens from uint8_t. */
    method SaveFailsafeStatus(lat: int32, lon: int32, alt: int32, sprayer: uint8)
      modifies this
      ensures Stored() == Coords(lat, lon, alt, sprayer)
    {
      latitude := lat;
      longitude := lon;
      altitude := alt;
      sprayerStatus := sprayer;
    }
  }
}

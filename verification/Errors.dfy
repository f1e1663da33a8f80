/** SensorAccessLinkError: the classification that decides how the gateway reacts to an error. */
module Errors {

  datatype Severity = EMERGENCY | ALERT | CRITICAL | ERROR | WARNING | NOTICE | INFO | DEBUG | EMPTY_SEVERITY

  datatype Category =
    | CONNECTION_ERROR | COMMUNICATION_ERROR | UNHANDLED_ERROR | EXTERNAL_ERROR | UNRECOGNIZED_ERROR
    | EMPTY_CATEGORY | TRANSLATION_ERROR | TIME_POINTS_ERROR

  datatype Error = Error(origin: string, category: Category, severity: Severity, code: int, message: string)

  const SENSOR_COMMUNICATOR_OPEN_CONNECTION := "open sensor connection"
  const SENSOR_COMMUNICATOR_CLOSE_CONNECTION := "close sensor connection"
  const SENSOR_COMMUNICATOR_HANDLE_MESSAGE := "handle incoming message"
  const SENSOR_COMMUNICATOR_HANDLE_RAWDATA := "handle incoming rawdata"
  const SEPARATOR := " - "

  const PIXEL_ALREADY_HAS_MAXIMUM_TRACK := 10110
  const UNRECOGNIZED_AWL_MESSAGE_ID := 10200
  const UNRECOGNIZED_GUARDIAN_MESSAGE_ID := 10300

  predicate IsFatalForGateway(e: Error) {
    e.severity == EMERGENCY
  }

  predicate IsFatalForSensorAccess(e: Error) {
    e.severity == EMERGENCY || e.severity == ALERT
  }

  predicate IsOpenConnectionRequired(e: Error) {
    !(e.category == COMMUNICATION_ERROR || e.severity == EMERGENCY || e.severity == ALERT)
  }

  predicate IsCloseConnectionRequired(e: Error) {
    e.category != COMMUNICATION_ERROR
  }

  /** The error as it is published: the place that caught it is put before its origin. */
  function WithOrigin(e: Error, origin: string): Error {
    e.(origin := origin + SEPARATOR + e.origin)
  }

  /** What a published error tells: the place that caught it, " - ", and the error as it was raised. */
  predicate ComesFrom(published: Error, place: string, e: Error) {
    && |published.origin| == |place| + 3 + |e.origin|
    && published.origin[..|place|] == place
    && published.origin[|place|..|place| + 3] == " - "
    && published.origin[|place| + 3..] == e.origin
    && published.category == e.category && published.severity == e.severity
    && published.code == e.code && published.message == e.message
  }

  lemma OriginIsPutInFront(e: Error, place: string)
    ensures ComesFrom(WithOrigin(e, place), place, e)
  {
    assert WithOrigin(e, place).origin == place + " - " + e.origin;
  }

  /** The places at which the sensor communicator catches errors. */
  const SENSOR_COMMUNICATOR_PLACES :=
    ["open sensor connection", "close sensor connection", "handle incoming message", "handle incoming rawdata"]

  /** A published error tells its place and the error raised there: no other pair could have been published so. */
  lemma PublishedErrorsTellApart(published: Error, place: string, e: Error, place': string, e': Error)
    requires place in SENSOR_COMMUNICATOR_PLACES && place' in SENSOR_COMMUNICATOR_PLACES
    requires ComesFrom(published, place, e) && ComesFrom(published, place', e')
    ensures place == place' && e == e'
  {
    assert place[0] == published.origin[0] == place'[0];
    assert place[16] == published.origin[16] == place'[16];
  }

  /** An error calls for a new connection exactly when it calls for closing the old one and is not fatal
      for the sensor access; what it calls for does not depend on where it is reported. */
  lemma OpeningMeansClosingAndSurviving(e: Error, origin: string)
    ensures IsOpenConnectionRequired(e) <==> IsCloseConnectionRequired(e) && !IsFatalForSensorAccess(e)
    ensures IsFatalForGateway(e) ==> IsFatalForSensorAccess(e)
    ensures IsOpenConnectionRequired(WithOrigin(e, origin)) <==> IsOpenConnectionRequired(e)
    ensures IsCloseConnectionRequired(WithOrigin(e, origin)) <==> IsCloseConnectionRequired(e)
  {
  }

  /** The classification by what each kind of error does not call for. */
  lemma OnlyTheseAreFatalOrKeepTheConnection(e: Error)
    ensures !IsFatalForGateway(e) <==>
      e.severity in {ALERT, CRITICAL, ERROR, WARNING, NOTICE, INFO, DEBUG, EMPTY_SEVERITY}
    ensures !IsFatalForSensorAccess(e) <==>
      e.severity in {CRITICAL, ERROR, WARNING, NOTICE, INFO, DEBUG, EMPTY_SEVERITY}
    ensures IsCloseConnectionRequired(e) <==>
      e.category in {CONNECTION_ERROR, UNHANDLED_ERROR, EXTERNAL_ERROR, UNRECOGNIZED_ERROR, EMPTY_CATEGORY,
                     TRANSLATION_ERROR, TIME_POINTS_ERROR}
    ensures IsOpenConnectionRequired(e) <==>
      IsCloseConnectionRequired(e) && e.severity in {CRITICAL, ERROR, WARNING, NOTICE, INFO, DEBUG, EMPTY_SEVERITY}
  {
  }
}
